/** The three phases in sequence (Compiler.compile without its printing):
    text to tokens, tokens to a tree, the tree to a value. */
module Pipeline {
  import opened Outcomes
  import opened Tokens
  import opened Decimals
  import opened Lexing
  import opened LexerProperties
  import opened Ast
  import opened Parsing
  import opened ParserProperties
  import opened Evaluation

  /** Which phase rejected the input, and why. */
  datatype CompileError =
    | LexicalError(lex: LexError)
    | SyntaxError(syntax: ParseError)
    | EvaluationError(eval: EvalError)

  predicate LexerTokens(ts: seq<Token>) {
    forall i :: 0 <= i < |ts| ==> IsLexerToken(ts[i])
  }

  /** What the lexer hands the parser is a token list it can read: numbers
      carry lexemes, operators their symbols, and a single EOF ends it. */
  lemma LexedTokensParse(text: string)
    requires Lex(text).Ok?
    ensures var ts := Lex(text).value; LexerTokens(ts) && WellFormed(ts) && EndsWithOnlyEof(ts)
  {
    TokenizeShape(text, 0);
  }

  lemma LexerTokenAt(ts: seq<Token>, p: nat)
    requires LexerTokens(ts)
    ensures IsLexerToken(TokenAt(ts, p))
  {
  }

  // Trees parsed from the lexer's tokens hold only the operators the
  // evaluator knows: a binary node takes its operator from a `+ - * /`
  // token, whose text the lexer sets to that symbol.

  lemma FactorKnownOps(ts: seq<Token>, p: nat)
    requires WellFormed(ts) && LexerTokens(ts)
    ensures ParseFactorAt(ts, p).Ok? ==> KnownOps(ParseFactorAt(ts, p).value.tree)
    decreases Remaining(ts, p), 0
  {
    var k := TokenAt(ts, p).kind;
    if k == Plus || k == Minus {
      FactorKnownOps(ts, p + 1);
    } else if k == LParen {
      ExpressionKnownOps(ts, p + 1);
    }
  }

  lemma TermKnownOps(ts: seq<Token>, p: nat)
    requires WellFormed(ts) && LexerTokens(ts)
    ensures ParseTermAt(ts, p).Ok? ==> KnownOps(ParseTermAt(ts, p).value.tree)
    decreases Remaining(ts, p), 1
  {
    FactorKnownOps(ts, p);
    var first := ParseFactorAt(ts, p);
    if first.Ok? {
      TermLoopKnownOps(ts, first.value.tree, first.value.next);
    }
  }

  lemma TermLoopKnownOps(ts: seq<Token>, left: Expr, p: nat)
    requires WellFormed(ts) && LexerTokens(ts) && KnownOps(left)
    ensures ParseTermLoop(ts, left, p).Ok? ==> KnownOps(ParseTermLoop(ts, left, p).value.tree)
    decreases Remaining(ts, p), 0
  {
    var tok := TokenAt(ts, p);
    if tok.kind == Multiply || tok.kind == Divide {
      LexerTokenAt(ts, p);
      FactorKnownOps(ts, p + 1);
      var right := ParseFactorAt(ts, p + 1);
      if right.Ok? {
        TermLoopKnownOps(ts, Bin(left, tok.value.value, right.value.tree), right.value.next);
      }
    }
  }

  lemma ExpressionKnownOps(ts: seq<Token>, p: nat)
    requires WellFormed(ts) && LexerTokens(ts)
    ensures ParseExpressionAt(ts, p).Ok? ==> KnownOps(ParseExpressionAt(ts, p).value.tree)
    decreases Remaining(ts, p), 2
  {
    TermKnownOps(ts, p);
    var first := ParseTermAt(ts, p);
    if first.Ok? {
      ExpressionLoopKnownOps(ts, first.value.tree, first.value.next);
    }
  }

  lemma ExpressionLoopKnownOps(ts: seq<Token>, left: Expr, p: nat)
    requires WellFormed(ts) && LexerTokens(ts) && KnownOps(left)
    ensures ParseExpressionLoop(ts, left, p).Ok? ==> KnownOps(ParseExpressionLoop(ts, left, p).value.tree)
    decreases Remaining(ts, p), 0
  {
    var tok := TokenAt(ts, p);
    if tok.kind == Plus || tok.kind == Minus {
      LexerTokenAt(ts, p);
      TermKnownOps(ts, p + 1);
      var right := ParseTermAt(ts, p + 1);
      if right.Ok? {
        ExpressionLoopKnownOps(ts, Bin(left, tok.value.value, right.value.tree), right.value.next);
      }
    }
  }

  /** Every tree parsed from lexed text has only known operators. */
  lemma LexedTreeKnownOps(text: string)
    requires Lex(text).Ok?
    ensures var ts := Lex(text).value;
      WellFormed(ts) && (ParseTokens(ts).Ok? ==> KnownOps(ParseTokens(ts).value))
  {
    LexedTokensParse(text);
    ExpressionKnownOps(Lex(text).value, 0);
  }

  /** The tree of the text, or the phase that failed first. */
  function Compile(text: string): Result<real, CompileError> {
    match Lex(text)
    case Err(e) => Err(LexicalError(e))
    case Ok(ts) =>
      LexedTokensParse(text);
      match ParseTokens(ts)
      case Err(e) => Err(SyntaxError(e))
      case Ok(tree) =>
        match Evaluate(tree)
        case Err(e) => Err(EvaluationError(e))
        case Ok(v) => Ok(v)
  }

  /** A text the lexer accepts compiles exactly when its tokens parse and no
      divisor in the tree evaluates to zero. */
  lemma CompileSucceedsIff(text: string)
    requires Lex(text).Ok?
    ensures WellFormed(Lex(text).value)
    ensures Compile(text).Ok? <==>
      ParseTokens(Lex(text).value).Ok? && DivisorsNonZero(ParseTokens(Lex(text).value).value)
  {
    var ts := Lex(text).value;
    LexedTreeKnownOps(text);
    if ParseTokens(ts).Ok? {
      EvaluateSucceedsIff(ParseTokens(ts).value);
    }
  }

  /** Each phase's failure is reported as that phase's error, and the only
      failure left to evaluation is a division by zero: the parser never
      builds a node with an operator the evaluator does not know. */
  lemma CompileFailures(text: string)
    ensures Compile(text).Err? && Compile(text).error.LexicalError? <==> Lex(text).Err?
    ensures Compile(text).Err? && Compile(text).error.SyntaxError? <==>
      Lex(text).Ok? && WellFormed(Lex(text).value) && ParseTokens(Lex(text).value).Err?
    ensures Compile(text).Err? && Compile(text).error.EvaluationError? ==>
      Compile(text).error.eval == DivisionByZero
  {
    if Lex(text).Ok? {
      var ts := Lex(text).value;
      LexedTreeKnownOps(text);
      if ParseTokens(ts).Ok? {
        KnownOpsFailOnlyByDivision(ParseTokens(ts).value);
      }
    }
  }

  /** Compiler.compile: a Lexer over the text, its token list handed to a
      Parser, and the tree to the evaluator. */
  method CompileText(text: string) returns (r: Result<real, CompileError>)
    ensures r == Compile(text)
  {
    var lexer := new Lexer(text);
    var tokens := lexer.Tokenize();
    if tokens.Err? {
      return Err(LexicalError(tokens.error));
    }
    LexedTokensParse(text);
    var parser := new Parser(tokens.value);
    var tree := parser.Parse();
    if tree.Err? {
      return Err(SyntaxError(tree.error));
    }
    var value := Evaluate(tree.value);
    if value.Err? {
      return Err(EvaluationError(value.error));
    }
    r := Ok(value.value);
  }
}
