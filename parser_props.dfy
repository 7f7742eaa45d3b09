/** Properties of the parser: how the grammar groups operators, how unary
    signs nest, where it fails, and how far a successful parse reads. */
module ParserProperties {
  import opened Outcomes
  import opened Tokens
  import opened Decimals
  import opened Ast
  import opened Parsing

  /** The token list holds `c` from position `p` on. */
  predicate At(ts: seq<Token>, p: nat, c: seq<Token>) {
    p + |c| <= |ts| && ts[p..p + |c|] == c
  }

  lemma AtSplit(ts: seq<Token>, p: nat, a: seq<Token>, b: seq<Token>)
    requires At(ts, p, a + b)
    ensures At(ts, p, a) && At(ts, p + |a|, b)
  {
    assert ts[p..p + |a|] == (a + b)[..|a|];
    assert ts[p + |a|..p + |a| + |b|] == (a + b)[|a|..];
  }

  function NumberToken(lexeme: string): Token {
    Token(Number, Some(lexeme))
  }

  predicate IsAdditive(k: TokenKind) {
    k == Plus || k == Minus
  }

  predicate IsMultiplicative(k: TokenKind) {
    k == Multiply || k == Divide
  }

  /** A NUMBER factor is a leaf holding its lexeme's exact value. */
  lemma NumberFactor(ts: seq<Token>, p: nat, lexeme: string)
    requires WellFormed(ts) && TokenAt(ts, p) == NumberToken(lexeme)
    ensures IsNumberLexeme(lexeme)
    ensures ParseFactorAt(ts, p) == Ok(Parsed(Num(DecimalValue(lexeme)), p + 1))
  {
  }

  /** One round of a binary-level loop: the operator's text and the tree of
      the operand read after it. */
  datatype Step = Step(op: string, operand: Expr)

  /** Left folding: each step makes the tree so far the left operand of a new
      binary node. */
  function FoldSteps(left: Expr, steps: seq<Step>): Expr
    decreases |steps|
  {
    if steps == [] then left
    else FoldSteps(Bin(left, steps[0].op, steps[0].operand), steps[1..])
  }

  /** Folding to the left puts the last operator at the root, with everything
      before it as its left operand: `a - b - c` is `(a - b) - c`. */
  lemma {:induction false} FoldStepsLast(left: Expr, steps: seq<Step>, s: Step)
    ensures FoldSteps(left, steps + [s]) == Bin(FoldSteps(left, steps), s.op, s.operand)
    decreases |steps|
  {
    if steps == [] {
      assert [] + [s] == [s];
    } else {
      assert (steps + [s])[1..] == steps[1..] + [s];
      FoldStepsLast(Bin(left, steps[0].op, steps[0].operand), steps[1..], s);
    }
  }

  /** From `p` to `q` the list holds rounds of the loop of term: each a `*` or
      `/` token whose text is the step's operator, then a factor that parses
      to the step's operand. */
  predicate FactorStepsAt(ts: seq<Token>, p: nat, steps: seq<Step>, q: nat)
    requires WellFormed(ts)
    decreases |steps|
  {
    if steps == [] then p == q
    else
      var tok := TokenAt(ts, p);
      var right := ParseFactorAt(ts, p + 1);
      && IsMultiplicative(tok.kind) && tok.value == Some(steps[0].op)
      && right.Ok? && right.value.tree == steps[0].operand
      && FactorStepsAt(ts, right.value.next, steps[1..], q)
  }

  /** The same for the loop of expression: `+` or `-`, then a whole term. */
  predicate TermStepsAt(ts: seq<Token>, p: nat, steps: seq<Step>, q: nat)
    requires WellFormed(ts)
    decreases |steps|
  {
    if steps == [] then p == q
    else
      var tok := TokenAt(ts, p);
      var right := ParseTermAt(ts, p + 1);
      && IsAdditive(tok.kind) && tok.value == Some(steps[0].op)
      && right.Ok? && right.value.tree == steps[0].operand
      && TermStepsAt(ts, right.value.next, steps[1..], q)
  }

  /** The loop of term folds any chain of `*`/`/` factors to the left, and
      stops at the first token that is not `*` or `/`. */
  lemma {:induction false} TermLoopFoldsLeft(ts: seq<Token>, left: Expr, p: nat, steps: seq<Step>, q: nat)
    requires WellFormed(ts) && FactorStepsAt(ts, p, steps, q)
    requires !IsMultiplicative(TokenAt(ts, q).kind)
    ensures ParseTermLoop(ts, left, p) == Ok(Parsed(FoldSteps(left, steps), q))
    decreases |steps|
  {
    if steps != [] {
      var right := ParseFactorAt(ts, p + 1).value;
      TermLoopFoldsLeft(ts, Bin(left, steps[0].op, steps[0].operand), right.next, steps[1..], q);
    }
  }

  /** Conversely, whatever the loop of term returns is such a fold: the rounds
      it read, folded onto the tree it started from, ending before a token
      that is not `*` or `/`. */
  lemma {:induction false} TermLoopIsFold(ts: seq<Token>, left: Expr, p: nat)
    requires WellFormed(ts) && ParseTermLoop(ts, left, p).Ok?
    ensures var r := ParseTermLoop(ts, left, p).value;
      && !IsMultiplicative(TokenAt(ts, r.next).kind)
      && exists steps :: FactorStepsAt(ts, p, steps, r.next) && r.tree == FoldSteps(left, steps)
    decreases Remaining(ts, p)
  {
    var r := ParseTermLoop(ts, left, p).value;
    var tok := TokenAt(ts, p);
    if IsMultiplicative(tok.kind) {
      var right := ParseFactorAt(ts, p + 1).value;
      var left' := Bin(left, tok.value.value, right.tree);
      TermLoopIsFold(ts, left', right.next);
      var steps :| FactorStepsAt(ts, right.next, steps, r.next) && r.tree == FoldSteps(left', steps);
      var all := [Step(tok.value.value, right.tree)] + steps;
      assert all[1..] == steps;
      assert FactorStepsAt(ts, p, all, r.next);
    } else {
      assert FactorStepsAt(ts, p, [], p);
    }
  }

  /** A term is its first factor with the chain of `*`/`/` factors after it
      folded on from the left. */
  lemma TermParsesFactors(ts: seq<Token>, p: nat, first: Parsed, steps: seq<Step>, q: nat)
    requires WellFormed(ts) && ParseFactorAt(ts, p) == Ok(first)
    requires FactorStepsAt(ts, first.next, steps, q) && !IsMultiplicative(TokenAt(ts, q).kind)
    ensures ParseTermAt(ts, p) == Ok(Parsed(FoldSteps(first.tree, steps), q))
  {
    TermLoopFoldsLeft(ts, first.tree, first.next, steps, q);
  }

  /** Every parsed term is such a fold. */
  lemma TermIsFoldOfFactors(ts: seq<Token>, p: nat)
    requires WellFormed(ts) && ParseTermAt(ts, p).Ok?
    ensures var first := ParseFactorAt(ts, p); var r := ParseTermAt(ts, p).value;
      && first.Ok? && !IsMultiplicative(TokenAt(ts, r.next).kind)
      && exists steps :: FactorStepsAt(ts, first.value.next, steps, r.next) && r.tree == FoldSteps(first.value.tree, steps)
  {
    var first := ParseFactorAt(ts, p).value;
    TermLoopIsFold(ts, first.tree, first.next);
  }

  /** The loop of expression folds any chain of `+`/`-` terms to the left, and
      stops at the first token that is not `+` or `-`. */
  lemma {:induction false} ExpressionLoopFoldsLeft(ts: seq<Token>, left: Expr, p: nat, steps: seq<Step>, q: nat)
    requires WellFormed(ts) && TermStepsAt(ts, p, steps, q)
    requires !IsAdditive(TokenAt(ts, q).kind)
    ensures ParseExpressionLoop(ts, left, p) == Ok(Parsed(FoldSteps(left, steps), q))
    decreases |steps|
  {
    if steps != [] {
      var right := ParseTermAt(ts, p + 1).value;
      ExpressionLoopFoldsLeft(ts, Bin(left, steps[0].op, steps[0].operand), right.next, steps[1..], q);
    }
  }

  /** Conversely, whatever the loop of expression returns is such a fold. */
  lemma {:induction false} ExpressionLoopIsFold(ts: seq<Token>, left: Expr, p: nat)
    requires WellFormed(ts) && ParseExpressionLoop(ts, left, p).Ok?
    ensures var r := ParseExpressionLoop(ts, left, p).value;
      && !IsAdditive(TokenAt(ts, r.next).kind)
      && exists steps :: TermStepsAt(ts, p, steps, r.next) && r.tree == FoldSteps(left, steps)
    decreases Remaining(ts, p)
  {
    var r := ParseExpressionLoop(ts, left, p).value;
    var tok := TokenAt(ts, p);
    if IsAdditive(tok.kind) {
      var right := ParseTermAt(ts, p + 1).value;
      var left' := Bin(left, tok.value.value, right.tree);
      ExpressionLoopIsFold(ts, left', right.next);
      var steps :| TermStepsAt(ts, right.next, steps, r.next) && r.tree == FoldSteps(left', steps);
      var all := [Step(tok.value.value, right.tree)] + steps;
      assert all[1..] == steps;
      assert TermStepsAt(ts, p, all, r.next);
    } else {
      assert TermStepsAt(ts, p, [], p);
    }
  }

  /** An expression is its first term with the chain of `+`/`-` terms after
      it folded on from the left. */
  lemma ExpressionParsesTerms(ts: seq<Token>, p: nat, first: Parsed, steps: seq<Step>, q: nat)
    requires WellFormed(ts) && ParseTermAt(ts, p) == Ok(first)
    requires TermStepsAt(ts, first.next, steps, q) && !IsAdditive(TokenAt(ts, q).kind)
    ensures ParseExpressionAt(ts, p) == Ok(Parsed(FoldSteps(first.tree, steps), q))
  {
    ExpressionLoopFoldsLeft(ts, first.tree, first.next, steps, q);
  }

  /** Every parsed expression is such a fold. */
  lemma ExpressionIsFoldOfTerms(ts: seq<Token>, p: nat)
    requires WellFormed(ts) && ParseExpressionAt(ts, p).Ok?
    ensures var first := ParseTermAt(ts, p); var r := ParseExpressionAt(ts, p).value;
      && first.Ok? && !IsAdditive(TokenAt(ts, r.next).kind)
      && exists steps :: TermStepsAt(ts, first.value.next, steps, r.next) && r.tree == FoldSteps(first.value.tree, steps)
  {
    var first := ParseTermAt(ts, p).value;
    ExpressionLoopIsFold(ts, first.tree, first.next);
  }

  /** Precedence and associativity of a whole parse: the tree is a left fold
      of `+`/`-` rounds over whole terms, and each term (TermIsFoldOfFactors)
      is a left fold of `*`/`/` rounds over factors; EOF follows. Both
      operands of every `+`/`-` node of the top chain come from term. */
  lemma {:induction false} ParseIsSumOfTerms(ts: seq<Token>)
    requires WellFormed(ts) && ParseTokens(ts).Ok?
    ensures var first := ParseTermAt(ts, 0); var e := ParseExpressionAt(ts, 0);
      && first.Ok? && e.Ok? && TokenAt(ts, e.value.next).kind == Eof
      && exists steps :: TermStepsAt(ts, first.value.next, steps, e.value.next)
           && ParseTokens(ts).value == FoldSteps(first.value.tree, steps)
  {
    ExpressionIsFoldOfTerms(ts, 0);
  }

  /** And back: a first term, a chain of `+`/`-` terms, then EOF, parse to the
      left fold. */
  lemma SumOfTermsParses(ts: seq<Token>, first: Parsed, steps: seq<Step>, q: nat)
    requires WellFormed(ts) && ParseTermAt(ts, 0) == Ok(first)
    requires TermStepsAt(ts, first.next, steps, q) && TokenAt(ts, q).kind == Eof
    ensures ParseTokens(ts) == Ok(FoldSteps(first.tree, steps))
  {
    ExpressionParsesTerms(ts, 0, first, steps, q);
  }

  predicate IsSign(t: Token) {
    t.kind == Plus || t.kind == Minus
  }

  /** The unary nodes the parser builds for leading signs; the operator text
      is the sign's own, not the token's value. */
  function WrapSigns(signs: seq<Token>, e: Expr): Expr
    requires forall i :: 0 <= i < |signs| ==> IsSign(signs[i])
  {
    if signs == [] then e
    else Un(if signs[0].kind == Plus then "+" else "-", WrapSigns(signs[1..], e))
  }

  /** Each leading `+`/`-` wraps exactly one unary node around the factor
      after it, the first sign outermost: `--3` is `-(-(3))`. A failure of
      that factor is the failure of the whole. */
  lemma {:induction false} SignsNestToTheRight(ts: seq<Token>, p: nat, signs: seq<Token>)
    requires WellFormed(ts) && (forall i :: 0 <= i < |signs| ==> IsSign(signs[i]))
    requires At(ts, p, signs)
    ensures var inner := ParseFactorAt(ts, p + |signs|);
      ParseFactorAt(ts, p) ==
        if inner.Ok? then Ok(Parsed(WrapSigns(signs, inner.value.tree), inner.value.next))
        else Err(inner.error)
    decreases |signs|
  {
    if signs != [] {
      AtSplit(ts, p, [signs[0]], signs[1..]);
      assert ts[p] == ts[p..p + 1][0];
      assert [signs[0]] + signs[1..] == signs;
      SignsNestToTheRight(ts, p + 1, signs[1..]);
    }
  }

  /** A parenthesised expression yields the inner tree itself: no node is
      added for the parentheses. */
  lemma ParenthesesAddNoNode(ts: seq<Token>, p: nat)
    requires WellFormed(ts) && TokenAt(ts, p).kind == LParen
    ensures var inner := ParseExpressionAt(ts, p + 1);
      && (inner.Ok? && TokenAt(ts, inner.value.next).kind == RParen ==>
            ParseFactorAt(ts, p) == Ok(Parsed(inner.value.tree, inner.value.next + 1)))
      && (inner.Ok? && TokenAt(ts, inner.value.next).kind != RParen ==>
            ParseFactorAt(ts, p) == Err(MissingClosingParen))
      && (inner.Err? ==> ParseFactorAt(ts, p) == Err(inner.error))
  {
  }

  predicate StartsFactor(k: TokenKind) {
    k == Plus || k == Minus || k == Number || k == LParen
  }

  /** Where a factor is required, any token other than `+`, `-`, NUMBER or
      `(` is a syntax error naming that token; every term and expression
      begins with a factor, so they fail the same way. */
  lemma FactorRejects(ts: seq<Token>, p: nat)
    requires WellFormed(ts) && !StartsFactor(TokenAt(ts, p).kind)
    ensures ParseFactorAt(ts, p) == Err(UnexpectedToken(TokenAt(ts, p)))
    ensures ParseTermAt(ts, p) == Err(UnexpectedToken(TokenAt(ts, p)))
    ensures ParseExpressionAt(ts, p) == Err(UnexpectedToken(TokenAt(ts, p)))
  {
  }

  /** A token list with a single EOF, at its end, as the lexer produces. */
  predicate EndsWithOnlyEof(ts: seq<Token>) {
    |ts| > 0 && ts[|ts| - 1].kind == Eof && forall i :: 0 <= i < |ts| - 1 ==> ts[i].kind != Eof
  }

  /** On such a list, parse succeeds only by reading every token up to the
      final EOF; an expression that stops earlier leaves trailing tokens,
      which are an error. */
  lemma ParseReadsToEof(ts: seq<Token>)
    requires WellFormed(ts) && EndsWithOnlyEof(ts)
    ensures var e := ParseExpressionAt(ts, 0);
      && (ParseTokens(ts).Ok? <==> e.Ok? && e.value.next == |ts| - 1)
      && (e.Ok? && e.value.next != |ts| - 1 ==> ParseTokens(ts) == Err(TrailingTokens))
  {
  }
}
