/** The ten demo inputs of the compiler's driver (Compiler.main), and four
    more edge cases (an unclosed group, juxtaposed numbers, a division by
    zero and a trailing '.'), phase by phase: the tokens of each text, its
    tree or the parser's error, and what Compile returns for it.

    Every demo text except `3.` is made of characters the lexer reads one at
    a time (spaces, symbols, and digits that no digit or '.' follows), so its
    tokens are checked character by character through Pairs; the tree is
    checked rule by rule, innermost call first. `3.` is checked by unfolding
    the scan directly. */
module Demos {
  import opened Outcomes
  import opened Tokens
  import opened Decimals
  import opened Lexing
  import opened LexerProperties
  import opened Ast
  import opened Parsing
  import opened ParserProperties
  import opened Evaluation
  import opened Pipeline

  function SymbolToken(c: char): Token
    requires IsSymbol(c)
  {
    Token(SymbolKind(c), Some([c]))
  }

  /** A character that the lexer reads on its own: a symbol, or a digit that
      no digit and no '.' follows. */
  predicate SingleChar(input: string, i: nat) {
    i < |input| &&
    (IsSymbol(input[i]) ||
     (IsDigit(input[i]) && !IsDigit(CharAt(input, i + 1)) && CharAt(input, i + 1) != '.'))
  }

  /** The token of such a character. */
  function CharToken(c: char): Token
    requires IsDigit(c) || IsSymbol(c)
  {
    if IsDigit(c) then NumberToken([c]) else SymbolToken(c)
  }

  lemma SingleCharStep(input: string, p: nat)
    requires SingleChar(input, p)
    ensures TokenizeFrom(input, p) == Prepend([CharToken(input[p])], TokenizeFrom(input, p + 1))
  {
    var c := input[p];
    if IsSymbol(c) {
      SymbolIsOneToken(input, p);
    } else {
      assert DigitRunEnd(input, p + 1) == p + 1;
      assert input[p..p + 1] == [c];
    }
  }

  /** From position `p` of `s` on, spaces and single characters yield the
      tokens of `ts` from `k` on, ending with its one EOF. */
  predicate Pairs(s: string, p: nat, ts: seq<Token>, k: nat)
    decreases |s| - p
  {
    if p >= |s| then k + 1 == |ts| && ts[k] == WithoutValue(Eof)
    else if s[p] == ' ' then Pairs(s, p + 1, ts, k)
    else k + 1 < |ts| && SingleChar(s, p) && CharToken(s[p]) == ts[k] && Pairs(s, p + 1, ts, k + 1)
  }

  lemma {:induction false} PairsFrom(s: string, p: nat, ts: seq<Token>, k: nat)
    requires p <= |s| && Pairs(s, p, ts, k)
    ensures k < |ts| && TokenizeFrom(s, p) == Ok(ts[k..])
    decreases |s| - p
  {
    if p == |s| {
      assert NextToken(s, p) == Ok(Lexed(WithoutValue(Eof), p));
      assert ts[k..] == [WithoutValue(Eof)];
    } else if s[p] == ' ' {
      PairsFrom(s, p + 1, ts, k);
      WhitespaceProducesNoToken(s, p);
    } else {
      PairsFrom(s, p + 1, ts, k + 1);
      SingleCharStep(s, p);
      assert [ts[k]] + ts[k + 1..] == ts[k..];
    }
  }

  /** A text that pairs with a token list from the start lexes to it. */
  lemma PairsLex(s: string, ts: seq<Token>)
    requires Pairs(s, 0, ts, 0)
    ensures Lex(s) == Ok(ts)
  {
    PairsFrom(s, 0, ts, 0);
    assert ts[0..] == ts;
  }

  /** Compile's result from the results of its phases. */
  lemma CompileFromPhases(s: string, ts: seq<Token>, tree: Expr, r: Result<real, EvalError>)
    requires Lex(s) == Ok(ts) && WellFormed(ts) && ParseTokens(ts) == Ok(tree) && Evaluate(tree) == r
    ensures Compile(s) == if r.Ok? then Ok(r.value) else Err(EvaluationError(r.error))
  {
  }

  lemma CompileRejects(s: string, ts: seq<Token>, e: ParseError)
    requires Lex(s) == Ok(ts) && WellFormed(ts) && ParseTokens(ts) == Err(e)
    ensures Compile(s) == Err(SyntaxError(e))
  {
  }

  /** `3 + 4 * 2`: `*` binds tighter than `+`. */
  lemma Precedence()
    ensures Lex("3 + 4 * 2") == Ok([Token(Number, Some("3")), Token(Plus, Some("+")), Token(Number, Some("4")), Token(Multiply, Some("*")), Token(Number, Some("2")), Token(Eof, None)])
    ensures WellFormed([Token(Number, Some("3")), Token(Plus, Some("+")), Token(Number, Some("4")), Token(Multiply, Some("*")), Token(Number, Some("2")), Token(Eof, None)]) && ParseTokens([Token(Number, Some("3")), Token(Plus, Some("+")), Token(Number, Some("4")), Token(Multiply, Some("*")), Token(Number, Some("2")), Token(Eof, None)]) == Ok(Bin(Num(3.0), "+", Bin(Num(4.0), "*", Num(2.0))))
    ensures Compile("3 + 4 * 2") == Ok(11.0)
  {
    var s, ts := "3 + 4 * 2", [Token(Number, Some("3")), Token(Plus, Some("+")), Token(Number, Some("4")), Token(Multiply, Some("*")), Token(Number, Some("2")), Token(Eof, None)];
    PrecedenceTokens(s, ts);
    LexedTokensParse(s);
    PrecedenceTree(ts);
    PrecedenceValue();
    CompileFromPhases(s, ts, Bin(Num(3.0), "+", Bin(Num(4.0), "*", Num(2.0))), Ok(11.0));
  }

  lemma PrecedenceValue()
    ensures Evaluate(Bin(Num(3.0), "+", Bin(Num(4.0), "*", Num(2.0)))) == Ok(11.0)
  {
  }

  lemma PrecedenceTokens(s: string, ts: seq<Token>)
    requires |s| == 9 && s[0] == '3' && s[1] == ' ' && s[2] == '+' && s[3] == ' ' && s[4] == '4' && s[5] == ' ' && s[6] == '*' && s[7] == ' ' && s[8] == '2'
    requires |ts| == 6 && ts[0] == Token(Number, Some("3")) && ts[1] == Token(Plus, Some("+")) && ts[2] == Token(Number, Some("4")) && ts[3] == Token(Multiply, Some("*")) && ts[4] == Token(Number, Some("2")) && ts[5] == Token(Eof, None)
    ensures Lex(s) == Ok(ts)
  {
    assert Pairs(s, 9, ts, 5);
    assert Pairs(s, 8, ts, 4);
    assert Pairs(s, 7, ts, 4);
    assert Pairs(s, 6, ts, 3);
    assert Pairs(s, 5, ts, 3);
    assert Pairs(s, 4, ts, 2);
    assert Pairs(s, 3, ts, 2);
    assert Pairs(s, 2, ts, 1);
    assert Pairs(s, 1, ts, 1);
    assert Pairs(s, 0, ts, 0);
    PairsLex(s, ts);
  }

  lemma PrecedenceTree0(ts: seq<Token>)
    requires WellFormed(ts) && |ts| == 6 && ts[0] == Token(Number, Some("3")) && ts[1] == Token(Plus, Some("+")) && ts[2] == Token(Number, Some("4")) && ts[3] == Token(Multiply, Some("*")) && ts[4] == Token(Number, Some("2")) && ts[5] == Token(Eof, None)
    ensures ParseTermAt(ts, 0) == Ok(Parsed(Num(3.0), 1))
    ensures ParseFactorAt(ts, 2) == Ok(Parsed(Num(4.0), 3))
    ensures ParseFactorAt(ts, 4) == Ok(Parsed(Num(2.0), 5))
    ensures ParseTermLoop(ts, Bin(Num(4.0), "*", Num(2.0)), 5) == Ok(Parsed(Bin(Num(4.0), "*", Num(2.0)), 5))
  {
    assert ParseFactorAt(ts, 0) == Ok(Parsed(Num(3.0), 1));
    assert ParseTermLoop(ts, Num(3.0), 1) == Ok(Parsed(Num(3.0), 1));
  }

  lemma PrecedenceTree1(ts: seq<Token>)
    requires WellFormed(ts) && |ts| == 6 && ts[0] == Token(Number, Some("3")) && ts[1] == Token(Plus, Some("+")) && ts[2] == Token(Number, Some("4")) && ts[3] == Token(Multiply, Some("*")) && ts[4] == Token(Number, Some("2")) && ts[5] == Token(Eof, None)
    requires ParseTermAt(ts, 0) == Ok(Parsed(Num(3.0), 1))
    requires ParseFactorAt(ts, 2) == Ok(Parsed(Num(4.0), 3))
    requires ParseFactorAt(ts, 4) == Ok(Parsed(Num(2.0), 5))
    requires ParseTermLoop(ts, Bin(Num(4.0), "*", Num(2.0)), 5) == Ok(Parsed(Bin(Num(4.0), "*", Num(2.0)), 5))
    ensures ParseExpressionAt(ts, 0) == Ok(Parsed(Bin(Num(3.0), "+", Bin(Num(4.0), "*", Num(2.0))), 5))
  {
    assert ParseTermLoop(ts, Num(4.0), 3) == Ok(Parsed(Bin(Num(4.0), "*", Num(2.0)), 5));
    assert ParseTermAt(ts, 2) == Ok(Parsed(Bin(Num(4.0), "*", Num(2.0)), 5));
    assert ParseExpressionLoop(ts, Bin(Num(3.0), "+", Bin(Num(4.0), "*", Num(2.0))), 5) == Ok(Parsed(Bin(Num(3.0), "+", Bin(Num(4.0), "*", Num(2.0))), 5));
    assert ParseExpressionLoop(ts, Num(3.0), 1) == Ok(Parsed(Bin(Num(3.0), "+", Bin(Num(4.0), "*", Num(2.0))), 5));
  }

  lemma PrecedenceTree(ts: seq<Token>)
    requires WellFormed(ts) && |ts| == 6 && ts[0] == Token(Number, Some("3")) && ts[1] == Token(Plus, Some("+")) && ts[2] == Token(Number, Some("4")) && ts[3] == Token(Multiply, Some("*")) && ts[4] == Token(Number, Some("2")) && ts[5] == Token(Eof, None)
    ensures ParseTokens(ts) == Ok(Bin(Num(3.0), "+", Bin(Num(4.0), "*", Num(2.0))))
  {
    PrecedenceTree0(ts);
    PrecedenceTree1(ts);
  }

  /** `(1 + 2) * (3 + 4)`: parentheses group the operands of a product. */
  lemma GroupedProduct()
    ensures Lex("(1 + 2) * (3 + 4)") == Ok([Token(LParen, Some("(")), Token(Number, Some("1")), Token(Plus, Some("+")), Token(Number, Some("2")), Token(RParen, Some(")")), Token(Multiply, Some("*")), Token(LParen, Some("(")), Token(Number, Some("3")), Token(Plus, Some("+")), Token(Number, Some("4")), Token(RParen, Some(")")), Token(Eof, None)])
    ensures WellFormed([Token(LParen, Some("(")), Token(Number, Some("1")), Token(Plus, Some("+")), Token(Number, Some("2")), Token(RParen, Some(")")), Token(Multiply, Some("*")), Token(LParen, Some("(")), Token(Number, Some("3")), Token(Plus, Some("+")), Token(Number, Some("4")), Token(RParen, Some(")")), Token(Eof, None)]) && ParseTokens([Token(LParen, Some("(")), Token(Number, Some("1")), Token(Plus, Some("+")), Token(Number, Some("2")), Token(RParen, Some(")")), Token(Multiply, Some("*")), Token(LParen, Some("(")), Token(Number, Some("3")), Token(Plus, Some("+")), Token(Number, Some("4")), Token(RParen, Some(")")), Token(Eof, None)]) == Ok(Bin(Bin(Num(1.0), "+", Num(2.0)), "*", Bin(Num(3.0), "+", Num(4.0))))
    ensures Compile("(1 + 2) * (3 + 4)") == Ok(21.0)
  {
    var s, ts := "(1 + 2) * (3 + 4)", [Token(LParen, Some("(")), Token(Number, Some("1")), Token(Plus, Some("+")), Token(Number, Some("2")), Token(RParen, Some(")")), Token(Multiply, Some("*")), Token(LParen, Some("(")), Token(Number, Some("3")), Token(Plus, Some("+")), Token(Number, Some("4")), Token(RParen, Some(")")), Token(Eof, None)];
    GroupedProductTokens(s, ts);
    LexedTokensParse(s);
    GroupedProductTree(ts);
    GroupedProductValue();
    CompileFromPhases(s, ts, Bin(Bin(Num(1.0), "+", Num(2.0)), "*", Bin(Num(3.0), "+", Num(4.0))), Ok(21.0));
  }

  lemma GroupedProductValue()
    ensures Evaluate(Bin(Bin(Num(1.0), "+", Num(2.0)), "*", Bin(Num(3.0), "+", Num(4.0)))) == Ok(21.0)
  {
  }

  lemma GroupedProductTokens(s: string, ts: seq<Token>)
    requires |s| == 17 && s[0] == '(' && s[1] == '1' && s[2] == ' ' && s[3] == '+' && s[4] == ' ' && s[5] == '2' && s[6] == ')' && s[7] == ' ' && s[8] == '*' && s[9] == ' ' && s[10] == '(' && s[11] == '3' && s[12] == ' ' && s[13] == '+' && s[14] == ' ' && s[15] == '4' && s[16] == ')'
    requires |ts| == 12 && ts[0] == Token(LParen, Some("(")) && ts[1] == Token(Number, Some("1")) && ts[2] == Token(Plus, Some("+")) && ts[3] == Token(Number, Some("2")) && ts[4] == Token(RParen, Some(")")) && ts[5] == Token(Multiply, Some("*")) && ts[6] == Token(LParen, Some("(")) && ts[7] == Token(Number, Some("3")) && ts[8] == Token(Plus, Some("+")) && ts[9] == Token(Number, Some("4")) && ts[10] == Token(RParen, Some(")")) && ts[11] == Token(Eof, None)
    ensures Lex(s) == Ok(ts)
  {
    assert Pairs(s, 17, ts, 11);
    assert Pairs(s, 16, ts, 10);
    assert Pairs(s, 15, ts, 9);
    assert Pairs(s, 14, ts, 9);
    assert Pairs(s, 13, ts, 8);
    assert Pairs(s, 12, ts, 8);
    assert Pairs(s, 11, ts, 7);
    assert Pairs(s, 10, ts, 6);
    assert Pairs(s, 9, ts, 6);
    assert Pairs(s, 8, ts, 5);
    assert Pairs(s, 7, ts, 5);
    assert Pairs(s, 6, ts, 4);
    assert Pairs(s, 5, ts, 3);
    assert Pairs(s, 4, ts, 3);
    assert Pairs(s, 3, ts, 2);
    assert Pairs(s, 2, ts, 2);
    assert Pairs(s, 1, ts, 1);
    assert Pairs(s, 0, ts, 0);
    PairsLex(s, ts);
  }

  lemma GroupedProductTree0(ts: seq<Token>)
    requires WellFormed(ts) && |ts| == 12 && ts[0] == Token(LParen, Some("(")) && ts[1] == Token(Number, Some("1")) && ts[2] == Token(Plus, Some("+")) && ts[3] == Token(Number, Some("2")) && ts[4] == Token(RParen, Some(")")) && ts[5] == Token(Multiply, Some("*")) && ts[6] == Token(LParen, Some("(")) && ts[7] == Token(Number, Some("3")) && ts[8] == Token(Plus, Some("+")) && ts[9] == Token(Number, Some("4")) && ts[10] == Token(RParen, Some(")")) && ts[11] == Token(Eof, None)
    ensures ParseTermAt(ts, 1) == Ok(Parsed(Num(1.0), 2))
    ensures ParseTermAt(ts, 3) == Ok(Parsed(Num(2.0), 4))
  {
    assert ParseFactorAt(ts, 1) == Ok(Parsed(Num(1.0), 2));
    assert ParseTermLoop(ts, Num(1.0), 2) == Ok(Parsed(Num(1.0), 2));
    assert ParseFactorAt(ts, 3) == Ok(Parsed(Num(2.0), 4));
    assert ParseTermLoop(ts, Num(2.0), 4) == Ok(Parsed(Num(2.0), 4));
  }

  lemma GroupedProductTree1(ts: seq<Token>)
    requires WellFormed(ts) && |ts| == 12 && ts[0] == Token(LParen, Some("(")) && ts[1] == Token(Number, Some("1")) && ts[2] == Token(Plus, Some("+")) && ts[3] == Token(Number, Some("2")) && ts[4] == Token(RParen, Some(")")) && ts[5] == Token(Multiply, Some("*")) && ts[6] == Token(LParen, Some("(")) && ts[7] == Token(Number, Some("3")) && ts[8] == Token(Plus, Some("+")) && ts[9] == Token(Number, Some("4")) && ts[10] == Token(RParen, Some(")")) && ts[11] == Token(Eof, None)
    requires ParseTermAt(ts, 1) == Ok(Parsed(Num(1.0), 2))
    requires ParseTermAt(ts, 3) == Ok(Parsed(Num(2.0), 4))
    ensures ParseFactorAt(ts, 0) == Ok(Parsed(Bin(Num(1.0), "+", Num(2.0)), 5))
    ensures ParseFactorAt(ts, 7) == Ok(Parsed(Num(3.0), 8))
    ensures ParseTermLoop(ts, Num(3.0), 8) == Ok(Parsed(Num(3.0), 8))
  {
    assert ParseExpressionLoop(ts, Bin(Num(1.0), "+", Num(2.0)), 4) == Ok(Parsed(Bin(Num(1.0), "+", Num(2.0)), 4));
    assert ParseExpressionLoop(ts, Num(1.0), 2) == Ok(Parsed(Bin(Num(1.0), "+", Num(2.0)), 4));
    assert ParseExpressionAt(ts, 1) == Ok(Parsed(Bin(Num(1.0), "+", Num(2.0)), 4));
  }

  lemma GroupedProductTree2(ts: seq<Token>)
    requires WellFormed(ts) && |ts| == 12 && ts[0] == Token(LParen, Some("(")) && ts[1] == Token(Number, Some("1")) && ts[2] == Token(Plus, Some("+")) && ts[3] == Token(Number, Some("2")) && ts[4] == Token(RParen, Some(")")) && ts[5] == Token(Multiply, Some("*")) && ts[6] == Token(LParen, Some("(")) && ts[7] == Token(Number, Some("3")) && ts[8] == Token(Plus, Some("+")) && ts[9] == Token(Number, Some("4")) && ts[10] == Token(RParen, Some(")")) && ts[11] == Token(Eof, None)
    requires ParseFactorAt(ts, 7) == Ok(Parsed(Num(3.0), 8))
    requires ParseTermLoop(ts, Num(3.0), 8) == Ok(Parsed(Num(3.0), 8))
    ensures ParseTermAt(ts, 7) == Ok(Parsed(Num(3.0), 8))
    ensures ParseExpressionLoop(ts, Num(3.0), 8) == Ok(Parsed(Bin(Num(3.0), "+", Num(4.0)), 10))
  {
    assert ParseFactorAt(ts, 9) == Ok(Parsed(Num(4.0), 10));
    assert ParseTermLoop(ts, Num(4.0), 10) == Ok(Parsed(Num(4.0), 10));
    assert ParseTermAt(ts, 9) == Ok(Parsed(Num(4.0), 10));
    assert ParseExpressionLoop(ts, Bin(Num(3.0), "+", Num(4.0)), 10) == Ok(Parsed(Bin(Num(3.0), "+", Num(4.0)), 10));
  }

  lemma GroupedProductTree3(ts: seq<Token>)
    requires WellFormed(ts) && |ts| == 12 && ts[0] == Token(LParen, Some("(")) && ts[1] == Token(Number, Some("1")) && ts[2] == Token(Plus, Some("+")) && ts[3] == Token(Number, Some("2")) && ts[4] == Token(RParen, Some(")")) && ts[5] == Token(Multiply, Some("*")) && ts[6] == Token(LParen, Some("(")) && ts[7] == Token(Number, Some("3")) && ts[8] == Token(Plus, Some("+")) && ts[9] == Token(Number, Some("4")) && ts[10] == Token(RParen, Some(")")) && ts[11] == Token(Eof, None)
    requires ParseFactorAt(ts, 0) == Ok(Parsed(Bin(Num(1.0), "+", Num(2.0)), 5))
    requires ParseTermAt(ts, 7) == Ok(Parsed(Num(3.0), 8))
    requires ParseExpressionLoop(ts, Num(3.0), 8) == Ok(Parsed(Bin(Num(3.0), "+", Num(4.0)), 10))
    ensures ParseTermAt(ts, 0) == Ok(Parsed(Bin(Bin(Num(1.0), "+", Num(2.0)), "*", Bin(Num(3.0), "+", Num(4.0))), 11))
    ensures ParseExpressionLoop(ts, Bin(Bin(Num(1.0), "+", Num(2.0)), "*", Bin(Num(3.0), "+", Num(4.0))), 11) == Ok(Parsed(Bin(Bin(Num(1.0), "+", Num(2.0)), "*", Bin(Num(3.0), "+", Num(4.0))), 11))
  {
    assert ParseExpressionAt(ts, 7) == Ok(Parsed(Bin(Num(3.0), "+", Num(4.0)), 10));
    assert ParseFactorAt(ts, 6) == Ok(Parsed(Bin(Num(3.0), "+", Num(4.0)), 11));
    assert ParseTermLoop(ts, Bin(Bin(Num(1.0), "+", Num(2.0)), "*", Bin(Num(3.0), "+", Num(4.0))), 11) == Ok(Parsed(Bin(Bin(Num(1.0), "+", Num(2.0)), "*", Bin(Num(3.0), "+", Num(4.0))), 11));
    assert ParseTermLoop(ts, Bin(Num(1.0), "+", Num(2.0)), 5) == Ok(Parsed(Bin(Bin(Num(1.0), "+", Num(2.0)), "*", Bin(Num(3.0), "+", Num(4.0))), 11));
  }

  lemma GroupedProductTree4(ts: seq<Token>)
    requires WellFormed(ts) && |ts| == 12 && ts[0] == Token(LParen, Some("(")) && ts[1] == Token(Number, Some("1")) && ts[2] == Token(Plus, Some("+")) && ts[3] == Token(Number, Some("2")) && ts[4] == Token(RParen, Some(")")) && ts[5] == Token(Multiply, Some("*")) && ts[6] == Token(LParen, Some("(")) && ts[7] == Token(Number, Some("3")) && ts[8] == Token(Plus, Some("+")) && ts[9] == Token(Number, Some("4")) && ts[10] == Token(RParen, Some(")")) && ts[11] == Token(Eof, None)
    requires ParseTermAt(ts, 0) == Ok(Parsed(Bin(Bin(Num(1.0), "+", Num(2.0)), "*", Bin(Num(3.0), "+", Num(4.0))), 11))
    requires ParseExpressionLoop(ts, Bin(Bin(Num(1.0), "+", Num(2.0)), "*", Bin(Num(3.0), "+", Num(4.0))), 11) == Ok(Parsed(Bin(Bin(Num(1.0), "+", Num(2.0)), "*", Bin(Num(3.0), "+", Num(4.0))), 11))
    ensures ParseExpressionAt(ts, 0) == Ok(Parsed(Bin(Bin(Num(1.0), "+", Num(2.0)), "*", Bin(Num(3.0), "+", Num(4.0))), 11))
  {
  }

  lemma GroupedProductTree(ts: seq<Token>)
    requires WellFormed(ts) && |ts| == 12 && ts[0] == Token(LParen, Some("(")) && ts[1] == Token(Number, Some("1")) && ts[2] == Token(Plus, Some("+")) && ts[3] == Token(Number, Some("2")) && ts[4] == Token(RParen, Some(")")) && ts[5] == Token(Multiply, Some("*")) && ts[6] == Token(LParen, Some("(")) && ts[7] == Token(Number, Some("3")) && ts[8] == Token(Plus, Some("+")) && ts[9] == Token(Number, Some("4")) && ts[10] == Token(RParen, Some(")")) && ts[11] == Token(Eof, None)
    ensures ParseTokens(ts) == Ok(Bin(Bin(Num(1.0), "+", Num(2.0)), "*", Bin(Num(3.0), "+", Num(4.0))))
  {
    GroupedProductTree0(ts);
    GroupedProductTree1(ts);
    GroupedProductTree2(ts);
    GroupedProductTree3(ts);
    GroupedProductTree4(ts);
  }

  /** `(3 + 2) * 5 - 1`: a parenthesised sum inside a product inside a difference. */
  lemma GroupThenDifference()
    ensures Lex("(3 + 2) * 5 - 1") == Ok([Token(LParen, Some("(")), Token(Number, Some("3")), Token(Plus, Some("+")), Token(Number, Some("2")), Token(RParen, Some(")")), Token(Multiply, Some("*")), Token(Number, Some("5")), Token(Minus, Some("-")), Token(Number, Some("1")), Token(Eof, None)])
    ensures WellFormed([Token(LParen, Some("(")), Token(Number, Some("3")), Token(Plus, Some("+")), Token(Number, Some("2")), Token(RParen, Some(")")), Token(Multiply, Some("*")), Token(Number, Some("5")), Token(Minus, Some("-")), Token(Number, Some("1")), Token(Eof, None)]) && ParseTokens([Token(LParen, Some("(")), Token(Number, Some("3")), Token(Plus, Some("+")), Token(Number, Some("2")), Token(RParen, Some(")")), Token(Multiply, Some("*")), Token(Number, Some("5")), Token(Minus, Some("-")), Token(Number, Some("1")), Token(Eof, None)]) == Ok(Bin(Bin(Bin(Num(3.0), "+", Num(2.0)), "*", Num(5.0)), "-", Num(1.0)))
    ensures Compile("(3 + 2) * 5 - 1") == Ok(24.0)
  {
    var s, ts := "(3 + 2) * 5 - 1", [Token(LParen, Some("(")), Token(Number, Some("3")), Token(Plus, Some("+")), Token(Number, Some("2")), Token(RParen, Some(")")), Token(Multiply, Some("*")), Token(Number, Some("5")), Token(Minus, Some("-")), Token(Number, Some("1")), Token(Eof, None)];
    GroupThenDifferenceTokens(s, ts);
    LexedTokensParse(s);
    GroupThenDifferenceTree(ts);
    GroupThenDifferenceValue();
    CompileFromPhases(s, ts, Bin(Bin(Bin(Num(3.0), "+", Num(2.0)), "*", Num(5.0)), "-", Num(1.0)), Ok(24.0));
  }

  lemma GroupThenDifferenceValue()
    ensures Evaluate(Bin(Bin(Bin(Num(3.0), "+", Num(2.0)), "*", Num(5.0)), "-", Num(1.0))) == Ok(24.0)
  {
  }

  lemma GroupThenDifferenceTokens(s: string, ts: seq<Token>)
    requires |s| == 15 && s[0] == '(' && s[1] == '3' && s[2] == ' ' && s[3] == '+' && s[4] == ' ' && s[5] == '2' && s[6] == ')' && s[7] == ' ' && s[8] == '*' && s[9] == ' ' && s[10] == '5' && s[11] == ' ' && s[12] == '-' && s[13] == ' ' && s[14] == '1'
    requires |ts| == 10 && ts[0] == Token(LParen, Some("(")) && ts[1] == Token(Number, Some("3")) && ts[2] == Token(Plus, Some("+")) && ts[3] == Token(Number, Some("2")) && ts[4] == Token(RParen, Some(")")) && ts[5] == Token(Multiply, Some("*")) && ts[6] == Token(Number, Some("5")) && ts[7] == Token(Minus, Some("-")) && ts[8] == Token(Number, Some("1")) && ts[9] == Token(Eof, None)
    ensures Lex(s) == Ok(ts)
  {
    assert Pairs(s, 15, ts, 9);
    assert Pairs(s, 14, ts, 8);
    assert Pairs(s, 13, ts, 8);
    assert Pairs(s, 12, ts, 7);
    assert Pairs(s, 11, ts, 7);
    assert Pairs(s, 10, ts, 6);
    assert Pairs(s, 9, ts, 6);
    assert Pairs(s, 8, ts, 5);
    assert Pairs(s, 7, ts, 5);
    assert Pairs(s, 6, ts, 4);
    assert Pairs(s, 5, ts, 3);
    assert Pairs(s, 4, ts, 3);
    assert Pairs(s, 3, ts, 2);
    assert Pairs(s, 2, ts, 2);
    assert Pairs(s, 1, ts, 1);
    assert Pairs(s, 0, ts, 0);
    PairsLex(s, ts);
  }

  lemma GroupThenDifferenceTree0(ts: seq<Token>)
    requires WellFormed(ts) && |ts| == 10 && ts[0] == Token(LParen, Some("(")) && ts[1] == Token(Number, Some("3")) && ts[2] == Token(Plus, Some("+")) && ts[3] == Token(Number, Some("2")) && ts[4] == Token(RParen, Some(")")) && ts[5] == Token(Multiply, Some("*")) && ts[6] == Token(Number, Some("5")) && ts[7] == Token(Minus, Some("-")) && ts[8] == Token(Number, Some("1")) && ts[9] == Token(Eof, None)
    ensures ParseTermAt(ts, 1) == Ok(Parsed(Num(3.0), 2))
    ensures ParseTermAt(ts, 3) == Ok(Parsed(Num(2.0), 4))
  {
    assert ParseFactorAt(ts, 1) == Ok(Parsed(Num(3.0), 2));
    assert ParseTermLoop(ts, Num(3.0), 2) == Ok(Parsed(Num(3.0), 2));
    assert ParseFactorAt(ts, 3) == Ok(Parsed(Num(2.0), 4));
    assert ParseTermLoop(ts, Num(2.0), 4) == Ok(Parsed(Num(2.0), 4));
  }

  lemma GroupThenDifferenceTree1(ts: seq<Token>)
    requires WellFormed(ts) && |ts| == 10 && ts[0] == Token(LParen, Some("(")) && ts[1] == Token(Number, Some("3")) && ts[2] == Token(Plus, Some("+")) && ts[3] == Token(Number, Some("2")) && ts[4] == Token(RParen, Some(")")) && ts[5] == Token(Multiply, Some("*")) && ts[6] == Token(Number, Some("5")) && ts[7] == Token(Minus, Some("-")) && ts[8] == Token(Number, Some("1")) && ts[9] == Token(Eof, None)
    requires ParseTermAt(ts, 1) == Ok(Parsed(Num(3.0), 2))
    requires ParseTermAt(ts, 3) == Ok(Parsed(Num(2.0), 4))
    ensures ParseFactorAt(ts, 0) == Ok(Parsed(Bin(Num(3.0), "+", Num(2.0)), 5))
    ensures ParseFactorAt(ts, 6) == Ok(Parsed(Num(5.0), 7))
    ensures ParseTermLoop(ts, Bin(Bin(Num(3.0), "+", Num(2.0)), "*", Num(5.0)), 7) == Ok(Parsed(Bin(Bin(Num(3.0), "+", Num(2.0)), "*", Num(5.0)), 7))
  {
    assert ParseExpressionLoop(ts, Bin(Num(3.0), "+", Num(2.0)), 4) == Ok(Parsed(Bin(Num(3.0), "+", Num(2.0)), 4));
    assert ParseExpressionLoop(ts, Num(3.0), 2) == Ok(Parsed(Bin(Num(3.0), "+", Num(2.0)), 4));
    assert ParseExpressionAt(ts, 1) == Ok(Parsed(Bin(Num(3.0), "+", Num(2.0)), 4));
  }

  lemma GroupThenDifferenceTree2(ts: seq<Token>)
    requires WellFormed(ts) && |ts| == 10 && ts[0] == Token(LParen, Some("(")) && ts[1] == Token(Number, Some("3")) && ts[2] == Token(Plus, Some("+")) && ts[3] == Token(Number, Some("2")) && ts[4] == Token(RParen, Some(")")) && ts[5] == Token(Multiply, Some("*")) && ts[6] == Token(Number, Some("5")) && ts[7] == Token(Minus, Some("-")) && ts[8] == Token(Number, Some("1")) && ts[9] == Token(Eof, None)
    requires ParseFactorAt(ts, 0) == Ok(Parsed(Bin(Num(3.0), "+", Num(2.0)), 5))
    requires ParseFactorAt(ts, 6) == Ok(Parsed(Num(5.0), 7))
    requires ParseTermLoop(ts, Bin(Bin(Num(3.0), "+", Num(2.0)), "*", Num(5.0)), 7) == Ok(Parsed(Bin(Bin(Num(3.0), "+", Num(2.0)), "*", Num(5.0)), 7))
    ensures ParseTermAt(ts, 0) == Ok(Parsed(Bin(Bin(Num(3.0), "+", Num(2.0)), "*", Num(5.0)), 7))
    ensures ParseTermAt(ts, 8) == Ok(Parsed(Num(1.0), 9))
    ensures ParseExpressionLoop(ts, Bin(Bin(Bin(Num(3.0), "+", Num(2.0)), "*", Num(5.0)), "-", Num(1.0)), 9) == Ok(Parsed(Bin(Bin(Bin(Num(3.0), "+", Num(2.0)), "*", Num(5.0)), "-", Num(1.0)), 9))
  {
    assert ParseTermLoop(ts, Bin(Num(3.0), "+", Num(2.0)), 5) == Ok(Parsed(Bin(Bin(Num(3.0), "+", Num(2.0)), "*", Num(5.0)), 7));
    assert ParseFactorAt(ts, 8) == Ok(Parsed(Num(1.0), 9));
    assert ParseTermLoop(ts, Num(1.0), 9) == Ok(Parsed(Num(1.0), 9));
  }

  lemma GroupThenDifferenceTree3(ts: seq<Token>)
    requires WellFormed(ts) && |ts| == 10 && ts[0] == Token(LParen, Some("(")) && ts[1] == Token(Number, Some("3")) && ts[2] == Token(Plus, Some("+")) && ts[3] == Token(Number, Some("2")) && ts[4] == Token(RParen, Some(")")) && ts[5] == Token(Multiply, Some("*")) && ts[6] == Token(Number, Some("5")) && ts[7] == Token(Minus, Some("-")) && ts[8] == Token(Number, Some("1")) && ts[9] == Token(Eof, None)
    requires ParseTermAt(ts, 0) == Ok(Parsed(Bin(Bin(Num(3.0), "+", Num(2.0)), "*", Num(5.0)), 7))
    requires ParseTermAt(ts, 8) == Ok(Parsed(Num(1.0), 9))
    requires ParseExpressionLoop(ts, Bin(Bin(Bin(Num(3.0), "+", Num(2.0)), "*", Num(5.0)), "-", Num(1.0)), 9) == Ok(Parsed(Bin(Bin(Bin(Num(3.0), "+", Num(2.0)), "*", Num(5.0)), "-", Num(1.0)), 9))
    ensures ParseExpressionAt(ts, 0) == Ok(Parsed(Bin(Bin(Bin(Num(3.0), "+", Num(2.0)), "*", Num(5.0)), "-", Num(1.0)), 9))
  {
    assert ParseExpressionLoop(ts, Bin(Bin(Num(3.0), "+", Num(2.0)), "*", Num(5.0)), 7) == Ok(Parsed(Bin(Bin(Bin(Num(3.0), "+", Num(2.0)), "*", Num(5.0)), "-", Num(1.0)), 9));
  }

  lemma GroupThenDifferenceTree(ts: seq<Token>)
    requires WellFormed(ts) && |ts| == 10 && ts[0] == Token(LParen, Some("(")) && ts[1] == Token(Number, Some("3")) && ts[2] == Token(Plus, Some("+")) && ts[3] == Token(Number, Some("2")) && ts[4] == Token(RParen, Some(")")) && ts[5] == Token(Multiply, Some("*")) && ts[6] == Token(Number, Some("5")) && ts[7] == Token(Minus, Some("-")) && ts[8] == Token(Number, Some("1")) && ts[9] == Token(Eof, None)
    ensures ParseTokens(ts) == Ok(Bin(Bin(Bin(Num(3.0), "+", Num(2.0)), "*", Num(5.0)), "-", Num(1.0)))
  {
    GroupThenDifferenceTree0(ts);
    GroupThenDifferenceTree1(ts);
    GroupThenDifferenceTree2(ts);
    GroupThenDifferenceTree3(ts);
  }

  /** `((3))`: nested parentheses add no node. */
  lemma NestedParentheses()
    ensures Lex("((3))") == Ok([Token(LParen, Some("(")), Token(LParen, Some("(")), Token(Number, Some("3")), Token(RParen, Some(")")), Token(RParen, Some(")")), Token(Eof, None)])
    ensures WellFormed([Token(LParen, Some("(")), Token(LParen, Some("(")), Token(Number, Some("3")), Token(RParen, Some(")")), Token(RParen, Some(")")), Token(Eof, None)]) && ParseTokens([Token(LParen, Some("(")), Token(LParen, Some("(")), Token(Number, Some("3")), Token(RParen, Some(")")), Token(RParen, Some(")")), Token(Eof, None)]) == Ok(Num(3.0))
    ensures Compile("((3))") == Ok(3.0)
  {
    var s, ts := "((3))", [Token(LParen, Some("(")), Token(LParen, Some("(")), Token(Number, Some("3")), Token(RParen, Some(")")), Token(RParen, Some(")")), Token(Eof, None)];
    NestedParenthesesTokens(s, ts);
    LexedTokensParse(s);
    NestedParenthesesTree(ts);
    NestedParenthesesValue();
    CompileFromPhases(s, ts, Num(3.0), Ok(3.0));
  }

  lemma NestedParenthesesValue()
    ensures Evaluate(Num(3.0)) == Ok(3.0)
  {
  }

  lemma NestedParenthesesTokens(s: string, ts: seq<Token>)
    requires |s| == 5 && s[0] == '(' && s[1] == '(' && s[2] == '3' && s[3] == ')' && s[4] == ')'
    requires |ts| == 6 && ts[0] == Token(LParen, Some("(")) && ts[1] == Token(LParen, Some("(")) && ts[2] == Token(Number, Some("3")) && ts[3] == Token(RParen, Some(")")) && ts[4] == Token(RParen, Some(")")) && ts[5] == Token(Eof, None)
    ensures Lex(s) == Ok(ts)
  {
    assert Pairs(s, 5, ts, 5);
    assert Pairs(s, 4, ts, 4);
    assert Pairs(s, 3, ts, 3);
    assert Pairs(s, 2, ts, 2);
    assert Pairs(s, 1, ts, 1);
    assert Pairs(s, 0, ts, 0);
    PairsLex(s, ts);
  }

  lemma NestedParenthesesTree0(ts: seq<Token>)
    requires WellFormed(ts) && |ts| == 6 && ts[0] == Token(LParen, Some("(")) && ts[1] == Token(LParen, Some("(")) && ts[2] == Token(Number, Some("3")) && ts[3] == Token(RParen, Some(")")) && ts[4] == Token(RParen, Some(")")) && ts[5] == Token(Eof, None)
    ensures ParseFactorAt(ts, 1) == Ok(Parsed(Num(3.0), 4))
  {
    assert ParseFactorAt(ts, 2) == Ok(Parsed(Num(3.0), 3));
    assert ParseTermLoop(ts, Num(3.0), 3) == Ok(Parsed(Num(3.0), 3));
    assert ParseTermAt(ts, 2) == Ok(Parsed(Num(3.0), 3));
    assert ParseExpressionLoop(ts, Num(3.0), 3) == Ok(Parsed(Num(3.0), 3));
    assert ParseExpressionAt(ts, 2) == Ok(Parsed(Num(3.0), 3));
  }

  lemma NestedParenthesesTree1(ts: seq<Token>)
    requires WellFormed(ts) && |ts| == 6 && ts[0] == Token(LParen, Some("(")) && ts[1] == Token(LParen, Some("(")) && ts[2] == Token(Number, Some("3")) && ts[3] == Token(RParen, Some(")")) && ts[4] == Token(RParen, Some(")")) && ts[5] == Token(Eof, None)
    requires ParseFactorAt(ts, 1) == Ok(Parsed(Num(3.0), 4))
    ensures ParseFactorAt(ts, 0) == Ok(Parsed(Num(3.0), 5))
    ensures ParseTermLoop(ts, Num(3.0), 5) == Ok(Parsed(Num(3.0), 5))
  {
    assert ParseTermLoop(ts, Num(3.0), 4) == Ok(Parsed(Num(3.0), 4));
    assert ParseTermAt(ts, 1) == Ok(Parsed(Num(3.0), 4));
    assert ParseExpressionLoop(ts, Num(3.0), 4) == Ok(Parsed(Num(3.0), 4));
    assert ParseExpressionAt(ts, 1) == Ok(Parsed(Num(3.0), 4));
  }

  lemma NestedParenthesesTree2(ts: seq<Token>)
    requires WellFormed(ts) && |ts| == 6 && ts[0] == Token(LParen, Some("(")) && ts[1] == Token(LParen, Some("(")) && ts[2] == Token(Number, Some("3")) && ts[3] == Token(RParen, Some(")")) && ts[4] == Token(RParen, Some(")")) && ts[5] == Token(Eof, None)
    requires ParseFactorAt(ts, 0) == Ok(Parsed(Num(3.0), 5))
    requires ParseTermLoop(ts, Num(3.0), 5) == Ok(Parsed(Num(3.0), 5))
    ensures ParseExpressionAt(ts, 0) == Ok(Parsed(Num(3.0), 5))
  {
    assert ParseTermAt(ts, 0) == Ok(Parsed(Num(3.0), 5));
    assert ParseExpressionLoop(ts, Num(3.0), 5) == Ok(Parsed(Num(3.0), 5));
  }

  lemma NestedParenthesesTree(ts: seq<Token>)
    requires WellFormed(ts) && |ts| == 6 && ts[0] == Token(LParen, Some("(")) && ts[1] == Token(LParen, Some("(")) && ts[2] == Token(Number, Some("3")) && ts[3] == Token(RParen, Some(")")) && ts[4] == Token(RParen, Some(")")) && ts[5] == Token(Eof, None)
    ensures ParseTokens(ts) == Ok(Num(3.0))
  {
    NestedParenthesesTree0(ts);
    NestedParenthesesTree1(ts);
    NestedParenthesesTree2(ts);
  }

  /** `-3`: a unary minus. */
  lemma Negation()
    ensures Lex("-3") == Ok([Token(Minus, Some("-")), Token(Number, Some("3")), Token(Eof, None)])
    ensures WellFormed([Token(Minus, Some("-")), Token(Number, Some("3")), Token(Eof, None)]) && ParseTokens([Token(Minus, Some("-")), Token(Number, Some("3")), Token(Eof, None)]) == Ok(Un("-", Num(3.0)))
    ensures Compile("-3") == Ok(-3.0)
  {
    var s, ts := "-3", [Token(Minus, Some("-")), Token(Number, Some("3")), Token(Eof, None)];
    NegationTokens(s, ts);
    LexedTokensParse(s);
    NegationTree(ts);
    NegationValue();
    CompileFromPhases(s, ts, Un("-", Num(3.0)), Ok(-3.0));
  }

  lemma NegationValue()
    ensures Evaluate(Un("-", Num(3.0))) == Ok(-3.0)
  {
  }

  lemma NegationTokens(s: string, ts: seq<Token>)
    requires |s| == 2 && s[0] == '-' && s[1] == '3'
    requires |ts| == 3 && ts[0] == Token(Minus, Some("-")) && ts[1] == Token(Number, Some("3")) && ts[2] == Token(Eof, None)
    ensures Lex(s) == Ok(ts)
  {
    assert Pairs(s, 2, ts, 2);
    assert Pairs(s, 1, ts, 1);
    assert Pairs(s, 0, ts, 0);
    PairsLex(s, ts);
  }

  lemma NegationTree0(ts: seq<Token>)
    requires WellFormed(ts) && |ts| == 3 && ts[0] == Token(Minus, Some("-")) && ts[1] == Token(Number, Some("3")) && ts[2] == Token(Eof, None)
    ensures ParseExpressionAt(ts, 0) == Ok(Parsed(Un("-", Num(3.0)), 2))
  {
    assert ParseFactorAt(ts, 1) == Ok(Parsed(Num(3.0), 2));
    assert ParseFactorAt(ts, 0) == Ok(Parsed(Un("-", Num(3.0)), 2));
    assert ParseTermLoop(ts, Un("-", Num(3.0)), 2) == Ok(Parsed(Un("-", Num(3.0)), 2));
    assert ParseTermAt(ts, 0) == Ok(Parsed(Un("-", Num(3.0)), 2));
    assert ParseExpressionLoop(ts, Un("-", Num(3.0)), 2) == Ok(Parsed(Un("-", Num(3.0)), 2));
  }

  lemma NegationTree(ts: seq<Token>)
    requires WellFormed(ts) && |ts| == 3 && ts[0] == Token(Minus, Some("-")) && ts[1] == Token(Number, Some("3")) && ts[2] == Token(Eof, None)
    ensures ParseTokens(ts) == Ok(Un("-", Num(3.0)))
  {
    NegationTree0(ts);
  }

  /** `-5 + 3`: a unary minus binds tighter than a binary operator. */
  lemma NegationThenSum()
    ensures Lex("-5 + 3") == Ok([Token(Minus, Some("-")), Token(Number, Some("5")), Token(Plus, Some("+")), Token(Number, Some("3")), Token(Eof, None)])
    ensures WellFormed([Token(Minus, Some("-")), Token(Number, Some("5")), Token(Plus, Some("+")), Token(Number, Some("3")), Token(Eof, None)]) && ParseTokens([Token(Minus, Some("-")), Token(Number, Some("5")), Token(Plus, Some("+")), Token(Number, Some("3")), Token(Eof, None)]) == Ok(Bin(Un("-", Num(5.0)), "+", Num(3.0)))
    ensures Compile("-5 + 3") == Ok(-2.0)
  {
    var s, ts := "-5 + 3", [Token(Minus, Some("-")), Token(Number, Some("5")), Token(Plus, Some("+")), Token(Number, Some("3")), Token(Eof, None)];
    NegationThenSumTokens(s, ts);
    LexedTokensParse(s);
    NegationThenSumTree(ts);
    NegationThenSumValue();
    CompileFromPhases(s, ts, Bin(Un("-", Num(5.0)), "+", Num(3.0)), Ok(-2.0));
  }

  lemma NegationThenSumValue()
    ensures Evaluate(Bin(Un("-", Num(5.0)), "+", Num(3.0))) == Ok(-2.0)
  {
  }

  lemma NegationThenSumTokens(s: string, ts: seq<Token>)
    requires |s| == 6 && s[0] == '-' && s[1] == '5' && s[2] == ' ' && s[3] == '+' && s[4] == ' ' && s[5] == '3'
    requires |ts| == 5 && ts[0] == Token(Minus, Some("-")) && ts[1] == Token(Number, Some("5")) && ts[2] == Token(Plus, Some("+")) && ts[3] == Token(Number, Some("3")) && ts[4] == Token(Eof, None)
    ensures Lex(s) == Ok(ts)
  {
    assert Pairs(s, 6, ts, 4);
    assert Pairs(s, 5, ts, 3);
    assert Pairs(s, 4, ts, 3);
    assert Pairs(s, 3, ts, 2);
    assert Pairs(s, 2, ts, 2);
    assert Pairs(s, 1, ts, 1);
    assert Pairs(s, 0, ts, 0);
    PairsLex(s, ts);
  }

  lemma NegationThenSumTree0(ts: seq<Token>)
    requires WellFormed(ts) && |ts| == 5 && ts[0] == Token(Minus, Some("-")) && ts[1] == Token(Number, Some("5")) && ts[2] == Token(Plus, Some("+")) && ts[3] == Token(Number, Some("3")) && ts[4] == Token(Eof, None)
    ensures ParseTermAt(ts, 0) == Ok(Parsed(Un("-", Num(5.0)), 2))
    ensures ParseFactorAt(ts, 3) == Ok(Parsed(Num(3.0), 4))
    ensures ParseTermLoop(ts, Num(3.0), 4) == Ok(Parsed(Num(3.0), 4))
  {
    assert ParseFactorAt(ts, 1) == Ok(Parsed(Num(5.0), 2));
    assert ParseFactorAt(ts, 0) == Ok(Parsed(Un("-", Num(5.0)), 2));
    assert ParseTermLoop(ts, Un("-", Num(5.0)), 2) == Ok(Parsed(Un("-", Num(5.0)), 2));
  }

  lemma NegationThenSumTree1(ts: seq<Token>)
    requires WellFormed(ts) && |ts| == 5 && ts[0] == Token(Minus, Some("-")) && ts[1] == Token(Number, Some("5")) && ts[2] == Token(Plus, Some("+")) && ts[3] == Token(Number, Some("3")) && ts[4] == Token(Eof, None)
    requires ParseTermAt(ts, 0) == Ok(Parsed(Un("-", Num(5.0)), 2))
    requires ParseFactorAt(ts, 3) == Ok(Parsed(Num(3.0), 4))
    requires ParseTermLoop(ts, Num(3.0), 4) == Ok(Parsed(Num(3.0), 4))
    ensures ParseExpressionAt(ts, 0) == Ok(Parsed(Bin(Un("-", Num(5.0)), "+", Num(3.0)), 4))
  {
    assert ParseTermAt(ts, 3) == Ok(Parsed(Num(3.0), 4));
    assert ParseExpressionLoop(ts, Bin(Un("-", Num(5.0)), "+", Num(3.0)), 4) == Ok(Parsed(Bin(Un("-", Num(5.0)), "+", Num(3.0)), 4));
    assert ParseExpressionLoop(ts, Un("-", Num(5.0)), 2) == Ok(Parsed(Bin(Un("-", Num(5.0)), "+", Num(3.0)), 4));
  }

  lemma NegationThenSumTree(ts: seq<Token>)
    requires WellFormed(ts) && |ts| == 5 && ts[0] == Token(Minus, Some("-")) && ts[1] == Token(Number, Some("5")) && ts[2] == Token(Plus, Some("+")) && ts[3] == Token(Number, Some("3")) && ts[4] == Token(Eof, None)
    ensures ParseTokens(ts) == Ok(Bin(Un("-", Num(5.0)), "+", Num(3.0)))
  {
    NegationThenSumTree0(ts);
    NegationThenSumTree1(ts);
  }

  /** `-(5 + 3) * 2`: a unary minus applies to the factor after it, here a group. */
  lemma NegatedGroup()
    ensures Lex("-(5 + 3) * 2") == Ok([Token(Minus, Some("-")), Token(LParen, Some("(")), Token(Number, Some("5")), Token(Plus, Some("+")), Token(Number, Some("3")), Token(RParen, Some(")")), Token(Multiply, Some("*")), Token(Number, Some("2")), Token(Eof, None)])
    ensures WellFormed([Token(Minus, Some("-")), Token(LParen, Some("(")), Token(Number, Some("5")), Token(Plus, Some("+")), Token(Number, Some("3")), Token(RParen, Some(")")), Token(Multiply, Some("*")), Token(Number, Some("2")), Token(Eof, None)]) && ParseTokens([Token(Minus, Some("-")), Token(LParen, Some("(")), Token(Number, Some("5")), Token(Plus, Some("+")), Token(Number, Some("3")), Token(RParen, Some(")")), Token(Multiply, Some("*")), Token(Number, Some("2")), Token(Eof, None)]) == Ok(Bin(Un("-", Bin(Num(5.0), "+", Num(3.0))), "*", Num(2.0)))
    ensures Compile("-(5 + 3) * 2") == Ok(-16.0)
  {
    var s, ts := "-(5 + 3) * 2", [Token(Minus, Some("-")), Token(LParen, Some("(")), Token(Number, Some("5")), Token(Plus, Some("+")), Token(Number, Some("3")), Token(RParen, Some(")")), Token(Multiply, Some("*")), Token(Number, Some("2")), Token(Eof, None)];
    NegatedGroupTokens(s, ts);
    LexedTokensParse(s);
    NegatedGroupTree(ts);
    NegatedGroupValue();
    CompileFromPhases(s, ts, Bin(Un("-", Bin(Num(5.0), "+", Num(3.0))), "*", Num(2.0)), Ok(-16.0));
  }

  lemma NegatedGroupValue()
    ensures Evaluate(Bin(Un("-", Bin(Num(5.0), "+", Num(3.0))), "*", Num(2.0))) == Ok(-16.0)
  {
  }

  lemma NegatedGroupTokens(s: string, ts: seq<Token>)
    requires |s| == 12 && s[0] == '-' && s[1] == '(' && s[2] == '5' && s[3] == ' ' && s[4] == '+' && s[5] == ' ' && s[6] == '3' && s[7] == ')' && s[8] == ' ' && s[9] == '*' && s[10] == ' ' && s[11] == '2'
    requires |ts| == 9 && ts[0] == Token(Minus, Some("-")) && ts[1] == Token(LParen, Some("(")) && ts[2] == Token(Number, Some("5")) && ts[3] == Token(Plus, Some("+")) && ts[4] == Token(Number, Some("3")) && ts[5] == Token(RParen, Some(")")) && ts[6] == Token(Multiply, Some("*")) && ts[7] == Token(Number, Some("2")) && ts[8] == Token(Eof, None)
    ensures Lex(s) == Ok(ts)
  {
    assert Pairs(s, 12, ts, 8);
    assert Pairs(s, 11, ts, 7);
    assert Pairs(s, 10, ts, 7);
    assert Pairs(s, 9, ts, 6);
    assert Pairs(s, 8, ts, 6);
    assert Pairs(s, 7, ts, 5);
    assert Pairs(s, 6, ts, 4);
    assert Pairs(s, 5, ts, 4);
    assert Pairs(s, 4, ts, 3);
    assert Pairs(s, 3, ts, 3);
    assert Pairs(s, 2, ts, 2);
    assert Pairs(s, 1, ts, 1);
    assert Pairs(s, 0, ts, 0);
    PairsLex(s, ts);
  }

  lemma NegatedGroupTree0(ts: seq<Token>)
    requires WellFormed(ts) && |ts| == 9 && ts[0] == Token(Minus, Some("-")) && ts[1] == Token(LParen, Some("(")) && ts[2] == Token(Number, Some("5")) && ts[3] == Token(Plus, Some("+")) && ts[4] == Token(Number, Some("3")) && ts[5] == Token(RParen, Some(")")) && ts[6] == Token(Multiply, Some("*")) && ts[7] == Token(Number, Some("2")) && ts[8] == Token(Eof, None)
    ensures ParseTermAt(ts, 2) == Ok(Parsed(Num(5.0), 3))
    ensures ParseTermAt(ts, 4) == Ok(Parsed(Num(3.0), 5))
  {
    assert ParseFactorAt(ts, 2) == Ok(Parsed(Num(5.0), 3));
    assert ParseTermLoop(ts, Num(5.0), 3) == Ok(Parsed(Num(5.0), 3));
    assert ParseFactorAt(ts, 4) == Ok(Parsed(Num(3.0), 5));
    assert ParseTermLoop(ts, Num(3.0), 5) == Ok(Parsed(Num(3.0), 5));
  }

  lemma NegatedGroupTree1(ts: seq<Token>)
    requires WellFormed(ts) && |ts| == 9 && ts[0] == Token(Minus, Some("-")) && ts[1] == Token(LParen, Some("(")) && ts[2] == Token(Number, Some("5")) && ts[3] == Token(Plus, Some("+")) && ts[4] == Token(Number, Some("3")) && ts[5] == Token(RParen, Some(")")) && ts[6] == Token(Multiply, Some("*")) && ts[7] == Token(Number, Some("2")) && ts[8] == Token(Eof, None)
    requires ParseTermAt(ts, 2) == Ok(Parsed(Num(5.0), 3))
    requires ParseTermAt(ts, 4) == Ok(Parsed(Num(3.0), 5))
    ensures ParseFactorAt(ts, 0) == Ok(Parsed(Un("-", Bin(Num(5.0), "+", Num(3.0))), 6))
    ensures ParseFactorAt(ts, 7) == Ok(Parsed(Num(2.0), 8))
  {
    assert ParseExpressionLoop(ts, Bin(Num(5.0), "+", Num(3.0)), 5) == Ok(Parsed(Bin(Num(5.0), "+", Num(3.0)), 5));
    assert ParseExpressionLoop(ts, Num(5.0), 3) == Ok(Parsed(Bin(Num(5.0), "+", Num(3.0)), 5));
    assert ParseExpressionAt(ts, 2) == Ok(Parsed(Bin(Num(5.0), "+", Num(3.0)), 5));
    assert ParseFactorAt(ts, 1) == Ok(Parsed(Bin(Num(5.0), "+", Num(3.0)), 6));
  }

  lemma NegatedGroupTree2(ts: seq<Token>)
    requires WellFormed(ts) && |ts| == 9 && ts[0] == Token(Minus, Some("-")) && ts[1] == Token(LParen, Some("(")) && ts[2] == Token(Number, Some("5")) && ts[3] == Token(Plus, Some("+")) && ts[4] == Token(Number, Some("3")) && ts[5] == Token(RParen, Some(")")) && ts[6] == Token(Multiply, Some("*")) && ts[7] == Token(Number, Some("2")) && ts[8] == Token(Eof, None)
    requires ParseFactorAt(ts, 0) == Ok(Parsed(Un("-", Bin(Num(5.0), "+", Num(3.0))), 6))
    requires ParseFactorAt(ts, 7) == Ok(Parsed(Num(2.0), 8))
    ensures ParseExpressionAt(ts, 0) == Ok(Parsed(Bin(Un("-", Bin(Num(5.0), "+", Num(3.0))), "*", Num(2.0)), 8))
  {
    assert ParseTermLoop(ts, Bin(Un("-", Bin(Num(5.0), "+", Num(3.0))), "*", Num(2.0)), 8) == Ok(Parsed(Bin(Un("-", Bin(Num(5.0), "+", Num(3.0))), "*", Num(2.0)), 8));
    assert ParseTermLoop(ts, Un("-", Bin(Num(5.0), "+", Num(3.0))), 6) == Ok(Parsed(Bin(Un("-", Bin(Num(5.0), "+", Num(3.0))), "*", Num(2.0)), 8));
    assert ParseTermAt(ts, 0) == Ok(Parsed(Bin(Un("-", Bin(Num(5.0), "+", Num(3.0))), "*", Num(2.0)), 8));
    assert ParseExpressionLoop(ts, Bin(Un("-", Bin(Num(5.0), "+", Num(3.0))), "*", Num(2.0)), 8) == Ok(Parsed(Bin(Un("-", Bin(Num(5.0), "+", Num(3.0))), "*", Num(2.0)), 8));
  }

  lemma NegatedGroupTree(ts: seq<Token>)
    requires WellFormed(ts) && |ts| == 9 && ts[0] == Token(Minus, Some("-")) && ts[1] == Token(LParen, Some("(")) && ts[2] == Token(Number, Some("5")) && ts[3] == Token(Plus, Some("+")) && ts[4] == Token(Number, Some("3")) && ts[5] == Token(RParen, Some(")")) && ts[6] == Token(Multiply, Some("*")) && ts[7] == Token(Number, Some("2")) && ts[8] == Token(Eof, None)
    ensures ParseTokens(ts) == Ok(Bin(Un("-", Bin(Num(5.0), "+", Num(3.0))), "*", Num(2.0)))
  {
    NegatedGroupTree0(ts);
    NegatedGroupTree1(ts);
    NegatedGroupTree2(ts);
  }

  /** `3 + * 5`: a binary operator where a factor must start. */
  lemma ConsecutiveOperators()
    ensures Lex("3 + * 5") == Ok([Token(Number, Some("3")), Token(Plus, Some("+")), Token(Multiply, Some("*")), Token(Number, Some("5")), Token(Eof, None)])
    ensures WellFormed([Token(Number, Some("3")), Token(Plus, Some("+")), Token(Multiply, Some("*")), Token(Number, Some("5")), Token(Eof, None)]) && ParseTokens([Token(Number, Some("3")), Token(Plus, Some("+")), Token(Multiply, Some("*")), Token(Number, Some("5")), Token(Eof, None)]) == Err(UnexpectedToken(Token(Multiply, Some("*"))))
    ensures Compile("3 + * 5") == Err(SyntaxError(UnexpectedToken(Token(Multiply, Some("*")))))
  {
    var s, ts := "3 + * 5", [Token(Number, Some("3")), Token(Plus, Some("+")), Token(Multiply, Some("*")), Token(Number, Some("5")), Token(Eof, None)];
    ConsecutiveOperatorsTokens(s, ts);
    LexedTokensParse(s);
    ConsecutiveOperatorsTree(ts);
    CompileRejects(s, ts, UnexpectedToken(Token(Multiply, Some("*"))));
  }

  lemma ConsecutiveOperatorsTokens(s: string, ts: seq<Token>)
    requires |s| == 7 && s[0] == '3' && s[1] == ' ' && s[2] == '+' && s[3] == ' ' && s[4] == '*' && s[5] == ' ' && s[6] == '5'
    requires |ts| == 5 && ts[0] == Token(Number, Some("3")) && ts[1] == Token(Plus, Some("+")) && ts[2] == Token(Multiply, Some("*")) && ts[3] == Token(Number, Some("5")) && ts[4] == Token(Eof, None)
    ensures Lex(s) == Ok(ts)
  {
    assert Pairs(s, 7, ts, 4);
    assert Pairs(s, 6, ts, 3);
    assert Pairs(s, 5, ts, 3);
    assert Pairs(s, 4, ts, 2);
    assert Pairs(s, 3, ts, 2);
    assert Pairs(s, 2, ts, 1);
    assert Pairs(s, 1, ts, 1);
    assert Pairs(s, 0, ts, 0);
    PairsLex(s, ts);
  }

  lemma ConsecutiveOperatorsTree0(ts: seq<Token>)
    requires WellFormed(ts) && |ts| == 5 && ts[0] == Token(Number, Some("3")) && ts[1] == Token(Plus, Some("+")) && ts[2] == Token(Multiply, Some("*")) && ts[3] == Token(Number, Some("5")) && ts[4] == Token(Eof, None)
    ensures ParseTermAt(ts, 0) == Ok(Parsed(Num(3.0), 1))
    ensures ParseExpressionLoop(ts, Num(3.0), 1) == Err(UnexpectedToken(Token(Multiply, Some("*"))))
  {
    assert ParseFactorAt(ts, 0) == Ok(Parsed(Num(3.0), 1));
    assert ParseTermLoop(ts, Num(3.0), 1) == Ok(Parsed(Num(3.0), 1));
    assert ParseFactorAt(ts, 2) == Err(UnexpectedToken(Token(Multiply, Some("*"))));
    assert ParseTermAt(ts, 2) == Err(UnexpectedToken(Token(Multiply, Some("*"))));
  }

  lemma ConsecutiveOperatorsTree1(ts: seq<Token>)
    requires WellFormed(ts) && |ts| == 5 && ts[0] == Token(Number, Some("3")) && ts[1] == Token(Plus, Some("+")) && ts[2] == Token(Multiply, Some("*")) && ts[3] == Token(Number, Some("5")) && ts[4] == Token(Eof, None)
    requires ParseTermAt(ts, 0) == Ok(Parsed(Num(3.0), 1))
    requires ParseExpressionLoop(ts, Num(3.0), 1) == Err(UnexpectedToken(Token(Multiply, Some("*"))))
    ensures ParseExpressionAt(ts, 0) == Err(UnexpectedToken(Token(Multiply, Some("*"))))
  {
  }

  lemma ConsecutiveOperatorsTree(ts: seq<Token>)
    requires WellFormed(ts) && |ts| == 5 && ts[0] == Token(Number, Some("3")) && ts[1] == Token(Plus, Some("+")) && ts[2] == Token(Multiply, Some("*")) && ts[3] == Token(Number, Some("5")) && ts[4] == Token(Eof, None)
    ensures ParseTokens(ts) == Err(UnexpectedToken(Token(Multiply, Some("*"))))
  {
    ConsecutiveOperatorsTree0(ts);
    ConsecutiveOperatorsTree1(ts);
  }

  /** `()`: parentheses with no expression between them. */
  lemma EmptyParentheses()
    ensures Lex("()") == Ok([Token(LParen, Some("(")), Token(RParen, Some(")")), Token(Eof, None)])
    ensures WellFormed([Token(LParen, Some("(")), Token(RParen, Some(")")), Token(Eof, None)]) && ParseTokens([Token(LParen, Some("(")), Token(RParen, Some(")")), Token(Eof, None)]) == Err(UnexpectedToken(Token(RParen, Some(")"))))
    ensures Compile("()") == Err(SyntaxError(UnexpectedToken(Token(RParen, Some(")")))))
  {
    var s, ts := "()", [Token(LParen, Some("(")), Token(RParen, Some(")")), Token(Eof, None)];
    EmptyParenthesesTokens(s, ts);
    LexedTokensParse(s);
    EmptyParenthesesTree(ts);
    CompileRejects(s, ts, UnexpectedToken(Token(RParen, Some(")"))));
  }

  lemma EmptyParenthesesTokens(s: string, ts: seq<Token>)
    requires |s| == 2 && s[0] == '(' && s[1] == ')'
    requires |ts| == 3 && ts[0] == Token(LParen, Some("(")) && ts[1] == Token(RParen, Some(")")) && ts[2] == Token(Eof, None)
    ensures Lex(s) == Ok(ts)
  {
    assert Pairs(s, 2, ts, 2);
    assert Pairs(s, 1, ts, 1);
    assert Pairs(s, 0, ts, 0);
    PairsLex(s, ts);
  }

  lemma EmptyParenthesesTree0(ts: seq<Token>)
    requires WellFormed(ts) && |ts| == 3 && ts[0] == Token(LParen, Some("(")) && ts[1] == Token(RParen, Some(")")) && ts[2] == Token(Eof, None)
    ensures ParseExpressionAt(ts, 0) == Err(UnexpectedToken(Token(RParen, Some(")"))))
  {
    assert ParseFactorAt(ts, 1) == Err(UnexpectedToken(Token(RParen, Some(")"))));
    assert ParseTermAt(ts, 1) == Err(UnexpectedToken(Token(RParen, Some(")"))));
    assert ParseExpressionAt(ts, 1) == Err(UnexpectedToken(Token(RParen, Some(")"))));
    assert ParseFactorAt(ts, 0) == Err(UnexpectedToken(Token(RParen, Some(")"))));
    assert ParseTermAt(ts, 0) == Err(UnexpectedToken(Token(RParen, Some(")"))));
  }

  lemma EmptyParenthesesTree(ts: seq<Token>)
    requires WellFormed(ts) && |ts| == 3 && ts[0] == Token(LParen, Some("(")) && ts[1] == Token(RParen, Some(")")) && ts[2] == Token(Eof, None)
    ensures ParseTokens(ts) == Err(UnexpectedToken(Token(RParen, Some(")"))))
  {
    EmptyParenthesesTree0(ts);
  }

  /** `3 + (4 - )`: a group whose last operand is missing. */
  lemma IncompleteGroup()
    ensures Lex("3 + (4 - )") == Ok([Token(Number, Some("3")), Token(Plus, Some("+")), Token(LParen, Some("(")), Token(Number, Some("4")), Token(Minus, Some("-")), Token(RParen, Some(")")), Token(Eof, None)])
    ensures WellFormed([Token(Number, Some("3")), Token(Plus, Some("+")), Token(LParen, Some("(")), Token(Number, Some("4")), Token(Minus, Some("-")), Token(RParen, Some(")")), Token(Eof, None)]) && ParseTokens([Token(Number, Some("3")), Token(Plus, Some("+")), Token(LParen, Some("(")), Token(Number, Some("4")), Token(Minus, Some("-")), Token(RParen, Some(")")), Token(Eof, None)]) == Err(UnexpectedToken(Token(RParen, Some(")"))))
    ensures Compile("3 + (4 - )") == Err(SyntaxError(UnexpectedToken(Token(RParen, Some(")")))))
  {
    var s, ts := "3 + (4 - )", [Token(Number, Some("3")), Token(Plus, Some("+")), Token(LParen, Some("(")), Token(Number, Some("4")), Token(Minus, Some("-")), Token(RParen, Some(")")), Token(Eof, None)];
    IncompleteGroupTokens(s, ts);
    LexedTokensParse(s);
    IncompleteGroupTree(ts);
    CompileRejects(s, ts, UnexpectedToken(Token(RParen, Some(")"))));
  }

  lemma IncompleteGroupTokens(s: string, ts: seq<Token>)
    requires |s| == 10 && s[0] == '3' && s[1] == ' ' && s[2] == '+' && s[3] == ' ' && s[4] == '(' && s[5] == '4' && s[6] == ' ' && s[7] == '-' && s[8] == ' ' && s[9] == ')'
    requires |ts| == 7 && ts[0] == Token(Number, Some("3")) && ts[1] == Token(Plus, Some("+")) && ts[2] == Token(LParen, Some("(")) && ts[3] == Token(Number, Some("4")) && ts[4] == Token(Minus, Some("-")) && ts[5] == Token(RParen, Some(")")) && ts[6] == Token(Eof, None)
    ensures Lex(s) == Ok(ts)
  {
    assert Pairs(s, 10, ts, 6);
    assert Pairs(s, 9, ts, 5);
    assert Pairs(s, 8, ts, 5);
    assert Pairs(s, 7, ts, 4);
    assert Pairs(s, 6, ts, 4);
    assert Pairs(s, 5, ts, 3);
    assert Pairs(s, 4, ts, 2);
    assert Pairs(s, 3, ts, 2);
    assert Pairs(s, 2, ts, 1);
    assert Pairs(s, 1, ts, 1);
    assert Pairs(s, 0, ts, 0);
    PairsLex(s, ts);
  }

  lemma IncompleteGroupTree0(ts: seq<Token>)
    requires WellFormed(ts) && |ts| == 7 && ts[0] == Token(Number, Some("3")) && ts[1] == Token(Plus, Some("+")) && ts[2] == Token(LParen, Some("(")) && ts[3] == Token(Number, Some("4")) && ts[4] == Token(Minus, Some("-")) && ts[5] == Token(RParen, Some(")")) && ts[6] == Token(Eof, None)
    ensures ParseTermAt(ts, 0) == Ok(Parsed(Num(3.0), 1))
    ensures ParseTermAt(ts, 3) == Ok(Parsed(Num(4.0), 4))
  {
    assert ParseFactorAt(ts, 0) == Ok(Parsed(Num(3.0), 1));
    assert ParseTermLoop(ts, Num(3.0), 1) == Ok(Parsed(Num(3.0), 1));
    assert ParseFactorAt(ts, 3) == Ok(Parsed(Num(4.0), 4));
    assert ParseTermLoop(ts, Num(4.0), 4) == Ok(Parsed(Num(4.0), 4));
  }

  lemma IncompleteGroupTree1(ts: seq<Token>)
    requires WellFormed(ts) && |ts| == 7 && ts[0] == Token(Number, Some("3")) && ts[1] == Token(Plus, Some("+")) && ts[2] == Token(LParen, Some("(")) && ts[3] == Token(Number, Some("4")) && ts[4] == Token(Minus, Some("-")) && ts[5] == Token(RParen, Some(")")) && ts[6] == Token(Eof, None)
    requires ParseTermAt(ts, 3) == Ok(Parsed(Num(4.0), 4))
    ensures ParseTermAt(ts, 2) == Err(UnexpectedToken(Token(RParen, Some(")"))))
  {
    assert ParseFactorAt(ts, 5) == Err(UnexpectedToken(Token(RParen, Some(")"))));
    assert ParseTermAt(ts, 5) == Err(UnexpectedToken(Token(RParen, Some(")"))));
    assert ParseExpressionLoop(ts, Num(4.0), 4) == Err(UnexpectedToken(Token(RParen, Some(")"))));
    assert ParseExpressionAt(ts, 3) == Err(UnexpectedToken(Token(RParen, Some(")"))));
    assert ParseFactorAt(ts, 2) == Err(UnexpectedToken(Token(RParen, Some(")"))));
  }

  lemma IncompleteGroupTree2(ts: seq<Token>)
    requires WellFormed(ts) && |ts| == 7 && ts[0] == Token(Number, Some("3")) && ts[1] == Token(Plus, Some("+")) && ts[2] == Token(LParen, Some("(")) && ts[3] == Token(Number, Some("4")) && ts[4] == Token(Minus, Some("-")) && ts[5] == Token(RParen, Some(")")) && ts[6] == Token(Eof, None)
    requires ParseTermAt(ts, 0) == Ok(Parsed(Num(3.0), 1))
    requires ParseTermAt(ts, 2) == Err(UnexpectedToken(Token(RParen, Some(")"))))
    ensures ParseExpressionAt(ts, 0) == Err(UnexpectedToken(Token(RParen, Some(")"))))
  {
    assert ParseExpressionLoop(ts, Num(3.0), 1) == Err(UnexpectedToken(Token(RParen, Some(")"))));
  }

  lemma IncompleteGroupTree(ts: seq<Token>)
    requires WellFormed(ts) && |ts| == 7 && ts[0] == Token(Number, Some("3")) && ts[1] == Token(Plus, Some("+")) && ts[2] == Token(LParen, Some("(")) && ts[3] == Token(Number, Some("4")) && ts[4] == Token(Minus, Some("-")) && ts[5] == Token(RParen, Some(")")) && ts[6] == Token(Eof, None)
    ensures ParseTokens(ts) == Err(UnexpectedToken(Token(RParen, Some(")"))))
  {
    IncompleteGroupTree0(ts);
    IncompleteGroupTree1(ts);
    IncompleteGroupTree2(ts);
  }

  /** `(3 + 4`: a group that is never closed. */
  lemma UnclosedGroup()
    ensures Lex("(3 + 4") == Ok([Token(LParen, Some("(")), Token(Number, Some("3")), Token(Plus, Some("+")), Token(Number, Some("4")), Token(Eof, None)])
    ensures WellFormed([Token(LParen, Some("(")), Token(Number, Some("3")), Token(Plus, Some("+")), Token(Number, Some("4")), Token(Eof, None)]) && ParseTokens([Token(LParen, Some("(")), Token(Number, Some("3")), Token(Plus, Some("+")), Token(Number, Some("4")), Token(Eof, None)]) == Err(MissingClosingParen)
    ensures Compile("(3 + 4") == Err(SyntaxError(MissingClosingParen))
  {
    var s, ts := "(3 + 4", [Token(LParen, Some("(")), Token(Number, Some("3")), Token(Plus, Some("+")), Token(Number, Some("4")), Token(Eof, None)];
    UnclosedGroupTokens(s, ts);
    LexedTokensParse(s);
    UnclosedGroupTree(ts);
    CompileRejects(s, ts, MissingClosingParen);
  }

  lemma UnclosedGroupTokens(s: string, ts: seq<Token>)
    requires |s| == 6 && s[0] == '(' && s[1] == '3' && s[2] == ' ' && s[3] == '+' && s[4] == ' ' && s[5] == '4'
    requires |ts| == 5 && ts[0] == Token(LParen, Some("(")) && ts[1] == Token(Number, Some("3")) && ts[2] == Token(Plus, Some("+")) && ts[3] == Token(Number, Some("4")) && ts[4] == Token(Eof, None)
    ensures Lex(s) == Ok(ts)
  {
    assert Pairs(s, 6, ts, 4);
    assert Pairs(s, 5, ts, 3);
    assert Pairs(s, 4, ts, 3);
    assert Pairs(s, 3, ts, 2);
    assert Pairs(s, 2, ts, 2);
    assert Pairs(s, 1, ts, 1);
    assert Pairs(s, 0, ts, 0);
    PairsLex(s, ts);
  }

  lemma UnclosedGroupTree0(ts: seq<Token>)
    requires WellFormed(ts) && |ts| == 5 && ts[0] == Token(LParen, Some("(")) && ts[1] == Token(Number, Some("3")) && ts[2] == Token(Plus, Some("+")) && ts[3] == Token(Number, Some("4")) && ts[4] == Token(Eof, None)
    ensures ParseTermAt(ts, 1) == Ok(Parsed(Num(3.0), 2))
    ensures ParseTermAt(ts, 3) == Ok(Parsed(Num(4.0), 4))
  {
    assert ParseFactorAt(ts, 1) == Ok(Parsed(Num(3.0), 2));
    assert ParseTermLoop(ts, Num(3.0), 2) == Ok(Parsed(Num(3.0), 2));
    assert ParseFactorAt(ts, 3) == Ok(Parsed(Num(4.0), 4));
    assert ParseTermLoop(ts, Num(4.0), 4) == Ok(Parsed(Num(4.0), 4));
  }

  lemma UnclosedGroupTree1(ts: seq<Token>)
    requires WellFormed(ts) && |ts| == 5 && ts[0] == Token(LParen, Some("(")) && ts[1] == Token(Number, Some("3")) && ts[2] == Token(Plus, Some("+")) && ts[3] == Token(Number, Some("4")) && ts[4] == Token(Eof, None)
    requires ParseTermAt(ts, 1) == Ok(Parsed(Num(3.0), 2))
    requires ParseTermAt(ts, 3) == Ok(Parsed(Num(4.0), 4))
    ensures ParseExpressionAt(ts, 0) == Err(MissingClosingParen)
  {
    assert ParseExpressionLoop(ts, Bin(Num(3.0), "+", Num(4.0)), 4) == Ok(Parsed(Bin(Num(3.0), "+", Num(4.0)), 4));
    assert ParseExpressionLoop(ts, Num(3.0), 2) == Ok(Parsed(Bin(Num(3.0), "+", Num(4.0)), 4));
    assert ParseExpressionAt(ts, 1) == Ok(Parsed(Bin(Num(3.0), "+", Num(4.0)), 4));
    assert ParseFactorAt(ts, 0) == Err(MissingClosingParen);
    assert ParseTermAt(ts, 0) == Err(MissingClosingParen);
  }

  lemma UnclosedGroupTree(ts: seq<Token>)
    requires WellFormed(ts) && |ts| == 5 && ts[0] == Token(LParen, Some("(")) && ts[1] == Token(Number, Some("3")) && ts[2] == Token(Plus, Some("+")) && ts[3] == Token(Number, Some("4")) && ts[4] == Token(Eof, None)
    ensures ParseTokens(ts) == Err(MissingClosingParen)
  {
    UnclosedGroupTree0(ts);
    UnclosedGroupTree1(ts);
  }

  /** `3 4`: two numbers with no operator between them. */
  lemma Juxtaposed()
    ensures Lex("3 4") == Ok([Token(Number, Some("3")), Token(Number, Some("4")), Token(Eof, None)])
    ensures WellFormed([Token(Number, Some("3")), Token(Number, Some("4")), Token(Eof, None)]) && ParseTokens([Token(Number, Some("3")), Token(Number, Some("4")), Token(Eof, None)]) == Err(TrailingTokens)
    ensures Compile("3 4") == Err(SyntaxError(TrailingTokens))
  {
    var s, ts := "3 4", [Token(Number, Some("3")), Token(Number, Some("4")), Token(Eof, None)];
    JuxtaposedTokens(s, ts);
    LexedTokensParse(s);
    JuxtaposedTree(ts);
    CompileRejects(s, ts, TrailingTokens);
  }

  lemma JuxtaposedTokens(s: string, ts: seq<Token>)
    requires |s| == 3 && s[0] == '3' && s[1] == ' ' && s[2] == '4'
    requires |ts| == 3 && ts[0] == Token(Number, Some("3")) && ts[1] == Token(Number, Some("4")) && ts[2] == Token(Eof, None)
    ensures Lex(s) == Ok(ts)
  {
    assert Pairs(s, 3, ts, 2);
    assert Pairs(s, 2, ts, 1);
    assert Pairs(s, 1, ts, 1);
    assert Pairs(s, 0, ts, 0);
    PairsLex(s, ts);
  }

  lemma JuxtaposedTree0(ts: seq<Token>)
    requires WellFormed(ts) && |ts| == 3 && ts[0] == Token(Number, Some("3")) && ts[1] == Token(Number, Some("4")) && ts[2] == Token(Eof, None)
    ensures ParseExpressionAt(ts, 0) == Ok(Parsed(Num(3.0), 1))
  {
    assert ParseFactorAt(ts, 0) == Ok(Parsed(Num(3.0), 1));
    assert ParseTermLoop(ts, Num(3.0), 1) == Ok(Parsed(Num(3.0), 1));
    assert ParseTermAt(ts, 0) == Ok(Parsed(Num(3.0), 1));
    assert ParseExpressionLoop(ts, Num(3.0), 1) == Ok(Parsed(Num(3.0), 1));
  }

  lemma JuxtaposedTree(ts: seq<Token>)
    requires WellFormed(ts) && |ts| == 3 && ts[0] == Token(Number, Some("3")) && ts[1] == Token(Number, Some("4")) && ts[2] == Token(Eof, None)
    ensures ParseTokens(ts) == Err(TrailingTokens)
  {
    JuxtaposedTree0(ts);
  }

  /** `1 / 0`: a division whose divisor is zero. */
  lemma DividedByZero()
    ensures Lex("1 / 0") == Ok([Token(Number, Some("1")), Token(Divide, Some("/")), Token(Number, Some("0")), Token(Eof, None)])
    ensures WellFormed([Token(Number, Some("1")), Token(Divide, Some("/")), Token(Number, Some("0")), Token(Eof, None)]) && ParseTokens([Token(Number, Some("1")), Token(Divide, Some("/")), Token(Number, Some("0")), Token(Eof, None)]) == Ok(Bin(Num(1.0), "/", Num(0.0)))
    ensures Compile("1 / 0") == Err(EvaluationError(DivisionByZero))
  {
    var s, ts := "1 / 0", [Token(Number, Some("1")), Token(Divide, Some("/")), Token(Number, Some("0")), Token(Eof, None)];
    DividedByZeroTokens(s, ts);
    LexedTokensParse(s);
    DividedByZeroTree(ts);
    DividedByZeroValue();
    CompileFromPhases(s, ts, Bin(Num(1.0), "/", Num(0.0)), Err(DivisionByZero));
  }

  lemma DividedByZeroValue()
    ensures Evaluate(Bin(Num(1.0), "/", Num(0.0))) == Err(DivisionByZero)
  {
  }

  lemma DividedByZeroTokens(s: string, ts: seq<Token>)
    requires |s| == 5 && s[0] == '1' && s[1] == ' ' && s[2] == '/' && s[3] == ' ' && s[4] == '0'
    requires |ts| == 4 && ts[0] == Token(Number, Some("1")) && ts[1] == Token(Divide, Some("/")) && ts[2] == Token(Number, Some("0")) && ts[3] == Token(Eof, None)
    ensures Lex(s) == Ok(ts)
  {
    assert Pairs(s, 5, ts, 3);
    assert Pairs(s, 4, ts, 2);
    assert Pairs(s, 3, ts, 2);
    assert Pairs(s, 2, ts, 1);
    assert Pairs(s, 1, ts, 1);
    assert Pairs(s, 0, ts, 0);
    PairsLex(s, ts);
  }

  lemma DividedByZeroTree0(ts: seq<Token>)
    requires WellFormed(ts) && |ts| == 4 && ts[0] == Token(Number, Some("1")) && ts[1] == Token(Divide, Some("/")) && ts[2] == Token(Number, Some("0")) && ts[3] == Token(Eof, None)
    ensures ParseTermAt(ts, 0) == Ok(Parsed(Bin(Num(1.0), "/", Num(0.0)), 3))
    ensures ParseExpressionLoop(ts, Bin(Num(1.0), "/", Num(0.0)), 3) == Ok(Parsed(Bin(Num(1.0), "/", Num(0.0)), 3))
  {
    assert ParseFactorAt(ts, 0) == Ok(Parsed(Num(1.0), 1));
    assert ParseFactorAt(ts, 2) == Ok(Parsed(Num(0.0), 3));
    assert ParseTermLoop(ts, Bin(Num(1.0), "/", Num(0.0)), 3) == Ok(Parsed(Bin(Num(1.0), "/", Num(0.0)), 3));
    assert ParseTermLoop(ts, Num(1.0), 1) == Ok(Parsed(Bin(Num(1.0), "/", Num(0.0)), 3));
  }

  lemma DividedByZeroTree1(ts: seq<Token>)
    requires WellFormed(ts) && |ts| == 4 && ts[0] == Token(Number, Some("1")) && ts[1] == Token(Divide, Some("/")) && ts[2] == Token(Number, Some("0")) && ts[3] == Token(Eof, None)
    requires ParseTermAt(ts, 0) == Ok(Parsed(Bin(Num(1.0), "/", Num(0.0)), 3))
    requires ParseExpressionLoop(ts, Bin(Num(1.0), "/", Num(0.0)), 3) == Ok(Parsed(Bin(Num(1.0), "/", Num(0.0)), 3))
    ensures ParseExpressionAt(ts, 0) == Ok(Parsed(Bin(Num(1.0), "/", Num(0.0)), 3))
  {
  }

  lemma DividedByZeroTree(ts: seq<Token>)
    requires WellFormed(ts) && |ts| == 4 && ts[0] == Token(Number, Some("1")) && ts[1] == Token(Divide, Some("/")) && ts[2] == Token(Number, Some("0")) && ts[3] == Token(Eof, None)
    ensures ParseTokens(ts) == Ok(Bin(Num(1.0), "/", Num(0.0)))
  {
    DividedByZeroTree0(ts);
    DividedByZeroTree1(ts);
  }

  /** `3.`: a '.' that no digit follows ends the number before it, and is
      then a character no token starts with. */
  lemma TrailingDot()
    ensures Lex("3.") == Err(UnexpectedCharacter('.'))
    ensures Compile("3.") == Err(LexicalError(UnexpectedCharacter('.')))
  {
    var s := "3.";
    assert SkipWs(s, 0) == 0 && SkipWs(s, 1) == 1;
    assert DigitRunEnd(s, 1) == 1 && DigitRunEnd(s, 0) == 1;
    assert NumberEnd(s, 0) == 1;
    assert s[0..1] == "3";
    assert NextToken(s, 0) == Ok(Lexed(NumberToken("3"), 1));
    assert NextToken(s, 1) == Err(UnexpectedCharacter('.'));
  }
}
