/** The recursive-descent parser (Parser.java) for

      expression ::= term ((PLUS | MINUS) term)*
      term       ::= factor ((MULTIPLY | DIVIDE) factor)*
      factor     ::= (PLUS | MINUS) factor | NUMBER | LPAREN expression RPAREN

    Each rule is first a function of the token list and a cursor position
    that returns the tree and the position after it; the two `while` loops
    of the binary levels are the functions ParseTermLoop and
    ParseExpressionLoop. Class Parser is the parser with its mutable cursor
    `pos`/`current`, and each of its methods is proved to compute what the
    function of the same rule describes.

    Termination: a rule re-enters a rule of lower or equal rank only after
    consuming a token, so (tokens remaining, rank) decreases, with rank
    factor 0, term 1, expression 2. */
module Parsing {
  import opened Outcomes
  import opened Tokens
  import opened Decimals
  import opened Ast

  datatype ParseError =
    | UnexpectedToken(token: Token)
    | MissingClosingParen
    | TrailingTokens
    | ExpectedKind(expected: TokenKind, actual: TokenKind)

  /** A tree and the cursor position right after its tokens. */
  datatype Parsed = Parsed(tree: Expr, next: nat)

  /** The token under the cursor; past the end of the list, a synthetic EOF
      token. */
  function TokenAt(ts: seq<Token>, i: nat): Token {
    if i < |ts| then ts[i] else WithoutValue(Eof)
  }

  /** Tokens the cursor has not yet passed. */
  function Remaining(ts: seq<Token>, p: nat): nat {
    if p < |ts| then |ts| - p else 0
  }

  predicate IsBinaryKind(k: TokenKind) {
    k == Plus || k == Minus || k == Multiply || k == Divide
  }

  /** What the parser needs of a token: a NUMBER carries a decimal lexeme,
      which it converts, and a binary operator carries its text, which becomes
      the node's operator. */
  predicate WellFormedToken(t: Token) {
    && (t.kind == Number ==> t.value.Some? && IsNumberLexeme(t.value.value))
    && (IsBinaryKind(t.kind) ==> t.value.Some?)
  }

  predicate WellFormed(ts: seq<Token>) {
    forall i :: 0 <= i < |ts| ==> WellFormedToken(ts[i])
  }

  /** The cursor moved from `p` to `q` over tokens of the list none of which
      is EOF. */
  predicate Consumed(ts: seq<Token>, p: nat, q: nat) {
    p <= q <= |ts| && forall i :: p <= i < q ==> ts[i].kind != Eof
  }

  /** factor ::= (PLUS | MINUS) factor | NUMBER | LPAREN expression RPAREN */
  function ParseFactorAt(ts: seq<Token>, p: nat): (r: Result<Parsed, ParseError>)
    requires WellFormed(ts)
    ensures r.Ok? ==> p < r.value.next && Consumed(ts, p, r.value.next)
    decreases Remaining(ts, p), 0
  {
    var tok := TokenAt(ts, p);
    if tok.kind == Plus then
      var operand :- ParseFactorAt(ts, p + 1);
      Ok(Parsed(Un("+", operand.tree), operand.next))
    else if tok.kind == Minus then
      var operand :- ParseFactorAt(ts, p + 1);
      Ok(Parsed(Un("-", operand.tree), operand.next))
    else if tok.kind == Number then
      Ok(Parsed(Num(DecimalValue(tok.value.value)), p + 1))
    else if tok.kind == LParen then
      var inner :- ParseExpressionAt(ts, p + 1);
      if TokenAt(ts, inner.next).kind != RParen then Err(MissingClosingParen)
      else Ok(Parsed(inner.tree, inner.next + 1))
    else Err(UnexpectedToken(tok))
  }

  /** term ::= factor ((MULTIPLY | DIVIDE) factor)* */
  function ParseTermAt(ts: seq<Token>, p: nat): (r: Result<Parsed, ParseError>)
    requires WellFormed(ts)
    ensures r.Ok? ==> p < r.value.next && Consumed(ts, p, r.value.next)
    decreases Remaining(ts, p), 1
  {
    var first :- ParseFactorAt(ts, p);
    ParseTermLoop(ts, first.tree, first.next)
  }

  /** The loop of parseTerm with `left` the tree so far and `p` the cursor. */
  function ParseTermLoop(ts: seq<Token>, left: Expr, p: nat): (r: Result<Parsed, ParseError>)
    requires WellFormed(ts)
    ensures r.Ok? ==> Consumed(ts, p, r.value.next) || r.value.next == p
    decreases Remaining(ts, p), 0
  {
    var tok := TokenAt(ts, p);
    if tok.kind == Multiply || tok.kind == Divide then
      var right :- ParseFactorAt(ts, p + 1);
      ParseTermLoop(ts, Bin(left, tok.value.value, right.tree), right.next)
    else Ok(Parsed(left, p))
  }

  /** expression ::= term ((PLUS | MINUS) term)* */
  function ParseExpressionAt(ts: seq<Token>, p: nat): (r: Result<Parsed, ParseError>)
    requires WellFormed(ts)
    ensures r.Ok? ==> p < r.value.next && Consumed(ts, p, r.value.next)
    decreases Remaining(ts, p), 2
  {
    var first :- ParseTermAt(ts, p);
    ParseExpressionLoop(ts, first.tree, first.next)
  }

  /** The loop of parseExpression with `left` the tree so far and `p` the
      cursor. */
  function ParseExpressionLoop(ts: seq<Token>, left: Expr, p: nat): (r: Result<Parsed, ParseError>)
    requires WellFormed(ts)
    ensures r.Ok? ==> Consumed(ts, p, r.value.next) || r.value.next == p
    decreases Remaining(ts, p), 0
  {
    var tok := TokenAt(ts, p);
    if tok.kind == Plus || tok.kind == Minus then
      var right :- ParseTermAt(ts, p + 1);
      ParseExpressionLoop(ts, Bin(left, tok.value.value, right.tree), right.next)
    else Ok(Parsed(left, p))
  }

  /** parse: an expression, which must be followed by EOF. */
  function ParseFrom(ts: seq<Token>, p: nat): Result<Expr, ParseError>
    requires WellFormed(ts)
  {
    var e :- ParseExpressionAt(ts, p);
    if TokenAt(ts, e.next).kind != Eof then Err(TrailingTokens) else Ok(e.tree)
  }

  /** The tree of a whole token list. */
  function ParseTokens(ts: seq<Token>): Result<Expr, ParseError>
    requires WellFormed(ts)
  {
    ParseFrom(ts, 0)
  }

  /** A method's result and final cursor agree with a rule's function. */
  predicate Agrees(r: Result<Expr, ParseError>, spec: Result<Parsed, ParseError>, pos: nat) {
    if spec.Ok? then r == Ok(spec.value.tree) && pos == spec.value.next else r == Err(spec.error)
  }

  class Parser {
    const tokens: seq<Token>
    var pos: nat
    var current: Token

    ghost predicate Valid()
      reads this
    {
      WellFormed(tokens) && current == TokenAt(tokens, pos)
    }

    constructor (tokens: seq<Token>)
      requires WellFormed(tokens)
      ensures Valid() && this.tokens == tokens && pos == 0
    {
      this.tokens := tokens;
      pos := 0;
      current := if |tokens| > 0 then tokens[0] else WithoutValue(Eof);
    }

    method Advance()
      requires Valid()
      modifies this
      ensures Valid() && pos == old(pos) + 1
    {
      pos := pos + 1;
      current := if pos < |tokens| then tokens[pos] else WithoutValue(Eof);
    }

    /** Consumes a token of the given kind or fails naming both kinds. */
    method Expect(kind: TokenKind) returns (r: Result<(), ParseError>)
      requires Valid()
      modifies this
      ensures Valid()
      ensures old(current).kind == kind ==> r == Ok(()) && pos == old(pos) + 1
      ensures old(current).kind != kind ==> r == Err(ExpectedKind(kind, old(current).kind)) && pos == old(pos)
    {
      if current.kind == kind {
        Advance();
        r := Ok(());
      } else {
        r := Err(ExpectedKind(kind, current.kind));
      }
    }

    method ParseFactor() returns (r: Result<Expr, ParseError>)
      requires Valid()
      modifies this
      ensures Valid() && Agrees(r, ParseFactorAt(tokens, old(pos)), pos)
      decreases Remaining(tokens, pos), 0
    {
      var tok := current;
      if tok.kind == Plus {
        Advance();
        var operand :- ParseFactor();
        return Ok(Un("+", operand));
      }
      if tok.kind == Minus {
        Advance();
        var operand :- ParseFactor();
        return Ok(Un("-", operand));
      }
      if tok.kind == Number {
        Advance();
        return Ok(Num(DecimalValue(tok.value.value)));
      }
      if tok.kind == LParen {
        Advance();
        var expr :- ParseExpression();
        if current.kind != RParen {
          return Err(MissingClosingParen);
        }
        Advance();
        return Ok(expr);
      }
      return Err(UnexpectedToken(tok));
    }

    method ParseTerm() returns (r: Result<Expr, ParseError>)
      requires Valid()
      modifies this
      ensures Valid() && Agrees(r, ParseTermAt(tokens, old(pos)), pos)
      decreases Remaining(tokens, pos), 1
    {
      var left :- ParseFactor();
      while current.kind == Multiply || current.kind == Divide
        invariant Valid() && old(pos) <= pos
        invariant ParseTermAt(tokens, old(pos)) == ParseTermLoop(tokens, left, pos)
        decreases Remaining(tokens, pos)
      {
        var op := current.value.value;
        Advance();
        var right :- ParseFactor();
        left := Bin(left, op, right);
      }
      return Ok(left);
    }

    method ParseExpression() returns (r: Result<Expr, ParseError>)
      requires Valid()
      modifies this
      ensures Valid() && Agrees(r, ParseExpressionAt(tokens, old(pos)), pos)
      decreases Remaining(tokens, pos), 2
    {
      var left :- ParseTerm();
      while current.kind == Plus || current.kind == Minus
        invariant Valid() && old(pos) <= pos
        invariant ParseExpressionAt(tokens, old(pos)) == ParseExpressionLoop(tokens, left, pos)
        decreases Remaining(tokens, pos)
      {
        var op := current.value.value;
        Advance();
        var right :- ParseTerm();
        left := Bin(left, op, right);
      }
      return Ok(left);
    }

    method Parse() returns (r: Result<Expr, ParseError>)
      requires Valid()
      modifies this
      ensures Valid() && r == ParseFrom(tokens, old(pos))
    {
      var tree :- ParseExpression();
      if current.kind != Eof {
        return Err(TrailingTokens);
      }
      return Ok(tree);
    }
  }
}
