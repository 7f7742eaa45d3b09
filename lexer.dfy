/** The lexer (Lexer.java): a cursor over the input text that turns it into
    a list of tokens ending in a single EOF token.

    The functions in this module describe what each step of the scanner
    computes from the input and a cursor position; class Lexer is the
    scanner itself, with the mutable cursor `pos`/`current`, and each of its
    methods is proved to do what the corresponding function describes. */
module Lexing {
  import opened Outcomes
  import opened Tokens
  import opened Decimals

  datatype LexError = UnexpectedCharacter(c: char)

  /** A token and the cursor position right after it. */
  datatype Lexed = Lexed(token: Token, next: nat)

  /** What the cursor sees at position `i`: the character there, or the
      sentinel '\0' once the cursor is past the end. */
  function CharAt(input: string, i: nat): char {
    if i < |input| then input[i] else '\0'
  }

  predicate IsWhitespace(c: char) {
    c == ' ' || c == '\t' || c == '\n' || c == '\r'
  }

  /** The six one-character tokens. */
  predicate IsSymbol(c: char) {
    c == '+' || c == '-' || c == '*' || c == '/' || c == '(' || c == ')'
  }

  /** The kind of token a symbol character yields. */
  function SymbolKind(c: char): TokenKind
    requires IsSymbol(c)
  {
    match c
    case '+' => Plus
    case '-' => Minus
    case '*' => Multiply
    case '/' => Divide
    case '(' => LParen
    case ')' => RParen
  }

  /** The characters at which a scan step succeeds: end of input, a digit, or a
      symbol. */
  predicate StartsToken(c: char) {
    c == '\0' || IsDigit(c) || IsSymbol(c)
  }

  /** Where the cursor stops when whitespace is skipped from `p`: the first
      position at or after `p` that does not hold whitespace. */
  function SkipWs(input: string, p: nat): (q: nat)
    requires p <= |input|
    ensures p <= q <= |input|
    ensures !IsWhitespace(CharAt(input, q))
    ensures forall i :: p <= i < q ==> IsWhitespace(input[i])
    decreases |input| - p
  {
    if IsWhitespace(CharAt(input, p)) then SkipWs(input, p + 1) else p
  }

  /** The end of the maximal run of digits starting at `p`. */
  function DigitRunEnd(input: string, p: nat): (q: nat)
    requires p <= |input|
    ensures p <= q <= |input|
    ensures !IsDigit(CharAt(input, q))
    ensures forall i :: p <= i < q ==> IsDigit(input[i])
    decreases |input| - p
  {
    if IsDigit(CharAt(input, p)) then DigitRunEnd(input, p + 1) else p
  }

  /** The end of the number read from `p`: the digits, then a '.' and more
      digits only when a digit follows the '.'. */
  function NumberEnd(input: string, p: nat): (q: nat)
    requires p <= |input|
    ensures p <= q <= |input|
  {
    var q := DigitRunEnd(input, p);
    if CharAt(input, q) == '.' && IsDigit(CharAt(input, q + 1)) then DigitRunEnd(input, q + 1) else q
  }

  /** One scan step from cursor position `p` (getNextToken). */
  function NextToken(input: string, p: nat): (r: Result<Lexed, LexError>)
    requires p <= |input|
    ensures var q := SkipWs(input, p);
      && (r.Err? <==> !StartsToken(CharAt(input, q)))
      && (r.Err? ==> r.error == UnexpectedCharacter(CharAt(input, q)))
      && (r.Ok? ==> q <= r.value.next <= |input|)
      && (r.Ok? ==> (r.value.token.kind == Eof <==> r.value.next == q))
  {
    var q := SkipWs(input, p);
    var c := CharAt(input, q);
    if c == '\0' then Ok(Lexed(WithoutValue(Eof), q))
    else if IsDigit(c) then
      var e := NumberEnd(input, q);
      Ok(Lexed(Token(Number, Some(input[q..e])), e))
    else if c == '+' then Ok(Lexed(Token(Plus, Some("+")), q + 1))
    else if c == '-' then Ok(Lexed(Token(Minus, Some("-")), q + 1))
    else if c == '*' then Ok(Lexed(Token(Multiply, Some("*")), q + 1))
    else if c == '/' then Ok(Lexed(Token(Divide, Some("/")), q + 1))
    else if c == '(' then Ok(Lexed(Token(LParen, Some("(")), q + 1))
    else if c == ')' then Ok(Lexed(Token(RParen, Some(")")), q + 1))
    else Err(UnexpectedCharacter(c))
  }

  /** `tokens` in front of the tokens of `rest`, or the failure of `rest`. */
  function Prepend(tokens: seq<Token>, rest: Result<seq<Token>, LexError>): Result<seq<Token>, LexError> {
    match rest
    case Ok(ts) => Ok(tokens + ts)
    case Err(e) => Err(e)
  }

  lemma PrependNothing(rest: Result<seq<Token>, LexError>)
    ensures Prepend([], rest) == rest
  {
    if rest.Ok? {
      assert [] + rest.value == rest.value;
    }
  }

  /** Scanning from `p` to the first EOF token (tokenize). A successful scan
      ends in exactly one EOF token. */
  function TokenizeFrom(input: string, p: nat): (r: Result<seq<Token>, LexError>)
    requires p <= |input|
    ensures r.Ok? ==> |r.value| > 0 && r.value[|r.value| - 1].kind == Eof
    ensures r.Ok? ==> forall i :: 0 <= i < |r.value| - 1 ==> r.value[i].kind != Eof
    decreases |input| - p
  {
    match NextToken(input, p)
    case Err(e) => Err(e)
    case Ok(Lexed(t, q)) =>
      if t.kind == Eof then Ok([t]) else Prepend([t], TokenizeFrom(input, q))
  }

  /** The token list of a whole input. */
  function Lex(input: string): Result<seq<Token>, LexError> {
    TokenizeFrom(input, 0)
  }

  class Lexer {
    const input: string
    var pos: nat
    var current: char

    /** The cursor is within the input (or just past it) and `current` is
        what it sees. */
    ghost predicate Valid()
      reads this
    {
      pos <= |input| && current == CharAt(input, pos)
    }

    constructor (input: string)
      ensures Valid() && this.input == input && pos == 0
    {
      this.input := input;
      pos := 0;
      current := if |input| > 0 then input[0] else '\0';
    }

    /** Every caller advances only past a character that is not the
        sentinel, so the cursor never goes beyond the end. */
    method Advance()
      requires Valid() && current != '\0'
      modifies this
      ensures Valid() && pos == old(pos) + 1
    {
      pos := pos + 1;
      current := if pos < |input| then input[pos] else '\0';
    }

    method Peek() returns (c: char)
      requires Valid()
      ensures c == CharAt(input, pos + 1)
    {
      var nextPos := pos + 1;
      c := if nextPos < |input| then input[nextPos] else '\0';
    }

    method SkipWhitespace()
      requires Valid()
      modifies this
      ensures Valid() && pos == SkipWs(input, old(pos))
    {
      while current == ' ' || current == '\t' || current == '\n' || current == '\r'
        invariant Valid() && old(pos) <= pos
        invariant SkipWs(input, pos) == SkipWs(input, old(pos))
        decreases |input| - pos
      {
        Advance();
      }
    }

    method ReadNumber() returns (tok: Token)
      requires Valid()
      modifies this
      ensures Valid() && pos == NumberEnd(input, old(pos))
      ensures tok == Token(Number, Some(input[old(pos)..pos]))
    {
      ghost var start := pos;
      var num := AppendDigits(start, "");
      if current == '.' {
        var next := Peek();
        if IsDigit(next) {
          ghost var whole := pos;
          assert input[start..pos + 1] == input[start..pos] + [current];
          num := num + [current];
          Advance();
          num := AppendDigits(start, num);
          assert pos == DigitRunEnd(input, whole + 1);
        }
      }
      tok := Token(Number, Some(num));
    }

    /** One digit loop of readNumber (it has two): appends the run of digits
        under the cursor to `num`, the text read since `start`. */
    method AppendDigits(ghost start: nat, num: string) returns (r: string)
      requires Valid() && start <= pos && num == input[start..pos]
      modifies this
      ensures Valid() && pos == DigitRunEnd(input, old(pos))
      ensures r == input[start..pos]
    {
      r := num;
      while IsDigit(current)
        invariant Valid() && old(pos) <= pos
        invariant DigitRunEnd(input, pos) == DigitRunEnd(input, old(pos))
        invariant r == input[start..pos]
        decreases |input| - pos
      {
        assert input[start..pos + 1] == input[start..pos] + [current];
        r := r + [current];
        Advance();
      }
    }

    method GetNextToken() returns (r: Result<Token, LexError>)
      requires Valid()
      modifies this
      ensures Valid()
      ensures var n := NextToken(input, old(pos));
        if n.Ok? then r == Ok(n.value.token) && pos == n.value.next else r == Err(n.error)
    {
      while current != '\0'
        invariant Valid() && old(pos) <= pos
        invariant SkipWs(input, pos) == SkipWs(input, old(pos))
        decreases |input| - pos
      {
        if current == ' ' || current == '\t' || current == '\n' || current == '\r' {
          SkipWhitespace();
          continue;
        }
        if IsDigit(current) {
          var tok := ReadNumber();
          return Ok(tok);
        }
        if current == '+' {
          Advance();
          return Ok(Token(Plus, Some("+")));
        }
        if current == '-' {
          Advance();
          return Ok(Token(Minus, Some("-")));
        }
        if current == '*' {
          Advance();
          return Ok(Token(Multiply, Some("*")));
        }
        if current == '/' {
          Advance();
          return Ok(Token(Divide, Some("/")));
        }
        if current == '(' {
          Advance();
          return Ok(Token(LParen, Some("(")));
        }
        if current == ')' {
          Advance();
          return Ok(Token(RParen, Some(")")));
        }
        return Err(UnexpectedCharacter(current));
      }
      return Ok(WithoutValue(Eof));
    }

    method Tokenize() returns (r: Result<seq<Token>, LexError>)
      requires Valid()
      modifies this
      ensures Valid()
      ensures r == TokenizeFrom(input, old(pos))
    {
      var tokens: seq<Token> := [];
      PrependNothing(TokenizeFrom(input, pos));
      while true
        invariant Valid() && old(pos) <= pos
        invariant TokenizeFrom(input, old(pos)) == Prepend(tokens, TokenizeFrom(input, pos))
        decreases |input| - pos
      {
        ghost var before := pos;
        TokenizeStep(input, before);
        var next := GetNextToken();
        if next.Err? {
          return Err(next.error);
        }
        var tok := next.value;
        PrependTwice(tokens, [tok], TokenizeFrom(input, pos));
        tokens := tokens + [tok];
        if tok.kind == Eof {
          return Ok(tokens);
        }
      }
    }
  }

  /** One step of TokenizeFrom: the token read from `p` in front of the
      tokens read after it, stopping at EOF. */
  lemma TokenizeStep(input: string, p: nat)
    requires p <= |input|
    ensures var n := NextToken(input, p);
      TokenizeFrom(input, p) ==
        if n.Err? then Err(n.error)
        else if n.value.token.kind == Eof then Ok([n.value.token])
        else Prepend([n.value.token], TokenizeFrom(input, n.value.next))
  {
  }

  lemma PrependTwice(a: seq<Token>, b: seq<Token>, rest: Result<seq<Token>, LexError>)
    ensures Prepend(a, Prepend(b, rest)) == Prepend(a + b, rest)
  {
    if rest.Ok? {
      assert a + (b + rest.value) == (a + b) + rest.value;
    }
  }
}
