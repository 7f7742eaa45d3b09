/** Properties of the lexer's scan functions: the shape of every token, what
    whitespace and the sentinel do, where scanning fails, and that the
    tokens spell out the input. */
module LexerProperties {
  import opened Outcomes
  import opened Tokens
  import opened Decimals
  import opened Lexing

  /** The tokens the lexer makes: a NUMBER carries a well-formed lexeme, a
      symbol its own character, and EOF, the only one built with the
      one-argument constructor, no text. */
  predicate IsLexerToken(t: Token) {
    match t.kind
    case Number => t.value.Some? && IsNumberLexeme(t.value.value)
    case Plus => t.value == Some("+")
    case Minus => t.value == Some("-")
    case Multiply => t.value == Some("*")
    case Divide => t.value == Some("/")
    case LParen => t.value == Some("(")
    case RParen => t.value == Some(")")
    case Eof => t.value == None
  }

  /** The number read from a digit is `digit+ ('.' digit+)?` and maximal:
      no digit follows it, and when it has no fraction, no '.' followed by a
      digit does either. */
  lemma NumberLexeme(input: string, p: nat)
    requires p <= |input| && IsDigit(CharAt(input, p))
    ensures var e := NumberEnd(input, p);
      && IsNumberLexeme(input[p..e])
      && !IsDigit(CharAt(input, e))
      && (CharAt(input, e) == '.' && IsDigit(CharAt(input, e + 1)) ==> DotIndex(input[p..e]) < e - p)
  {
    var a := DigitRunEnd(input, p);
    var e := NumberEnd(input, p);
    assert IsDigits(input[p..a]);
    if CharAt(input, a) == '.' && IsDigit(CharAt(input, a + 1)) {
      assert IsDigits(input[a + 1..e]);
      assert input[p..e] == input[p..a] + "." + input[a + 1..e];
      FractionLexeme(input[p..a], input[a + 1..e]);
    } else {
      WholeLexeme(input[p..a]);
    }
  }

  /** Every token a scan step yields has the lexer's shape. */
  lemma NextTokenShape(input: string, p: nat)
    requires p <= |input| && NextToken(input, p).Ok?
    ensures IsLexerToken(NextToken(input, p).value.token)
  {
    var q := SkipWs(input, p);
    if IsDigit(CharAt(input, q)) {
      NumberLexeme(input, q);
    }
  }

  /** A NUMBER token is maximal: scanning stops at a character that cannot
      continue it. */
  lemma NumberTokenIsMaximal(input: string, p: nat)
    requires p <= |input| && NextToken(input, p).Ok? && NextToken(input, p).value.token.kind == Number
    ensures var Lexed(t, e) := NextToken(input, p).value;
      && !IsDigit(CharAt(input, e))
      && (CharAt(input, e) == '.' && IsDigit(CharAt(input, e + 1)) ==> DotIndex(t.value.value) < |t.value.value|)
  {
    NumberLexeme(input, SkipWs(input, p));
  }

  /** Each of `+ - * / ( )` yields exactly one token, of the matching kind,
      whose text is that character. */
  lemma SymbolIsOneToken(input: string, p: nat)
    requires p <= |input|
    requires IsSymbol(CharAt(input, SkipWs(input, p)))
    ensures var q := SkipWs(input, p); var c := CharAt(input, q);
      NextToken(input, p) == Ok(Lexed(Token(SymbolKind(c), Some([c])), q + 1))
  {
  }

  /** A whitespace character under the cursor produces no token. */
  lemma WhitespaceProducesNoToken(input: string, p: nat)
    requires p < |input| && IsWhitespace(input[p])
    ensures TokenizeFrom(input, p) == TokenizeFrom(input, p + 1)
  {
    assert SkipWs(input, p) == SkipWs(input, p + 1);
    assert NextToken(input, p) == NextToken(input, p + 1);
  }

  lemma {:induction false} SkipAllWhitespace(s: string, p: nat)
    requires p <= |s|
    requires forall i :: p <= i < |s| ==> IsWhitespace(s[i])
    ensures SkipWs(s, p) == |s|
    decreases |s| - p
  {
    if p < |s| {
      SkipAllWhitespace(s, p + 1);
    }
  }

  /** Input made only of whitespace yields just the EOF token. */
  lemma BlankInputIsEof(s: string)
    requires forall i :: 0 <= i < |s| ==> IsWhitespace(s[i])
    ensures Lex(s) == Ok([WithoutValue(Eof)])
  {
    SkipAllWhitespace(s, 0);
  }

  /** A successful scan yields tokens of the lexer's shape, ends in its only
      EOF token, and yields at most one token per character plus the EOF. */
  lemma {:induction false} TokenizeShape(input: string, p: nat)
    requires p <= |input| && TokenizeFrom(input, p).Ok?
    ensures var ts := TokenizeFrom(input, p).value;
      && (forall i :: 0 <= i < |ts| ==> IsLexerToken(ts[i]))
      && (forall i :: 0 <= i < |ts| ==> (ts[i].value == None <==> ts[i].kind == Eof))
      && |ts| <= |input| - p + 1
    decreases |input| - p
  {
    NextTokenShape(input, p);
    var Lexed(t, q) := NextToken(input, p).value;
    if t.kind != Eof {
      TokenizeShape(input, q);
      var rest := TokenizeFrom(input, q).value;
      assert TokenizeFrom(input, p).value == [t] + rest;
    }
  }

  /** The cursor position from which the failing step of a failed scan
      starts. */
  function FailingStep(input: string, p: nat): (q: nat)
    requires p <= |input| && TokenizeFrom(input, p).Err?
    ensures p <= q <= |input| && NextToken(input, q).Err?
    ensures TokenizeFrom(input, q) == TokenizeFrom(input, p)
    decreases |input| - p
  {
    var n := NextToken(input, p);
    if n.Err? then p else FailingStep(input, n.value.next)
  }

  /** A failed scan names the character under the cursor once the failing
      step has skipped whitespace: a character of the input, not the
      sentinel, that starts no token. */
  lemma LexErrorNamesInputChar(input: string, p: nat)
    requires p <= |input| && TokenizeFrom(input, p).Err?
    ensures var w := SkipWs(input, FailingStep(input, p));
      && w < |input| && !StartsToken(input[w])
      && TokenizeFrom(input, p).error == UnexpectedCharacter(input[w])
  {
    var q := FailingStep(input, p);
    assert TokenizeFrom(input, q) == Err(NextToken(input, q).error);
  }

  // The sentinel: a '\0' in the input reads as the end of it.

  /** `u` and `v` agree up to position `n`, where both show the sentinel. */
  predicate SameUpTo(u: string, v: string, n: nat) {
    n <= |u| && n <= |v| && u[..n] == v[..n] && CharAt(u, n) == '\0' && CharAt(v, n) == '\0'
  }

  lemma SameCharAt(u: string, v: string, n: nat, i: nat)
    requires SameUpTo(u, v, n) && i <= n
    ensures CharAt(u, i) == CharAt(v, i)
  {
    if i < n {
      assert u[i] == u[..n][i] && v[i] == v[..n][i];
    }
  }

  lemma {:induction false} SkipWsSame(u: string, v: string, n: nat, p: nat)
    requires SameUpTo(u, v, n) && p <= n
    ensures SkipWs(u, p) == SkipWs(v, p) <= n
    decreases n - p
  {
    SameCharAt(u, v, n, p);
    if IsWhitespace(CharAt(u, p)) {
      SkipWsSame(u, v, n, p + 1);
    }
  }

  lemma {:induction false} DigitRunEndSame(u: string, v: string, n: nat, p: nat)
    requires SameUpTo(u, v, n) && p <= n
    ensures DigitRunEnd(u, p) == DigitRunEnd(v, p) <= n
    decreases n - p
  {
    SameCharAt(u, v, n, p);
    if IsDigit(CharAt(u, p)) {
      DigitRunEndSame(u, v, n, p + 1);
    }
  }

  lemma NumberEndSame(u: string, v: string, n: nat, q: nat)
    requires SameUpTo(u, v, n) && q <= n
    ensures NumberEnd(u, q) == NumberEnd(v, q) <= n
  {
    DigitRunEndSame(u, v, n, q);
    var a := DigitRunEnd(u, q);
    SameCharAt(u, v, n, a);
    if CharAt(u, a) == '.' {
      SameCharAt(u, v, n, a + 1);
      if IsDigit(CharAt(u, a + 1)) {
        DigitRunEndSame(u, v, n, a + 1);
      }
    }
  }

  lemma SameSlice(u: string, v: string, n: nat, i: nat, j: nat)
    requires SameUpTo(u, v, n) && i <= j <= n
    ensures u[i..j] == v[i..j]
  {
    assert u[i..j] == u[..n][i..j];
    assert v[i..j] == v[..n][i..j];
  }

  lemma NextTokenSame(u: string, v: string, n: nat, p: nat)
    requires SameUpTo(u, v, n) && p <= n
    ensures NextToken(u, p) == NextToken(v, p)
    ensures NextToken(u, p).Ok? ==> NextToken(u, p).value.next <= n
  {
    SkipWsSame(u, v, n, p);
    var q := SkipWs(u, p);
    SameCharAt(u, v, n, q);
    if IsDigit(CharAt(u, q)) {
      NumberEndSame(u, v, n, q);
      SameSlice(u, v, n, q, NumberEnd(u, q));
    } else if CharAt(u, q) != '\0' {
      assert q < n;
    }
  }

  lemma {:induction false} TokenizeSame(u: string, v: string, n: nat, p: nat)
    requires SameUpTo(u, v, n) && p <= n
    ensures TokenizeFrom(u, p) == TokenizeFrom(v, p)
    decreases n - p
  {
    NextTokenSame(u, v, n, p);
    var r := NextToken(u, p);
    if r.Ok? && r.value.token.kind != Eof {
      TokenizeSame(u, v, n, r.value.next);
    }
  }

  /** A literal '\0' ends the input: whatever follows it is never read, and
      the scan ends there with EOF. */
  lemma LexStopsAtSentinel(s: string, t: string)
    ensures Lex(s + ['\0'] + t) == Lex(s)
    ensures Lex(['\0'] + t) == Ok([WithoutValue(Eof)])
  {
    var v := s + ['\0'] + t;
    assert v[..|s|] == s == s[..|s|];
    assert CharAt(v, |s|) == v[|s|] == '\0';
    TokenizeSame(s, v, |s|, 0);
  }

  // The tokens spell the input without its whitespace.

  /** The input with every whitespace character removed. */
  function RemoveWhitespace(s: string): string {
    if s == [] then []
    else (if IsWhitespace(s[0]) then [] else [s[0]]) + RemoveWhitespace(s[1..])
  }

  function TokenText(t: Token): string {
    match t.value
    case Some(v) => v
    case None => []
  }

  /** The texts of the tokens, concatenated. */
  function Spelling(ts: seq<Token>): string {
    if ts == [] then [] else TokenText(ts[0]) + Spelling(ts[1..])
  }

  lemma {:induction false} RemoveWhitespaceConcat(a: string, b: string)
    ensures RemoveWhitespace(a + b) == RemoveWhitespace(a) + RemoveWhitespace(b)
  {
    if a == [] {
      assert a + b == b;
    } else {
      assert (a + b)[1..] == a[1..] + b;
      RemoveWhitespaceConcat(a[1..], b);
    }
  }

  lemma {:induction false} RemoveWhitespaceNone(s: string)
    requires forall i :: 0 <= i < |s| ==> !IsWhitespace(s[i])
    ensures RemoveWhitespace(s) == s
  {
    if s != [] {
      RemoveWhitespaceNone(s[1..]);
    }
  }

  lemma {:induction false} RemoveWhitespaceAll(s: string)
    requires forall i :: 0 <= i < |s| ==> IsWhitespace(s[i])
    ensures RemoveWhitespace(s) == []
  {
    if s != [] {
      RemoveWhitespaceAll(s[1..]);
    }
  }

  lemma {:induction false} SpellingConcat(a: seq<Token>, b: seq<Token>)
    ensures Spelling(a + b) == Spelling(a) + Spelling(b)
  {
    if a == [] {
      assert a + b == b;
    } else {
      assert (a + b)[1..] == a[1..] + b;
      SpellingConcat(a[1..], b);
    }
  }

  predicate NoSentinel(s: string) {
    forall i :: 0 <= i < |s| ==> s[i] != '\0'
  }

  lemma SkippedText(input: string, p: nat)
    requires p <= |input|
    ensures RemoveWhitespace(input[p..SkipWs(input, p)]) == []
  {
    RemoveWhitespaceAll(input[p..SkipWs(input, p)]);
  }

  lemma NumberText(input: string, w: nat)
    requires w <= |input| && IsDigit(CharAt(input, w))
    ensures RemoveWhitespace(input[w..NumberEnd(input, w)]) == input[w..NumberEnd(input, w)]
  {
    var a := DigitRunEnd(input, w);
    var e := NumberEnd(input, w);
    assert forall i :: w <= i < a ==> IsDigit(input[i]);
    if e != a {
      assert forall i :: a + 1 <= i < e ==> IsDigit(input[i]);
    }
    RemoveWhitespaceNone(input[w..e]);
  }

  /** The text of the token read from `p` is what lies between `p` and the
      cursor after it, minus whitespace; EOF comes only at the end of an
      input without '\0'. */
  lemma NextTokenText(input: string, p: nat)
    requires p <= |input| && NoSentinel(input) && NextToken(input, p).Ok?
    ensures var Lexed(t, q) := NextToken(input, p).value;
      && TokenText(t) == RemoveWhitespace(input[p..q])
      && (t.kind == Eof ==> q == |input|)
  {
    var w := SkipWs(input, p);
    SkippedText(input, p);
    TokenTextAfterSkip(input, p);
    SkipAddsNoText(input, p, w, NextToken(input, p).value.next);
  }

  /** The same, measured from the first character that is not whitespace. */
  lemma TokenTextAfterSkip(input: string, p: nat)
    requires p <= |input| && NoSentinel(input) && NextToken(input, p).Ok?
    ensures var Lexed(t, q) := NextToken(input, p).value;
      && TokenText(t) == RemoveWhitespace(input[SkipWs(input, p)..q])
      && (t.kind == Eof ==> q == |input|)
  {
    var w := SkipWs(input, p);
    var q := NextToken(input, p).value.next;
    var c := CharAt(input, w);
    if IsDigit(c) {
      NumberText(input, w);
    } else if c != '\0' {
      assert input[w..q] == [c];
      RemoveWhitespaceNone(input[w..q]);
    } else {
      assert input[w..q] == [];
    }
  }

  lemma SkipAddsNoText(input: string, p: nat, w: nat, q: nat)
    requires p <= w <= q <= |input| && RemoveWhitespace(input[p..w]) == []
    ensures RemoveWhitespace(input[p..q]) == RemoveWhitespace(input[w..q])
  {
    assert input[p..q] == input[p..w] + input[w..q];
    RemoveWhitespaceConcat(input[p..w], input[w..q]);
  }

  lemma {:induction false} TokenizeSpelling(input: string, p: nat, ts: seq<Token>)
    requires p <= |input| && NoSentinel(input) && TokenizeFrom(input, p) == Ok(ts)
    ensures Spelling(ts) == RemoveWhitespace(input[p..])
    decreases |input| - p
  {
    NextTokenText(input, p);
    var Lexed(t, q) := NextToken(input, p).value;
    if t.kind == Eof {
      assert ts == [t];
      assert input[p..] == input[p..q];
      assert Spelling([t]) == TokenText(t) + Spelling([]);
    } else {
      TokenizeRest(input, p, ts, t, q);
      TokenizeSpelling(input, q, ts[1..]);
      SpellingStep(input, p, q, ts);
    }
  }

  /** After a first token that is not EOF, the scan goes on from where that
      token ends. */
  lemma TokenizeRest(input: string, p: nat, ts: seq<Token>, t: Token, q: nat)
    requires p <= |input| && TokenizeFrom(input, p) == Ok(ts)
    requires NextToken(input, p) == Ok(Lexed(t, q)) && t.kind != Eof
    ensures q <= |input| && |ts| > 0 && ts[0] == t && TokenizeFrom(input, q) == Ok(ts[1..])
  {
    assert ts == [t] + TokenizeFrom(input, q).value;
  }

  /** Spelling and whitespace removal both distribute over concatenation. */
  lemma SpellingStep(input: string, p: nat, q: nat, ts: seq<Token>)
    requires p <= q <= |input| && |ts| > 0
    requires TokenText(ts[0]) == RemoveWhitespace(input[p..q])
    requires Spelling(ts[1..]) == RemoveWhitespace(input[q..])
    ensures Spelling(ts) == RemoveWhitespace(input[p..])
  {
    assert input[p..] == input[p..q] + input[q..];
    RemoveWhitespaceConcat(input[p..q], input[q..]);
  }

  lemma SpellingWithoutLast(ts: seq<Token>)
    requires |ts| > 0 && ts[|ts| - 1].value == None
    ensures Spelling(ts[..|ts| - 1]) == Spelling(ts)
  {
    var last := ts[|ts| - 1];
    assert Spelling([last]) == TokenText(last) + Spelling([]);
    assert ts == ts[..|ts| - 1] + [last];
    SpellingConcat(ts[..|ts| - 1], [last]);
  }

  /** For an input without '\0', the texts of the tokens before EOF,
      concatenated, are the input with its whitespace removed. */
  lemma LexSpellsInput(s: string)
    requires NoSentinel(s) && Lex(s).Ok?
    ensures var ts := Lex(s).value; Spelling(ts[..|ts| - 1]) == RemoveWhitespace(s)
  {
    var ts := Lex(s).value;
    TokenizeSpelling(s, 0, ts);
    TokenizeShape(s, 0);
    assert s[0..] == s;
    SpellingWithoutLast(ts);
  }

  /** A character that can occur in accepted input. */
  predicate IsInputChar(c: char) {
    IsWhitespace(c) || IsDigit(c) || c == '.' || IsSymbol(c)
  }

  lemma NextTokenChars(input: string, p: nat)
    requires p <= |input| && NextToken(input, p).Ok?
    ensures forall i :: p <= i < NextToken(input, p).value.next ==> IsInputChar(input[i])
  {
    var w := SkipWs(input, p);
    var c := CharAt(input, w);
    if IsDigit(c) {
      var a := DigitRunEnd(input, w);
      assert forall i :: w <= i < a ==> IsDigit(input[i]);
      if NumberEnd(input, w) != a {
        assert forall i :: a + 1 <= i < NumberEnd(input, w) ==> IsDigit(input[i]);
      }
    }
  }

  /** A successful scan of an input without '\0' reads only whitespace,
      digits, '.' and the six symbols; any other character makes it fail. */
  lemma {:induction false} TokenizeReadsOnlyInputChars(input: string, p: nat)
    requires p <= |input| && NoSentinel(input) && TokenizeFrom(input, p).Ok?
    ensures forall i :: p <= i < |input| ==> IsInputChar(input[i])
    decreases |input| - p
  {
    NextTokenChars(input, p);
    NextTokenText(input, p);
    var Lexed(t, q) := NextToken(input, p).value;
    if t.kind != Eof {
      TokenizeReadsOnlyInputChars(input, q);
    }
  }

  /** An input without '\0' holding any character other than whitespace,
      digits, '.' and `+ - * / ( )` does not lex. */
  lemma ForeignCharacterFails(s: string, i: nat)
    requires NoSentinel(s) && i < |s| && !IsInputChar(s[i])
    ensures Lex(s).Err?
  {
    if Lex(s).Ok? {
      TokenizeReadsOnlyInputChars(s, 0);
    }
  }
}
