/** Tokens as the lexer hands them to the parser (Token.java, TokenType.java).
    A token is an immutable value: a kind and an optional text. */
module Tokens {
  import opened Outcomes

  /** The eight token kinds, in the order TokenType declares them. */
  datatype TokenKind = Number | Plus | Minus | Multiply | Divide | LParen | RParen | Eof

  /** The two-argument constructor of Token; `value` stands for the Java
      reference that may be null. */
  datatype Token = Token(kind: TokenKind, value: Option<string>)

  /** The one-argument constructor: a token that carries no text. */
  function WithoutValue(kind: TokenKind): (t: Token)
    ensures t.kind == kind && t.value == None
  {
    Token(kind, None)
  }

  /** The name Java's enum prints for a kind. */
  function KindName(k: TokenKind): (name: string)
    ensures |name| > 0 && AllUpper(name)
  {
    match k
    case Number => "NUMBER"
    case Plus => "PLUS"
    case Minus => "MINUS"
    case Multiply => "MULTIPLY"
    case Divide => "DIVIDE"
    case LParen => "LPAREN"
    case RParen => "RPAREN"
    case Eof => "EOF"
  }

  predicate IsUpper(c: char) {
    'A' <= c <= 'Z'
  }

  predicate AllUpper(s: string) {
    forall i :: 0 <= i < |s| ==> IsUpper(s[i])
  }

  /** The printed form of a token: `Token(KIND, 'text')`, or `Token(KIND)`
      when it carries no text. */
  function ToString(t: Token): (s: string)
    ensures |s| > |"Token()"| && s[..6] == "Token(" && s[|s| - 1] == ')'
    ensures t.value.Some? <==> s[|s| - 2] == '\''
  {
    match t.value
    case Some(v) => "Token(" + KindName(t.kind) + ", '" + v + "')"
    case None => "Token(" + KindName(t.kind) + ")"
  }

  /** The text after the kind name in the printed form. */
  function Suffix(t: Token): (s: string)
    ensures |s| > 0 && !IsUpper(s[0])
    ensures ToString(t) == "Token(" + (KindName(t.kind) + s)
  {
    match t.value
    case Some(v) =>
      var s := ", '" + v + "')";
      assert ToString(t) == "Token(" + KindName(t.kind) + s;
      s
    case None => ")"
  }

  lemma KindNameInjective(k1: TokenKind, k2: TokenKind)
    requires KindName(k1) == KindName(k2)
    ensures k1 == k2
  {
  }

  /** Two upper-case words, each followed by text that does not start with
      an upper-case letter, can be told apart from the concatenation. */
  lemma SplitAtWordEnd(a: string, x: string, b: string, y: string)
    requires AllUpper(a) && AllUpper(b)
    requires |x| > 0 && !IsUpper(x[0]) && |y| > 0 && !IsUpper(y[0])
    requires a + x == b + y
    ensures a == b && x == y
  {
    var n := if |a| < |b| then |a| else |b|;
    assert (a + x)[n] == (b + y)[n];
    assert IsUpper((a + x)[n]) <==> n < |a|;
    assert IsUpper((b + y)[n]) <==> n < |b|;
    assert a == (a + x)[..|a|] && b == (b + y)[..|b|];
    assert x == (a + x)[|a|..] && y == (b + y)[|b|..];
  }

  /** The printed form determines the token: different tokens never print
      alike. */
  lemma ToStringInjective(t1: Token, t2: Token)
    requires ToString(t1) == ToString(t2)
    ensures t1 == t2
  {
    var x1, x2 := Suffix(t1), Suffix(t2);
    AfterPrefix(KindName(t1.kind) + x1, KindName(t2.kind) + x2);
    SplitAtWordEnd(KindName(t1.kind), x1, KindName(t2.kind), x2);
    KindNameInjective(t1.kind, t2.kind);
    SuffixInjective(t1, t2);
  }

  lemma AfterPrefix(u: string, v: string)
    requires "Token(" + u == "Token(" + v
    ensures u == v
  {
    assert u == ("Token(" + u)[6..];
    assert v == ("Token(" + v)[6..];
  }

  lemma SuffixInjective(t1: Token, t2: Token)
    requires Suffix(t1) == Suffix(t2)
    ensures t1.value == t2.value
  {
    var x1, x2 := Suffix(t1), Suffix(t2);
    assert x1[0] == ',' <==> t1.value.Some?;
    assert x2[0] == ',' <==> t2.value.Some?;
    if t1.value.Some? && t2.value.Some? {
      assert t1.value.value == x1[3..|x1| - 2];
      assert t2.value.value == x2[3..|x2| - 2];
    }
  }
}
