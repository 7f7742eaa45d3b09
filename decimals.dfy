/** Decimal literals: the shape the lexer gives a NUMBER lexeme,
    `digit+ ('.' digit+)?`, and its exact value. The value stands in for
    `Double.parseDouble` on such lexemes, without the rounding to a double. */
module Decimals {

  /** ASCII decimal digits only. */
  predicate IsDigit(c: char) {
    '0' <= c <= '9'
  }

  /** A non-empty run of digits. */
  predicate IsDigits(s: string) {
    |s| > 0 && forall i :: 0 <= i < |s| ==> IsDigit(s[i])
  }

  /** The position of the first '.' in `s`, or `|s|` when there is none. */
  function DotIndex(s: string): (k: nat)
    ensures k <= |s|
    ensures k < |s| ==> s[k] == '.'
    ensures forall i :: 0 <= i < k ==> s[i] != '.'
  {
    if s == [] then 0
    else if s[0] == '.' then 0
    else 1 + DotIndex(s[1..])
  }

  /** `digit+ ('.' digit+)?` */
  predicate IsNumberLexeme(s: string) {
    var k := DotIndex(s);
    IsDigits(s[..k]) && (k == |s| || IsDigits(s[k + 1..]))
  }

  function DigitValue(c: char): (d: nat)
    requires IsDigit(c)
    ensures d < 10
  {
    c as int - '0' as int
  }

  /** The value of a digit string read in base ten. */
  function DigitsValue(s: string): nat
    requires forall i :: 0 <= i < |s| ==> IsDigit(s[i])
  {
    if s == [] then 0 else 10 * DigitsValue(s[..|s| - 1]) + DigitValue(s[|s| - 1])
  }

  function Pow10(n: nat): (p: nat)
    ensures p >= 1
  {
    if n == 0 then 1 else 10 * Pow10(n - 1)
  }

  /** The exact value of a NUMBER lexeme: its integer part plus its
      fraction digits scaled down by their count. */
  function DecimalValue(s: string): real
    requires IsNumberLexeme(s)
  {
    var k := DotIndex(s);
    var whole := DigitsValue(s[..k]) as real;
    if k == |s| then whole else whole + FractionValue(s[k + 1..])
  }

  /** Fraction digits read in base ten and scaled down by their count. */
  function FractionValue(digits: string): real
    requires forall i :: 0 <= i < |digits| ==> IsDigit(digits[i])
  {
    DigitsValue(digits) as real / Pow10(|digits|) as real
  }

  /** `n` digits read in base ten stay below ten to the `n`. */
  lemma {:induction false} DigitsValueBelow(s: string)
    requires forall i :: 0 <= i < |s| ==> IsDigit(s[i])
    ensures DigitsValue(s) < Pow10(|s|)
  {
    if s != [] {
      DigitsValueBelow(s[..|s| - 1]);
    }
  }

  /** A run of digits is a lexeme whose value is the integer it spells. */
  lemma WholeLexeme(whole: string)
    requires IsDigits(whole)
    ensures IsNumberLexeme(whole) && DotIndex(whole) == |whole|
    ensures DecimalValue(whole) == DigitsValue(whole) as real
  {
    DotAfterDigits(whole, whole);
    assert whole[..|whole|] == whole;
  }

  /** Digits, a '.', and digits form a lexeme whose value is its integer
      part plus its fraction digits scaled down by their count, and so lies
      between the integer part and the next integer. */
  lemma FractionLexeme(whole: string, fraction: string)
    requires IsDigits(whole) && IsDigits(fraction)
    ensures var s := whole + "." + fraction;
      && IsNumberLexeme(s)
      && DotIndex(s) == |whole|
      && DecimalValue(s) == DigitsValue(whole) as real + DigitsValue(fraction) as real / Pow10(|fraction|) as real
      && DigitsValue(whole) as real <= DecimalValue(s) < DigitsValue(whole) as real + 1.0
  {
    var s := whole + "." + fraction;
    FractionSplit(whole, fraction, s);
    DigitsValueBelow(fraction);
    FractionBelowOne(DigitsValue(fraction), Pow10(|fraction|));
  }

  /** The dot of `whole + "." + fraction` sits right after `whole`, and the
      two sides are the operands of `DecimalValue`. */
  lemma FractionSplit(whole: string, fraction: string, s: string)
    requires IsDigits(whole) && IsDigits(fraction)
    requires s == whole + "." + fraction
    ensures DotIndex(s) == |whole| && IsNumberLexeme(s)
    ensures DecimalValue(s) == DigitsValue(whole) as real + FractionValue(fraction)
  {
    DotAfterDigits(whole, s);
    assert s[..|whole|] == whole;
    assert s[|whole| + 1..] == fraction;
  }

  lemma FractionBelowOne(f: nat, p: nat)
    requires f < p
    ensures 0.0 <= f as real / p as real < 1.0
  {
  }

  /** The first '.' of a string that starts with a run of digits comes after
      that run. */
  lemma DotAfterDigits(whole: string, s: string)
    requires IsDigits(whole)
    requires |whole| <= |s| && s[..|whole|] == whole
    requires |whole| < |s| ==> s[|whole|] == '.'
    ensures DotIndex(s) == |whole|
  {
  }
}
