/** Text helpers shared by the model: ASCII lower-casing (Python's `str.lower` on
    ASCII input, used by the form cleaners and the `iexact` lookup) and the decimal
    text of an amount held as integer cents (`str` of a `Decimal` with two places). */
module Text {
  import opened Wrappers

  function LowerChar(c: char): (r: char)
    ensures 'A' <= c <= 'Z' ==> 'a' <= r <= 'z' && r as int == c as int + 32
    ensures !('A' <= c <= 'Z') ==> r == c
  {
    if 'A' <= c <= 'Z' then (c as int + 32) as char else c
  }

  /** Lower-cases every ASCII letter and keeps every other character. */
  function Lower(s: string): (r: string)
    ensures |r| == |s|
    ensures forall i :: 0 <= i < |s| ==> r[i] == LowerChar(s[i])
  {
    seq(|s|, i requires 0 <= i < |s| => LowerChar(s[i]))
  }

  predicate IsLowerCase(s: string) {
    forall i :: 0 <= i < |s| ==> !('A' <= s[i] <= 'Z')
  }

  /** Lower-casing is idempotent and yields text with no upper-case letters. */
  lemma LowerIsLowerCase(s: string)
    ensures IsLowerCase(Lower(s))
    ensures Lower(Lower(s)) == Lower(s)
  {
  }

  /** Text that has no upper-case letter is its own lower-case form. */
  lemma LowerOfLowerCase(s: string)
    requires IsLowerCase(s)
    ensures Lower(s) == s
  {
  }

  predicate IsDigit(c: char) {
    '0' <= c <= '9'
  }

  predicate AllDigits(s: string) {
    forall i :: 0 <= i < |s| ==> IsDigit(s[i])
  }

  function DigitChar(d: nat): (c: char)
    requires d < 10
    ensures IsDigit(c) && c as int - '0' as int == d
  {
    ('0' as int + d) as char
  }

  /** The decimal digits of `n`, most significant first, without leading zeros. */
  function NatText(n: nat): (s: string)
    ensures 1 <= |s| && AllDigits(s)
    decreases n
  {
    if n < 10 then [DigitChar(n)] else NatText(n / 10) + [DigitChar(n % 10)]
  }

  /** The number a non-empty string of decimal digits denotes. */
  function DigitsValue(s: string): nat
    requires AllDigits(s)
  {
    if s == [] then 0
    else DigitsValue(s[..|s| - 1]) * 10 + (s[|s| - 1] as int - '0' as int)
  }

  lemma {:induction false} NatTextRoundTrip(n: nat)
    ensures DigitsValue(NatText(n)) == n
    decreases n
  {
    if n >= 10 {
      var s := NatText(n);
      assert s[..|s| - 1] == NatText(n / 10);
      NatTextRoundTrip(n / 10);
    }
  }

  lemma TwoDigitsValue(a: nat, b: nat)
    requires a < 10 && b < 10
    ensures DigitsValue([DigitChar(a), DigitChar(b)]) == a * 10 + b
  {
    var s := [DigitChar(a), DigitChar(b)];
    var t := [DigitChar(a)];
    assert s[..|s| - 1] == t;
    assert t[..|t| - 1] == [];
    assert DigitsValue(t) == a;
  }

  /** `str(Decimal)` of an amount with two decimal places, e.g. 500 cents is "5.00"
      and -350 cents is "-3.50". */
  function CentsText(c: int): (s: string)
    ensures 4 <= |s| && s[|s| - 3] == '.'
  {
    var m := if c < 0 then -c else c;
    (if c < 0 then "-" else "") + NatText(m / 100) + "." + [DigitChar(m % 100 / 10), DigitChar(m % 10)]
  }

  /** Reads back the text `CentsText` produces: an optional minus sign, the whole
      units, a point and exactly two digits. */
  function ParseCents(s: string): (r: Option<int>)
  {
    if |s| < 4 || s[|s| - 3] != '.' then None
    else
      var neg := s[0] == '-';
      var units := if neg then s[1..|s| - 3] else s[..|s| - 3];
      var frac := s[|s| - 2..];
      if units == [] || !AllDigits(units) || !AllDigits(frac) then None
      else
        var m := DigitsValue(units) * 100 + DigitsValue(frac);
        Some(if neg then -m else m)
  }

  /** The pieces `ParseCents` reads from the text of an amount: a leading minus
      exactly for negative amounts, the whole units and the two fraction digits. */
  lemma CentsTextParts(c: int)
    ensures var m := if c < 0 then -c else c; var s := CentsText(c);
      (s[0] == '-' <==> c < 0) &&
      (if c < 0 then s[1..|s| - 3] else s[..|s| - 3]) == NatText(m / 100) &&
      s[|s| - 2..] == [DigitChar(m % 100 / 10), DigitChar(m % 10)]
  {
    var m := if c < 0 then -c else c;
    var units := NatText(m / 100);
    var frac := [DigitChar(m % 100 / 10), DigitChar(m % 10)];
    var s := CentsText(c);
    if c < 0 {
      assert s == "-" + units + "." + frac;
    } else {
      assert s == units + "." + frac;
      assert s[0] == units[0];
    }
  }

  /** The two-decimal text of an amount reads back as the same amount. */
  lemma CentsTextRoundTrip(c: int)
    ensures ParseCents(CentsText(c)) == Some(c)
  {
    var m := if c < 0 then -c else c;
    CentsTextParts(c);
    NatTextRoundTrip(m / 100);
    TwoDigitsValue(m % 100 / 10, m % 10);
    assert m % 100 == (m % 100 / 10) * 10 + m % 10;
  }
}
