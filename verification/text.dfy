/** String helpers: ASCII case mapping, substring search, and decimal
    rendering of integers (as in f-strings). */
module Text {
  import opened Py

  function LowerChar(c: char): char
  {
    if 'A' <= c <= 'Z' then (c as int + 32) as char else c
  }

  function UpperChar(c: char): char
  {
    if 'a' <= c <= 'z' then (c as int - 32) as char else c
  }

  /** `s.lower()` on ASCII letters. */
  function Lower(s: string): (r: string)
    ensures |r| == |s|
    ensures forall i :: 0 <= i < |s| ==> r[i] == LowerChar(s[i])
  {
    seq(|s|, i requires 0 <= i < |s| => LowerChar(s[i]))
  }

  /** `s.upper()` on ASCII letters. */
  function Upper(s: string): (r: string)
    ensures |r| == |s|
    ensures forall i :: 0 <= i < |s| ==> r[i] == UpperChar(s[i])
  {
    seq(|s|, i requires 0 <= i < |s| => UpperChar(s[i]))
  }

  predicate OccursAt(s: string, sub: string, i: nat)
  {
    i + |sub| <= |s| && s[i..i + |sub|] == sub
  }

  /** Python's `sub in s` on strings. */
  predicate Contains(s: string, sub: string)
  {
    exists i: nat | i <= |s| :: OccursAt(s, sub, i)
  }

  function DigitChar(d: nat): (c: char)
    requires d < 10
    ensures '0' <= c <= '9' && DigitValue(c) == d
  {
    ('0' as int + d) as char
  }

  /** The decimal digits of `n`, as `str(n)` renders a non-negative int. */
  function NatToString(n: nat): (s: string)
    ensures |s| > 0 && AllDigits(s)
  {
    if n < 10 then [DigitChar(n)] else NatToString(n / 10) + [DigitChar(n % 10)]
  }

  /** `str(n)` for any int. */
  function IntToString(n: int): string
  {
    if n < 0 then "-" + NatToString(-n) else NatToString(n)
  }

  /** Reading back the rendered digits gives the number again. */
  lemma {:induction false} DigitsOfNatToString(n: nat)
    ensures DigitsValue(NatToString(n)) == n
  {
    if n >= 10 {
      var s := NatToString(n);
      assert s[..|s| - 1] == NatToString(n / 10);
      DigitsOfNatToString(n / 10);
    }
  }

  /** `float(str(n))` recovers `n`: the integer rendering and the decimal
      parser are inverse. */
  lemma ParseNatToString(n: nat)
    ensures ParseDecimal(NatToString(n)) == Some(n as real)
  {
    ParseDigits(NatToString(n));
    DigitsOfNatToString(n);
  }

  /** A non-empty run of digits parses as its value. */
  lemma ParseDigits(s: string)
    requires |s| > 0 && AllDigits(s)
    ensures ParseDecimal(s) == Some(DigitsValue(s) as real)
  {
    assert s[0] != '-' && s[0] != '+';
    UnsignedDigits(s);
  }

  lemma UnsignedDigits(s: string)
    requires |s| > 0 && AllDigits(s)
    ensures ParseUnsigned(s) == Some(DigitsValue(s) as real)
  {
    UnsignedNoDot(s);
    MagnitudeWhole(s);
  }

  lemma UnsignedNoDot(s: string)
    requires |s| > 0 && AllDigits(s)
    ensures ParseUnsigned(s) == Some(Magnitude(s, ""))
  {
    NoDotInDigits(s);
    assert s[..DotIndex(s)] == s;
  }

  lemma MagnitudeWhole(s: string)
    requires AllDigits(s)
    ensures Magnitude(s, "") == DigitsValue(s) as real
  {
    assert DigitsValue("") == 0 && Pow10(0) == 1;
  }

  lemma NoDotInDigits(s: string)
    requires AllDigits(s)
    ensures DotIndex(s) == |s|
  {
    forall j | 0 <= j < |s| ensures s[j] != '.' {
      assert '0' <= s[j] <= '9';
    }
    DotIndexNone(s);
  }

  lemma DotIndexNone(s: string)
    requires forall j :: 0 <= j < |s| ==> s[j] != '.'
    ensures DotIndex(s) == |s|
  {
  }
}
