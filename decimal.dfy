/** Decimal digit strings: the code's `(\d+)$` match (ASCII digits only),
    `parseInt(s, 10)`, `Number.prototype.toString()` on a non-negative
    integer and `String.prototype.padStart`. */
module Decimal {

  predicate IsDigit(c: char) {
    '0' <= c <= '9'
  }

  predicate AllDigits(s: string) {
    forall i :: 0 <= i < |s| ==> IsDigit(s[i])
  }

  function DigitValue(c: char): (d: nat)
    requires IsDigit(c)
    ensures d < 10
  {
    c as int - '0' as int
  }

  function DigitChar(d: nat): (c: char)
    requires d < 10
    ensures IsDigit(c) && DigitValue(c) == d
  {
    ('0' as int + d) as char
  }

  function Pow10(n: nat): (p: nat)
    ensures p >= 1
  {
    if n == 0 then 1 else 10 * Pow10(n - 1)
  }

  /** The value of a digit string read most significant digit first; the
      empty string reads as 0. */
  function ParseDigits(s: string): (v: nat)
    requires AllDigits(s)
    ensures v == 0 <==> forall i :: 0 <= i < |s| ==> s[i] == '0'
  {
    if s == [] then 0 else 10 * ParseDigits(s[..|s| - 1]) + DigitValue(s[|s| - 1])
  }

  /** The shortest decimal spelling of `n`. */
  function NatToDecimal(n: nat): (s: string)
    ensures |s| >= 1 && AllDigits(s)
    ensures s[0] != '0' || s == "0"
  {
    if n < 10 then [DigitChar(n)] else NatToDecimal(n / 10) + [DigitChar(n % 10)]
  }

  /** `s` left-padded with `c` to `width` characters; never truncated. */
  function PadStart(s: string, width: nat, c: char): (r: string)
    ensures |r| == if width <= |s| then |s| else width
    ensures r[|r| - |s|..] == s
    ensures forall i :: 0 <= i < |r| - |s| ==> r[i] == c
  {
    if width <= |s| then s else seq(width - |s|, _ => c) + s
  }

  /** Where the maximal run of digits at the end of `s` begins (|s| if `s`
      does not end in a digit). */
  function TrailingDigitsStart(s: string): (k: nat)
    ensures k <= |s|
    ensures AllDigits(s[k..])
    ensures k == 0 || !IsDigit(s[k - 1])
  {
    if s == [] || !IsDigit(s[|s| - 1]) then |s|
    else
      var k := TrailingDigitsStart(s[..|s| - 1]);
      assert s[k..] == s[..|s| - 1][k..] + [s[|s| - 1]];
      k
  }

  /** The two conditions of TrailingDigitsStart's contract pin the start down:
      any position satisfying them is that start. */
  lemma {:induction false} TrailingDigitsStartUnique(s: string, k: nat)
    requires k <= |s| && AllDigits(s[k..])
    requires k == 0 || !IsDigit(s[k - 1])
    ensures TrailingDigitsStart(s) == k
    decreases |s|
  {
    if s != [] && IsDigit(s[|s| - 1]) {
      var t := s[..|s| - 1];
      assert k < |s|;
      assert t[k..] == s[k..|s| - 1];
      assert forall i :: 0 <= i < |t| - k ==> t[k..][i] == s[k..][i];
      assert k == 0 || t[k - 1] == s[k - 1];
      TrailingDigitsStartUnique(t, k);
    }
  }

  lemma {:induction false} ParseDigitsConcat(a: string, b: string)
    requires AllDigits(a) && AllDigits(b)
    ensures AllDigits(a + b)
    ensures ParseDigits(a + b) == ParseDigits(a) * Pow10(|b|) + ParseDigits(b)
    decreases |b|
  {
    assert AllDigits(a + b) by {
      forall i | 0 <= i < |a + b| ensures IsDigit((a + b)[i]) {
        if i >= |a| { assert (a + b)[i] == b[i - |a|]; }
      }
    }
    if b == [] {
      assert a + b == a;
    } else {
      var b' := b[..|b| - 1];
      var d := DigitValue(b[|b| - 1]);
      assert (a + b)[..|a + b| - 1] == a + b';
      assert (a + b)[|a + b| - 1] == b[|b| - 1];
      assert AllDigits(b');
      ParseDigitsConcat(a, b');
      var x, y, p := ParseDigits(a), ParseDigits(b'), Pow10(|b'|);
      var xy := ParseDigits(a + b');
      assert ParseDigits(a + b) == 10 * xy + d;
      assert ParseDigits(b) == 10 * y + d;
      assert Pow10(|b|) == 10 * p;
      ShiftLeft(x, p);
    }
  }

  lemma ShiftLeft(x: int, p: int)
    ensures x * (10 * p) == 10 * (x * p)
  {
  }

  /** Reading back the decimal spelling of `n` gives `n`. */
  lemma {:induction false} ParseNatToDecimal(n: nat)
    ensures ParseDigits(NatToDecimal(n)) == n
  {
    if n < 10 {
      assert NatToDecimal(n)[..0] == [];
    } else {
      var s := NatToDecimal(n);
      assert s[..|s| - 1] == NatToDecimal(n / 10);
      ParseNatToDecimal(n / 10);
    }
  }

  /** Leading zeros do not change the value of a digit string. */
  lemma ParseZeroPadded(s: string, width: nat)
    requires AllDigits(s)
    ensures AllDigits(PadStart(s, width, '0'))
    ensures ParseDigits(PadStart(s, width, '0')) == ParseDigits(s)
  {
    if |s| < width {
      var z := seq(width - |s|, _ => '0');
      ZerosParseToZero(z);
      ParseDigitsConcat(z, s);
    }
  }

  lemma {:induction false} ZerosParseToZero(z: string)
    requires forall i :: 0 <= i < |z| ==> z[i] == '0'
    ensures AllDigits(z) && ParseDigits(z) == 0
  {
    if z != [] {
      ZerosParseToZero(z[..|z| - 1]);
    }
  }
}
