/**
 * Decimal notation of non-negative integers: Python's str() of an int,
 * int() of a string of ASCII digits, and the zero padding of the format
 * specification `0<width>d`.
 */
module Decimal {

  predicate IsDigit(c: char) {
    '0' <= c <= '9'
  }

  predicate AllDigits(s: string) {
    forall i :: 0 <= i < |s| ==> IsDigit(s[i])
  }

  function DigitChar(n: nat): (c: char)
    requires n < 10
    ensures IsDigit(c)
  {
    ('0' as int + n) as char
  }

  function DigitValue(c: char): (n: nat)
    requires IsDigit(c)
    ensures n < 10
  {
    c as int - '0' as int
  }

  /** The number a string of digits denotes; leading zeros are allowed, as int() allows them. */
  function DecimalValue(s: string): nat
    requires AllDigits(s)
  {
    if s == [] then 0 else DecimalValue(s[..|s| - 1]) * 10 + DigitValue(s[|s| - 1])
  }

  /** str(n): digits without leading zeros ("0" for zero). */
  function NatToDecimal(n: nat): (r: string)
    ensures |r| >= 1 && AllDigits(r)
    ensures r[0] == '0' ==> r == "0"
    ensures n < 10 ==> |r| == 1
    ensures 10 <= n < 100 ==> |r| == 2
  {
    if n < 10 then [DigitChar(n)] else NatToDecimal(n / 10) + [DigitChar(n % 10)]
  }

  /** int(str(n)) == n. */
  lemma {:induction false} DecimalRoundTrip(n: nat)
    ensures DecimalValue(NatToDecimal(n)) == n
  {
    var r := NatToDecimal(n);
    if n >= 10 {
      DecimalRoundTrip(n / 10);
      assert r[..|r| - 1] == NatToDecimal(n / 10);
    }
  }

  /** Left-pads s with '0' up to the given width (`format(n, "02d")` for width 2). */
  function ZeroPad(s: string, width: nat): string
  {
    if |s| >= width then s else "0" + ZeroPad(s, width - 1)
  }

  /** k copies of '0'. */
  function Zeros(k: nat): string {
    seq(k, _ => '0')
  }

  /** ZeroPad puts exactly the missing number of '0's in front of s. */
  lemma {:induction false} ZeroPadZeros(s: string, width: nat)
    ensures ZeroPad(s, width) == Zeros(if |s| < width then width - |s| else 0) + s
  {
    if |s| < width {
      ZeroPadZeros(s, width - 1);
      var k := width - |s|;
      assert "0" + Zeros(k - 1) == Zeros(k);
    } else {
      assert Zeros(0) + s == s;
    }
  }

  /** The padded string is s behind just enough '0's to reach the width. */
  lemma ZeroPadShape(s: string, width: nat)
    ensures var r := ZeroPad(s, width);
      && |r| == (if |s| < width then width else |s|)
      && r[|r| - |s|..] == s
      && (forall i :: 0 <= i < |r| - |s| ==> r[i] == '0')
      && (AllDigits(s) ==> AllDigits(r))
  {
    var k := if |s| < width then width - |s| else 0;
    ZeroPadZeros(s, width);
    var r := Zeros(k) + s;
    assert r[k..] == s;
    assert forall i :: 0 <= i < k ==> r[i] == '0';
    if AllDigits(s) {
      forall i | 0 <= i < |r| ensures IsDigit(r[i]) {
        if i >= k {
          assert r[i] == s[i - k];
        }
      }
    }
  }

  /** Zero padding does not change the value. */
  lemma {:induction false} ZeroPadValue(s: string, width: nat)
    requires AllDigits(s)
    ensures AllDigits(ZeroPad(s, width)) && DecimalValue(ZeroPad(s, width)) == DecimalValue(s)
  {
    ZeroPadShape(s, width);
    if |s| < width {
      ZeroPadValue(s, width - 1);
      LeadingZero(ZeroPad(s, width - 1));
    }
  }

  /** A leading zero does not change the value. */
  lemma {:induction false} LeadingZero(s: string)
    requires AllDigits(s)
    ensures AllDigits("0" + s) && DecimalValue("0" + s) == DecimalValue(s)
  {
    var t := "0" + s;
    if s != [] {
      assert t[..|t| - 1] == "0" + s[..|s| - 1];
      LeadingZero(s[..|s| - 1]);
    } else {
      assert t[..|t| - 1] == [];
    }
  }

  /** A digit string denotes zero exactly when all its digits are '0'. */
  lemma {:induction false} ZeroValue(s: string)
    requires AllDigits(s)
    ensures DecimalValue(s) == 0 <==> forall i :: 0 <= i < |s| ==> s[i] == '0'
  {
    if s != [] {
      var p := s[..|s| - 1];
      ZeroValue(p);
      assert forall i :: 0 <= i < |p| ==> p[i] == s[i];
      if DecimalValue(s) == 0 {
        assert forall i :: 0 <= i < |s| - 1 ==> s[i] == '0';
      }
    }
  }

  /**
   * The strings int() reads as a number below ten are exactly those whose
   * digits before the last are all '0'; the value is then the last digit.
   */
  lemma SingleDigitValue(s: string)
    requires |s| >= 1 && AllDigits(s)
    ensures DecimalValue(s) < 10 <==> forall i :: 0 <= i < |s| - 1 ==> s[i] == '0'
    ensures DecimalValue(s) < 10 ==> DecimalValue(s) == DigitValue(s[|s| - 1])
  {
    var p := s[..|s| - 1];
    ZeroValue(p);
    assert forall i :: 0 <= i < |p| ==> p[i] == s[i];
  }
}
