/** format_duration (telegram_bot.py:19-23): seconds shown as minutes, a colon and two-digit seconds. */
module Durations {
  import opened Decimal

  /** f"{d // 60}:{d % 60:02d}" for a whole, non-negative number of seconds d. */
  function FormatDuration(seconds: nat): string
  {
    NatToDecimal(seconds / 60) + ":" + ZeroPad(NatToDecimal(seconds % 60), 2)
  }

  /**
   * The layout of format_duration's text: minutes in decimal without
   * leading zeros, a colon, and exactly two digits of seconds.
   */
  lemma FormatDurationLayout(seconds: nat)
    ensures var r := FormatDuration(seconds);
      && |r| >= 4 && r[|r| - 3] == ':'
      && AllDigits(r[..|r| - 3]) && AllDigits(r[|r| - 2..])
      && (r[0] == '0' ==> r[..|r| - 3] == "0")
  {
    var minutes := NatToDecimal(seconds / 60);
    var secs := ZeroPad(NatToDecimal(seconds % 60), 2);
    ZeroPadShape(NatToDecimal(seconds % 60), 2);
    LayoutAroundColon(minutes, secs);
    assert FormatDuration(seconds) == minutes + ":" + secs;
  }

  lemma LayoutAroundColon(a: string, b: string)
    requires |a| >= 1 && |b| == 2 && AllDigits(a) && AllDigits(b)
    requires a[0] == '0' ==> a == "0"
    ensures var r := a + ":" + b;
      && |r| >= 4 && r[|r| - 3] == ':'
      && AllDigits(r[..|r| - 3]) && AllDigits(r[|r| - 2..])
      && (r[0] == '0' ==> r[..|r| - 3] == "0")
  {
    var r := a + ":" + b;
    assert r[..|r| - 3] == a;
    assert r[|r| - 2..] == b;
  }

  /**
   * Read back, the two numbers in format_duration's text are the minutes
   * and the seconds below 60 that make up d: minutes * 60 + seconds == d.
   */
  lemma FormatDurationValue(seconds: nat)
    ensures var r := FormatDuration(seconds);
      && |r| >= 4
      && AllDigits(r[..|r| - 3]) && AllDigits(r[|r| - 2..])
      && DecimalValue(r[|r| - 2..]) < 60
      && DecimalValue(r[..|r| - 3]) * 60 + DecimalValue(r[|r| - 2..]) == seconds
  {
    var m, s := seconds / 60, seconds % 60;
    var minutes := NatToDecimal(m);
    var secs := ZeroPad(NatToDecimal(s), 2);
    DecimalRoundTrip(m);
    DecimalRoundTrip(s);
    ZeroPadShape(NatToDecimal(s), 2);
    ZeroPadValue(NatToDecimal(s), 2);
    ReadAroundColon(minutes, secs, m, s);
    var r := FormatDuration(seconds);
    assert r == minutes + ":" + secs;
    MinutesAndSeconds(seconds, DecimalValue(r[..|r| - 3]), DecimalValue(r[|r| - 2..]));
  }

  /** Digits read back unchanged from either side of the colon. */
  lemma ReadAroundColon(a: string, b: string, m: nat, s: nat)
    requires |a| >= 1 && |b| == 2 && AllDigits(a) && AllDigits(b)
    requires DecimalValue(a) == m && DecimalValue(b) == s
    ensures var r := a + ":" + b;
      && |r| >= 4
      && AllDigits(r[..|r| - 3]) && AllDigits(r[|r| - 2..])
      && DecimalValue(r[..|r| - 3]) == m && DecimalValue(r[|r| - 2..]) == s
  {
    var r := a + ":" + b;
    assert r[..|r| - 3] == a;
    assert r[|r| - 2..] == b;
  }

  lemma MinutesAndSeconds(seconds: nat, minutes: nat, secs: nat)
    requires minutes == seconds / 60 && secs == seconds % 60
    ensures minutes * 60 + secs == seconds && secs < 60
  {
  }

  /** A duration is digits and one colon, so it never holds a line break. */
  lemma DurationHasNoNewline(seconds: nat)
    ensures '\n' !in FormatDuration(seconds)
  {
    var minutes := NatToDecimal(seconds / 60);
    var secs := ZeroPad(NatToDecimal(seconds % 60), 2);
    ZeroPadShape(NatToDecimal(seconds % 60), 2);
    DigitsAroundColon(minutes, secs);
  }

  lemma DigitsAroundColon(a: string, b: string)
    requires AllDigits(a) && AllDigits(b)
    ensures '\n' !in a + ":" + b
  {
    var r := a + ":" + b;
    forall i | 0 <= i < |r| ensures r[i] != '\n' {
      if i < |a| {
        assert r[i] == a[i];
      } else if i > |a| {
        assert r[i] == b[i - |a| - 1];
      }
    }
  }

  /** A sample value: 125 gives "2:05". */
  lemma FormatDurationExample125()
    ensures FormatDuration(125) == "2:05"
  {
    MinutesAndSeconds(125, 2, 5);
    assert DigitChar(2) == '2' && DigitChar(5) == '5';
    assert NatToDecimal(2) == "2" && NatToDecimal(5) == "5";
    assert ZeroPad("5", 1) == "5" && ZeroPad("5", 2) == "05";
  }

  /** 59 gives "0:59". */
  lemma FormatDurationExample59()
    ensures FormatDuration(59) == "0:59"
  {
    MinutesAndSeconds(59, 0, 59);
    assert DigitChar(0) == '0' && DigitChar(5) == '5' && DigitChar(9) == '9';
    assert NatToDecimal(0) == "0" && NatToDecimal(5) == "5";
    assert NatToDecimal(59) == "59";
    assert ZeroPad("59", 2) == "59";
  }

  /** 0 gives "0:00". */
  lemma FormatDurationExample0()
    ensures FormatDuration(0) == "0:00"
  {
    assert DigitChar(0) == '0';
    assert NatToDecimal(0) == "0";
    assert ZeroPad("0", 1) == "0" && ZeroPad("0", 2) == "00";
  }
}
