/**
 * The "m:ss" rendering of a duration in milliseconds that the summary
 * screen shows (src/components/SessionSummary.tsx). JavaScript's number
 * formatting, `%` and `padStart` are written out on integers.
 */
module Format {
  import opened Types

  predicate IsDigit(c: char) {
    '0' <= c <= '9'
  }

  predicate AllDigits(s: string) {
    forall i :: 0 <= i < |s| ==> IsDigit(s[i])
  }

  function DigitChar(d: int): (c: char)
    requires 0 <= d < 10
    ensures IsDigit(c) && c as int - '0' as int == d
  {
    (d + '0' as int) as char
  }

  function DigitValue(c: char): int
    requires IsDigit(c)
  {
    c as int - '0' as int
  }

  /** The number a string of decimal digits denotes, most significant first. */
  function DigitsValue(s: string): int
    requires AllDigits(s)
    decreases |s|
  {
    if s == [] then 0 else 10 * DigitsValue(s[..|s| - 1]) + DigitValue(s[|s| - 1])
  }

  /** `toString()` of a non-negative integer: its decimal digits, no leading zero. */
  function NatToString(n: nat): (s: string)
    ensures |s| >= 1 && AllDigits(s)
    ensures |s| > 1 ==> s[0] != '0'
    ensures n < 10 <==> |s| == 1
    ensures n < 100 ==> |s| <= 2
    decreases n
  {
    if n < 10 then [DigitChar(n)] else NatToString(n / 10) + [DigitChar(n % 10)]
  }

  /**
   * `toString()` of an integer: a minus sign before the digits of a
   * negative one. The digits read back as the magnitude.
   */
  function IntToString(i: int): (s: string)
    ensures |s| >= 1
    ensures i < 0 <==> s[0] == '-'
    ensures i >= 0 ==> AllDigits(s) && DigitsValue(s) == i
    ensures i < 0 ==> AllDigits(s[1..]) && DigitsValue(s[1..]) == -i
  {
    if i < 0 then
      NatToStringValue(-i);
      assert ("-" + NatToString(-i))[1..] == NatToString(-i);
      "-" + NatToString(-i)
    else
      NatToStringValue(i);
      NatToString(i)
  }

  /** `padStart(width, fill)` with a one-character fill. */
  function PadStart(s: string, width: nat, fill: char): (r: string)
    ensures |r| == if |s| >= width then |s| else width
    ensures r[|r| - |s|..] == s
    ensures forall i :: 0 <= i < |r| - |s| ==> r[i] == fill
  {
    if |s| >= width then s else seq(width - |s|, _ => fill) + s
  }

  /** Division rounded toward zero, as `Math.trunc(a / b)`. */
  function TruncDiv(a: int, b: int): int
    requires b > 0
  {
    if a < 0 then -((-a) / b) else a / b
  }

  /**
   * JavaScript's `%` by a positive divisor: what is left after taking
   * away the quotient rounded toward zero, so it is smaller than the
   * divisor in size and takes the dividend's sign.
   */
  function JsRem(a: int, b: int): (r: int)
    requires b > 0
    ensures a == b * TruncDiv(a, b) + r
    ensures -b < r < b
    ensures a >= 0 ==> r >= 0
    ensures a < 0 ==> r <= 0
  {
    if a < 0 then -((-a) % b) else a % b
  }

  /**
   * `formatMs`: whole seconds, rounded down, as minutes and two-digit
   * seconds. Division by a positive constant rounded down is Dafny's `/`.
   */
  function FormatMs(ms: int): (r: string)
    ensures |r| >= 1
    ensures ms < 0 <==> r[0] == '-'
  {
    var totalSeconds := ms / 1000;
    var minutes := totalSeconds / 60;
    var seconds := JsRem(totalSeconds, 60);
    IntToString(minutes) + ":" + PadStart(IntToString(seconds), 2, '0')
  }

  // ---------- reading a clock string back ----------

  datatype Clock = Clock(minutes: int, seconds: int)

  /** Reads "<digits>:<two digits>"; anything else is not a clock. */
  function ParseClock(s: string): Option<Clock> {
    if |s| >= 4 && s[|s| - 3] == ':' && AllDigits(s[..|s| - 3]) && AllDigits(s[|s| - 2..]) then
      Some(Clock(DigitsValue(s[..|s| - 3]), DigitsValue(s[|s| - 2..])))
    else
      None
  }

  /** The parser splits a joined clock text back into its two parts. */
  lemma ParseJoined(a: string, b: string)
    requires |a| >= 1 && AllDigits(a) && |b| == 2 && AllDigits(b)
    ensures ParseClock(a + ":" + b) == Some(Clock(DigitsValue(a), DigitsValue(b)))
  {
    var s := a + ":" + b;
    assert s[..|s| - 3] == a;
    assert s[|s| - 2..] == b;
  }

  lemma {:induction false} NatToStringValue(n: nat)
    ensures DigitsValue(NatToString(n)) == n
    decreases n
  {
    if n >= 10 {
      var s := NatToString(n);
      assert s[..|s| - 1] == NatToString(n / 10);
      NatToStringValue(n / 10);
    }
  }

  /** Seconds below a minute always take exactly two digits after padding. */
  lemma PaddedSeconds(sec: int)
    requires 0 <= sec < 60
    ensures var p := PadStart(IntToString(sec), 2, '0');
      |p| == 2 && AllDigits(p) && DigitsValue(p) == sec
  {
    var p := PadStart(IntToString(sec), 2, '0');
    if sec < 10 {
      assert p == ['0', DigitChar(sec)];
      assert p[..1] == ['0'];
      assert ['0'][..0] == [];
    } else {
      NatToStringValue(sec);
    }
  }

  lemma FormatNonNegative(ms: int)
    requires ms >= 0
    ensures FormatMs(ms) == IntToString(ms / 1000 / 60) + ":" + PadStart(IntToString(ms / 1000 % 60), 2, '0')
    ensures 60 * (ms / 1000 / 60) + ms / 1000 % 60 == ms / 1000
  {
  }

  /** Whole seconds, then whole minutes of those, is whole minutes. */
  lemma MinutesOfSeconds(ms: int)
    ensures ms / 1000 / 60 == ms / 60000
  {
    var q := ms / 1000;
    var p := q / 60;
    assert ms == 1000 * q + ms % 1000;
    assert q == 60 * p + q % 60;
    assert ms == 60000 * p + (1000 * (q % 60) + ms % 1000);
    assert 0 <= 1000 * (q % 60) + ms % 1000 < 60000;
  }

  /**
   * For a non-negative duration, the text reads back as the whole minutes
   * and the remaining seconds (below 60) of the duration's whole seconds.
   */
  lemma FormatMsRoundTrip(ms: int)
    requires ms >= 0
    ensures ParseClock(FormatMs(ms)).Some?
    ensures var c := ParseClock(FormatMs(ms)).value;
      && 0 <= c.seconds < 60
      && c.minutes == ms / 60000
      && 60 * c.minutes + c.seconds == ms / 1000
  {
    var totalSeconds := ms / 1000;
    var minutes := totalSeconds / 60;
    var seconds := totalSeconds % 60;
    var a := IntToString(minutes);
    var b := PadStart(IntToString(seconds), 2, '0');
    FormatNonNegative(ms);
    MinutesOfSeconds(ms);
    PaddedSeconds(seconds);
    NatToStringValue(minutes);
    ParseJoined(a, b);
  }

  /** Milliseconds below a whole second never show. */
  lemma FormatMsDropsMilliseconds(ms: int)
    ensures FormatMs(ms) == FormatMs(1000 * (ms / 1000))
  {
    assert 1000 * (ms / 1000) / 1000 == ms / 1000;
  }

  /** Two non-negative durations display alike exactly when they have the same whole seconds. */
  lemma FormatMsSameText(ms1: int, ms2: int)
    requires ms1 >= 0 && ms2 >= 0
    ensures FormatMs(ms1) == FormatMs(ms2) <==> ms1 / 1000 == ms2 / 1000
  {
    FormatMsRoundTrip(ms1);
    FormatMsRoundTrip(ms2);
  }

  /** Digits of one- and two-digit numbers. */
  lemma SmallToString(n: nat)
    requires n < 100
    ensures n < 10 ==> NatToString(n) == [DigitChar(n)]
    ensures n >= 10 ==> NatToString(n) == [DigitChar(n / 10), DigitChar(n % 10)]
  {
  }

  lemma PadSeconds(sec: nat)
    requires sec < 100
    ensures PadStart(NatToString(sec), 2, '0') == (if sec < 10 then "0" else "") + NatToString(sec)
  {
    if sec < 10 {
      assert seq(1, _ => '0') == "0";
    }
  }

  lemma FormatMsExample(ms: int, minutes: nat, seconds: nat)
    requires ms >= 0 && ms / 1000 / 60 == minutes && ms / 1000 % 60 == seconds
    ensures FormatMs(ms) == NatToString(minutes) + ":" + (if seconds < 10 then "0" else "") + NatToString(seconds)
  {
    FormatNonNegative(ms);
    assert IntToString(minutes) == NatToString(minutes);
    assert IntToString(seconds) == NatToString(seconds);
    PadSeconds(seconds);
  }

  lemma FormatMsExamples()
    ensures FormatMs(0) == "0:00"
    ensures FormatMs(999) == "0:00"
    ensures FormatMs(59999) == "0:59"
    ensures FormatMs(60000) == "1:00"
    ensures FormatMs(754000) == "12:34"
  {
    SmallToString(0);
    SmallToString(1);
    SmallToString(59);
    SmallToString(12);
    SmallToString(34);
    FormatMsExample(0, 0, 0);
    FormatMsExample(999, 0, 0);
    FormatMsExample(59999, 0, 59);
    FormatMsExample(60000, 1, 0);
    FormatMsExample(754000, 12, 34);
  }

  /**
   * A negative duration: the minutes are rounded down while the seconds
   * keep the sign of the dividend, so both parts carry a minus sign.
   */
  lemma FormatMsNegative()
    ensures FormatMs(-1) == "-1:-1"
  {
    assert -1 / 1000 == -1 && -1 / 60 == -1 && JsRem(-1, 60) == -1;
    SmallToString(1);
    assert IntToString(-1) == "-1";
    assert PadStart("-1", 2, '0') == "-1";
  }
}
