/** The component's `formatTime`: whole seconds rendered as "m:ss". Hours are
    computed and then dropped, and minutes are never padded, exactly as the
    component does it. Only whole seconds are modelled, for which rounding the
    remaining seconds changes nothing. */
module TimeFormat {

  predicate IsDigit(c: char) {
    '0' <= c <= '9'
  }

  predicate AllDigits(s: string) {
    forall i :: 0 <= i < |s| ==> IsDigit(s[i])
  }

  function DigitChar(d: nat): (c: char)
    requires d < 10
    ensures IsDigit(c) && c as int - '0' as int == d
  {
    ('0' as int + d) as char
  }

  function DigitValue(c: char): (d: nat)
    requires IsDigit(c)
    ensures d < 10
  {
    c as int - '0' as int
  }

  /** JavaScript's decimal rendering of a whole, non-negative number: no sign,
      no leading zeros. */
  function NatToString(n: nat): (r: string)
    ensures 1 <= |r| && AllDigits(r)
    ensures |r| == 1 <==> n < 10
    ensures n < 100 ==> |r| <= 2
    ensures |r| > 1 ==> r[0] != '0'
  {
    if n < 10 then [DigitChar(n)] else NatToString(n / 10) + [DigitChar(n % 10)]
  }

  /** The number a string of decimal digits denotes; the reading of NatToString's output. */
  function DecimalValue(s: string): nat
    requires AllDigits(s)
  {
    if s == [] then 0 else 10 * DecimalValue(s[..|s| - 1]) + DigitValue(s[|s| - 1])
  }

  /** Reading back a rendered number gives the number. */
  lemma {:induction false} DecimalRoundTrip(n: nat)
    ensures DecimalValue(NatToString(n)) == n
  {
    var r := NatToString(n);
    if n >= 10 {
      DecimalRoundTrip(n / 10);
      assert r[..|r| - 1] == NatToString(n / 10);
    }
  }

  /** Dividing by an hour and then by a minute gives the minutes within the
      hour and the seconds within the minute. */
  lemma HourMinuteSplit(t: nat)
    ensures t - (t / 3600) * 3600 == t % 3600
    ensures (t % 3600) % 60 == t % 60
  {
    var h, r := t / 3600, t % 3600;
    var m, sec := r / 60, r % 60;
    assert t == 60 * (60 * h + m) + sec && 0 <= sec < 60;
  }

  /** The hours, minutes and seconds `formatTime` computes, by the floor
      divisions and subtractions it uses: the whole hours, the whole minutes
      within the hour, and the seconds within the minute. */
  function ClockFields(totalSeconds: nat): (f: (nat, nat, nat))
    ensures f.0 == totalSeconds / 3600
    ensures f.1 == (totalSeconds % 3600) / 60 && f.1 < 60
    ensures f.2 == totalSeconds % 60
  {
    HourMinuteSplit(totalSeconds);
    var hours := totalSeconds / 3600;
    var minutes := (totalSeconds - hours * 3600) / 60;
    var seconds := totalSeconds - hours * 3600 - minutes * 60;
    (hours, minutes, seconds)
  }

  /** `formatTime(totalSeconds)`, for whole seconds. */
  function FormatTime(totalSeconds: nat): (r: string)
    ensures 4 <= |r| && r[|r| - 3] == ':'
    ensures AllDigits(r[..|r| - 3]) && AllDigits(r[|r| - 2..])
  {
    var (hours, minutes, seconds) := ClockFields(totalSeconds);
    NatToString(minutes) + ":" + (if seconds < 10 then "0" + NatToString(seconds) else NatToString(seconds))
  }

  /** The two digits of a number below 100, the first one possibly '0'. */
  function TwoDigits(n: nat): (r: string)
    requires n < 100
  {
    [DigitChar(n / 10), DigitChar(n % 10)]
  }

  lemma PaddedSeconds(n: nat)
    requires n < 60
    ensures (if n < 10 then "0" + NatToString(n) else NatToString(n)) == TwoDigits(n)
  {
    if n >= 10 {
      assert NatToString(n / 10) == [DigitChar(n / 10)];
    }
  }

  /** The rendered time is the minutes within the hour, unpadded, a colon, and
      the seconds within the minute padded to two digits. */
  lemma FormatTimeShape(s: nat)
    ensures FormatTime(s) == NatToString((s % 3600) / 60) + ":" + TwoDigits(s % 60)
  {
    PaddedSeconds(s % 60);
  }

  /** Reading the two fields of the rendered time back gives the minutes within
      the hour and the seconds within the minute. */
  lemma FormatTimeFields(s: nat)
    ensures var r := FormatTime(s);
            DecimalValue(r[..|r| - 3]) == (s % 3600) / 60 &&
            DecimalValue(r[|r| - 2..]) == s % 60
  {
    var r := FormatTime(s);
    FormatTimeShape(s);
    var m := NatToString((s % 3600) / 60);
    assert r[..|r| - 3] == m;
    assert r[|r| - 2..] == TwoDigits(s % 60);
    DecimalRoundTrip((s % 3600) / 60);
    assert TwoDigits(s % 60)[..1] == [DigitChar((s % 60) / 10)];
  }

  /** Times that render alike agree in minutes within the hour and seconds
      within the minute. */
  lemma FormatTimeSameFields(a: nat, b: nat)
    requires FormatTime(a) == FormatTime(b)
    ensures (a % 3600) / 60 == (b % 3600) / 60 && a % 60 == b % 60
  {
    FormatTimeFields(a);
    FormatTimeFields(b);
  }

  /** Within one hour, different times render differently. */
  lemma FormatTimeInjectiveWithinHour(a: nat, b: nat)
    requires a < 3600 && b < 3600
    requires FormatTime(a) == FormatTime(b)
    ensures a == b
  {
    FormatTimeSameFields(a, b);
    WithinHourDetermined(a, b);
  }

  lemma WithinHourDetermined(a: nat, b: nat)
    requires a < 3600 && b < 3600
    requires (a % 3600) / 60 == (b % 3600) / 60 && a % 60 == b % 60
    ensures a == b
  {
    assert a % 3600 == a && b % 3600 == b;
    assert a == (a / 60) * 60 + a % 60;
    assert b == (b / 60) * 60 + b % 60;
  }

  /** Hours are computed but never rendered: adding an hour renders the same text. */
  lemma FormatTimeDropsHours(s: nat)
    ensures FormatTime(s + 3600) == FormatTime(s)
  {
    FormatTimeShape(s);
    FormatTimeShape(s + 3600);
    HourShift(s);
  }

  lemma HourShift(s: nat)
    ensures (s + 3600) % 3600 == s % 3600 && (s + 3600) % 60 == s % 60
  {
    assert s + 3600 == 3600 * (s / 3600 + 1) + s % 3600;
    assert s + 3600 == 60 * (s / 60 + 60) + s % 60;
  }

  /** Below ten minutes the minutes field is a single digit; from ten minutes
      on it has two, never a padding zero. */
  lemma FormatTimeMinutesUnpadded(s: nat)
    ensures var r := FormatTime(s);
            (|r| == 4 <==> s % 3600 < 600) && (|r| > 4 ==> r[0] != '0')
  {
    FormatTimeShape(s);
  }

  lemma FormatTime65()
    ensures FormatTime(65) == "1:05"
  {
    FormatTimeShape(65);
  }

  lemma FormatTime5()
    ensures FormatTime(5) == "0:05"
  {
    FormatTimeShape(5);
  }

  lemma FormatTime600()
    ensures FormatTime(600) == "10:00"
  {
    FormatTimeShape(600);
  }

  /** One hour and five seconds renders as five seconds. */
  lemma FormatTime3605()
    ensures FormatTime(3605) == "0:05"
  {
    FormatTimeShape(3605);
  }
}
