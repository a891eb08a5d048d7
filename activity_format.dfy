/**
 * The private formatting helpers of `ActivityService`: `_format_duration`
 * ("HH:MM:SS.mmm"), `_format_pace` ("M:SS.mmm"), `_speed_to_pace`,
 * `round(x, 2)` and `_parse_garmin_datetime`. Numbers are exact reals;
 * Python's float `//` and `%` are floor division and the floor remainder,
 * and `int()` truncates toward zero.
 */
module ActivityFormat {
  import opened Wrappers
  import opened Text
  import opened Dates
  import Json

  /** `int(x)` on a float. */
  function Trunc(x: real): (n: int)
    ensures x >= 0.0 ==> n == x.Floor
    ensures -1.0 < x - n as real < 1.0
  {
    if x >= 0.0 then x.Floor else -((-x).Floor)
  }

  /** Whole seconds and milliseconds of a remainder in [0, 60). */
  datatype SubMinute = SubMinute(seconds: int, millis: int)

  /** `s = x % 60; (int(s), int((s - int(s)) * 1000))`. */
  function SubMinuteOf(x: real): (p: SubMinute)
    ensures 0 <= p.seconds < 60 && 0 <= p.millis < 1000
  {
    var r := x - 60.0 * (x / 60.0).Floor as real;
    var sec := Trunc(r);
    SubMinute(sec, Trunc((r - sec as real) * 1000.0))
  }

  /** The fields `_format_duration` prints. */
  datatype Clock = Clock(hours: int, minutes: int, seconds: int, millis: int)

  function ClockTotal(c: Clock): real {
    3600.0 * c.hours as real + 60.0 * c.minutes as real + c.seconds as real + c.millis as real / 1000.0
  }

  function DurationClock(s: real): Clock {
    var p := SubMinuteOf(s);
    Clock((s / 3600.0).Floor, ((s - 3600.0 * (s / 3600.0).Floor as real) / 60.0).Floor, p.seconds, p.millis)
  }

  /**
   * The printed fields are in range and reconstruct the input to the
   * millisecond (the printed value is never above it).
   */
  lemma DurationClockReconstructs(s: real)
    ensures var c := DurationClock(s);
      && 0 <= c.minutes < 60 && 0 <= c.seconds < 60 && 0 <= c.millis < 1000
      && ClockTotal(c) <= s < ClockTotal(c) + 0.001
  {
    var h := (s / 3600.0).Floor;
    var r := s - 3600.0 * h as real;
    var m := (r / 60.0).Floor;
    assert 0.0 <= r < 3600.0;
    var k := 60 * h + m;
    assert 60.0 * k as real <= s < 60.0 * k as real + 60.0;
    assert (s / 60.0).Floor == k;
    MinuteRemainder(s, k);
  }

  lemma MinuteRemainder(x: real, k: int)
    requires (x / 60.0).Floor == k
    ensures var p := SubMinuteOf(x);
      60.0 * k as real + p.seconds as real + p.millis as real / 1000.0 <= x
      < 60.0 * k as real + p.seconds as real + p.millis as real / 1000.0 + 0.001
  {
    var r := x - 60.0 * k as real;
    var sec := Trunc(r);
    var ms := Trunc((r - sec as real) * 1000.0);
    assert 0.0 <= (r - sec as real) * 1000.0 < 1000.0;
    assert ms as real <= (r - sec as real) * 1000.0 < ms as real + 1.0;
  }

  /** The "SS.mmm" tail both formats share. */
  function SecondsText(seconds: int, millis: int): string {
    PadInt(seconds, 2) + "." + PadInt(millis, 3)
  }

  /** `_format_duration(seconds)`. */
  function FormatDuration(s: real): string {
    var c := DurationClock(s);
    PadInt(c.hours, 2) + ":" + (PadInt(c.minutes, 2) + ":" + SecondsText(c.seconds, c.millis))
  }

  /** `_format_pace(seconds_per_km)`: unpadded minutes. */
  function FormatPace(x: real): string {
    var p := SubMinuteOf(x);
    IntToString((x / 60.0).Floor) + ":" + SecondsText(p.seconds, p.millis)
  }

  /** `_speed_to_pace(speed_kmh)`. */
  function SpeedToPace(v: real): string {
    if v <= 0.0 then "0:00.000" else FormatPace(3600.0 / v)
  }

  /** A "SS.mmm" field: two digits, a point, three digits. */
  predicate IsSecondsField(t: string) {
    |t| == 6 && t[2] == '.' && AllDigits(t[..2]) && AllDigits(t[3..])
  }

  function SecondsFieldValue(t: string): real
    requires IsSecondsField(t)
  {
    DigitsValue(t[..2]) as real + DigitsValue(t[3..]) as real / 1000.0
  }

  predicate IsNumeral(t: string) { |t| >= 1 && AllDigits(t) }

  /** Reads an "M:SS.mmm" pace back into seconds per kilometre: a numeral, ':' and a seconds field. */
  function ReadPace(t: string): Option<real> {
    var k := |t| - 7;
    if k >= 1 && IsNumeral(t[..k]) && t[k] == ':' && IsSecondsField(t[k + 1..])
    then Some(60.0 * DigitsValue(t[..k]) as real + SecondsFieldValue(t[k + 1..]))
    else None
  }

  /** Reads an "HH:MM:SS.mmm" duration back into seconds: a numeral, ':', then "MM:SS.mmm" read as a pace. */
  function ReadDuration(t: string): Option<real> {
    var k := |t| - 10;
    if k >= 1 && IsNumeral(t[..k]) && t[k] == ':' && ReadPace(t[k + 1..]).Some?
    then Some(3600.0 * DigitsValue(t[..k]) as real + ReadPace(t[k + 1..]).value)
    else None
  }

  /** Python's `round(x, 2)` on exact reals: nearest hundredth, ties to even. */
  function Round2(x: real): (r: real)
    ensures (100.0 * r).Floor as real == 100.0 * r
    ensures -0.005 <= r - x <= 0.005
  {
    var y := 100.0 * x;
    var f := y.Floor;
    var n := if y - f as real < 0.5 then f
             else if y - f as real > 0.5 then f + 1
             else if f % 2 == 0 then f else f + 1;
    assert -0.5 <= n as real - y <= 0.5;
    assert 100.0 * (n as real / 100.0) == n as real;
    n as real / 100.0
  }

  /** `_parse_garmin_datetime`'s first step: drop exactly one trailing ".0". */
  function StripDotZero(s: string): (r: string)
    ensures EndsWith(s, ".0") ==> r + ".0" == s
    ensures !EndsWith(s, ".0") ==> r == s
  {
    if EndsWith(s, ".0") then s[..|s| - 2] else s
  }

  /**
   * `_parse_garmin_datetime(value)`; `None` stands for the exception it
   * raises (a parse error, or a value that is not a string).
   */
  function ParseGarminDatetime(v: Json.Value, parse: IsoParser): (r: Option<DateTime>)
    ensures !v.JStr? ==> r.None?
    ensures v.JStr? ==> r == parse(StripDotZero(v.s))
  {
    match v
    case JStr(s) => parse(StripDotZero(s))
    case _ => None
  }
}
