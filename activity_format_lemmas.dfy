/**
 * What the strings printed by `ActivityFormat` mean: each reads back as the
 * number it was printed from, to the millisecond, and a few printed examples.
 */
module ActivityFormatLemmas {
  import opened Wrappers
  import opened Text
  import opened ActivityFormat

  lemma SecondsFieldOf(seconds: int, millis: int)
    requires 0 <= seconds < 60 && 0 <= millis < 1000
    ensures IsSecondsField(SecondsText(seconds, millis))
    ensures SecondsFieldValue(SecondsText(seconds, millis)) == seconds as real + millis as real / 1000.0
  {
    PadIntSmall(seconds, 2);
    PadIntSmall(millis, 3);
    var a, b := PadInt(seconds, 2), PadInt(millis, 3);
    var t := a + "." + b;
    assert t[..2] == a && t[3..] == b;
  }

  lemma PaddedNumeral(n: nat, w: nat)
    ensures IsNumeral(PadInt(n, w)) && DigitsValue(PadInt(n, w)) == n
  {
    DigitsValueOfNatToString(n);
    ZeroFillValue(NatToString(n), w);
  }

  /** A numeral, a colon and a seconds field read back as a pace. */
  lemma ReadPaceParts(a: string, t: string, m: nat, v: real)
    requires IsNumeral(a) && DigitsValue(a) == m && IsSecondsField(t) && SecondsFieldValue(t) == v
    ensures ReadPace(a + [':'] + t) == Some(60.0 * m as real + v)
  {
    var s := a + [':'] + t;
    assert s[..|a|] == a && s[|a| + 1..] == t;
    ReadPaceAt(s, a, t, m, v);
  }

  lemma ReadPaceAt(s: string, a: string, t: string, m: nat, v: real)
    requires IsNumeral(a) && DigitsValue(a) == m && IsSecondsField(t) && SecondsFieldValue(t) == v
    requires |s| == |a| + 7 && s[..|a|] == a && s[|a|] == ':' && s[|a| + 1..] == t
    ensures ReadPace(s) == Some(60.0 * m as real + v)
  {
  }

  /** A numeral, a colon and a nine-character pace read back as a duration. */
  lemma ReadDurationParts(a: string, r: string)
    requires IsNumeral(a) && |r| == 9 && ReadPace(r).Some?
    ensures ReadDuration(a + [':'] + r) == Some(3600.0 * DigitsValue(a) as real + ReadPace(r).value)
  {
    var s := a + [':'] + r;
    assert s[..|a|] == a && s[|a| + 1..] == r;
    ReadDurationAt(s, a, r);
  }

  lemma ReadDurationAt(s: string, a: string, r: string)
    requires IsNumeral(a) && |r| == 9 && ReadPace(r).Some?
    requires |s| == |a| + 10 && s[..|a|] == a && s[|a|] == ':' && s[|a| + 1..] == r
    ensures ReadDuration(s) == Some(3600.0 * DigitsValue(a) as real + ReadPace(r).value)
  {
  }

  /**
   * A non-negative pace reads back as the seconds it was printed from, to
   * the millisecond; the minutes in front of ":SS.mmm" are the whole
   * minutes written with no leading zeros.
   */
  lemma ReadPaceOfFormatPace(x: real)
    requires x >= 0.0
    ensures ReadPace(FormatPace(x)).Some?
    ensures var v := ReadPace(FormatPace(x)).value; v <= x < v + 0.001
    ensures var f := FormatPace(x);
      && |f| >= 8 && f[|f| - 7] == ':'
      && f[..|f| - 7] == NatToString((x / 60.0).Floor)
  {
    var m := (x / 60.0).Floor;
    var p := SubMinuteOf(x);
    DigitsValueOfNatToString(m);
    SecondsFieldOf(p.seconds, p.millis);
    ReadPaceParts(NatToString(m), SecondsText(p.seconds, p.millis), m, p.seconds as real + p.millis as real / 1000.0);
    MinuteRemainder(x, m);
    var f := FormatPace(x);
    assert f[..|f| - 7] == NatToString(m);
  }

  /**
   * A non-negative duration reads back as the seconds it was printed from,
   * to the millisecond; the hours in front of ":MM:SS.mmm" are the whole
   * hours in at least two digits, exactly two below 100.
   */
  lemma ReadDurationOfFormatDuration(s: real)
    requires s >= 0.0
    ensures ReadDuration(FormatDuration(s)).Some?
    ensures var v := ReadDuration(FormatDuration(s)).value; v <= s < v + 0.001
    ensures var f := FormatDuration(s);
      && |f| >= 12 && f[|f| - 10] == ':'
      && AllDigits(f[..|f| - 10]) && DigitsValue(f[..|f| - 10]) == (s / 3600.0).Floor
      && ((s / 3600.0).Floor < 100 ==> |f| == 12)
  {
    DurationClockReconstructs(s);
    var c := DurationClock(s);
    var h := PadInt(c.hours, 2);
    var r := PadInt(c.minutes, 2) + ":" + SecondsText(c.seconds, c.millis);
    assert FormatDuration(s) == h + [':'] + r;
    DurationTailRead(c.minutes, c.seconds, c.millis);
    PaddedNumeral(c.hours, 2);
    ReadDurationParts(h, r);
    HoursField(c.hours);
    var f := FormatDuration(s);
    assert f[..|f| - 10] == h;
  }

  /** An hour count zero-filled to two: at least two digits, exactly two below 100, of its value. */
  lemma HoursField(hours: nat)
    ensures var h := PadInt(hours, 2);
      |h| >= 2 && AllDigits(h) && DigitsValue(h) == hours && (hours < 100 ==> |h| == 2)
  {
    PaddedNumeral(hours, 2);
    ZeroFillShape(NatToString(hours), 2);
    if hours < 100 {
      assert Pow10(2) == 100 by { assert Pow10(1) == 10; }
      PadIntSmall(hours, 2);
    }
  }

  /** The "MM:SS.mmm" tail of a duration reads back as a pace. */
  lemma DurationTailRead(minutes: nat, seconds: int, millis: int)
    requires minutes < 60 && 0 <= seconds < 60 && 0 <= millis < 1000
    ensures var r := PadInt(minutes, 2) + ":" + SecondsText(seconds, millis);
      |r| == 9 && ReadPace(r) == Some(60.0 * minutes as real + (seconds as real + millis as real / 1000.0))
  {
    PaddedNumeral(minutes, 2);
    PadIntSmall(minutes, 2);
    SecondsFieldOf(seconds, millis);
    ReadPaceParts(PadInt(minutes, 2), SecondsText(seconds, millis), minutes, seconds as real + millis as real / 1000.0);
  }

  /** `_speed_to_pace` prints the seconds needed per kilometre at `v` km/h, or "0:00.000" when not moving. */
  lemma SpeedToPaceMeaning(v: real)
    ensures v <= 0.0 ==> SpeedToPace(v) == "0:00.000"
    ensures ReadPace(SpeedToPace(v)).Some?
    ensures v > 0.0 ==> var p := ReadPace(SpeedToPace(v)).value; p <= 3600.0 / v < p + 0.001
  {
    if v <= 0.0 {
      FormatPaceZero();
      ReadPaceOfFormatPace(0.0);
    } else {
      ReadPaceOfFormatPace(3600.0 / v);
    }
  }

  /** The zero-padded fields the examples below print. */
  lemma PadIntExamples()
    ensures PadInt(0, 2) == "00" && PadInt(0, 3) == "000" && PadInt(1, 2) == "01"
    ensures PadInt(30, 2) == "30" && PadInt(59, 2) == "59" && PadInt(500, 3) == "500"
  {
    assert NatToString(0) == "0" && NatToString(1) == "1";
    assert NatToString(30) == "30" && NatToString(59) == "59";
    assert NatToString(50) == "50";
    assert NatToString(500) == "500";
    assert Repeat('0', 2) == "00";
  }

  lemma FormatPaceZero()
    ensures FormatPace(0.0) == "0:00.000"
  {
    assert SubMinuteOf(0.0) == SubMinute(0, 0);
    assert (0.0 / 60.0).Floor == 0 && IntToString(0) == "0";
    PadIntExamples();
    assert SecondsText(0, 0) == "00.000";
    assert FormatPace(0.0) == "0" + ":" + "00.000";
  }

  /** 330 s/km prints as "5:30.000". */
  lemma FormatPaceExample()
    ensures FormatPace(330.0) == "5:30.000"
  {
    assert (330.0 / 60.0).Floor == 5;
    assert SubMinuteOf(330.0) == SubMinute(30, 0);
    assert IntToString(5) == "5";
    PadIntExamples();
    assert SecondsText(30, 0) == "30.000";
    assert FormatPace(330.0) == "5" + ":" + "30.000";
  }

  /** 12 km/h is a 5-minute pace. */
  lemma SpeedToPaceExample()
    ensures SpeedToPace(12.0) == "5:00.000"
  {
    assert 3600.0 / 12.0 == 300.0;
    assert (300.0 / 60.0).Floor == 5;
    assert SubMinuteOf(300.0) == SubMinute(0, 0);
    assert IntToString(5) == "5";
    PadIntExamples();
    assert SecondsText(0, 0) == "00.000";
    assert FormatPace(300.0) == "5" + ":" + "00.000";
  }

  /** 3661.5 s prints as "01:01:01.500". */
  lemma FormatDurationExample()
    ensures FormatDuration(3661.5) == "01:01:01.500"
  {
    assert SubMinuteOf(3661.5) == SubMinute(1, 500);
    assert DurationClock(3661.5) == Clock(1, 1, 1, 500);
    PadIntExamples();
    assert SecondsText(1, 500) == "01.500";
    assert FormatDuration(3661.5) == "01" + ":" + ("01" + ":" + "01.500");
  }

  /** A negative duration shows Python's floor arithmetic: -1 s prints as "-1:59:59.000". */
  lemma FormatNegativeDurationExample()
    ensures FormatDuration(-1.0) == "-1:59:59.000"
  {
    assert SubMinuteOf(-1.0) == SubMinute(59, 0);
    assert DurationClock(-1.0) == Clock(-1, 59, 59, 0);
    assert PadInt(-1, 2) == "-1" by {
      assert NatToString(1) == "1";
    }
    PadIntExamples();
    assert SecondsText(59, 0) == "59.000";
    assert FormatDuration(-1.0) == "-1" + ":" + ("59" + ":" + "59.000");
  }
}
