/**
 * `format_duration` of the Streamlit front end (frontend/app.py): an
 * "H:M:S" duration written out with Korean units, any other string passed
 * through as it is.
 */
module FrontendApp {
  import opened Wrappers
  import opened Text
  import ActivityFormat

  /** The Korean rendering of three integers: hours only when positive, minutes only when hours are not. */
  function KoreanUnits(hours: int, minutes: int, seconds: int): string {
    if hours > 0 then IntToString(hours) + "시간 " + IntToString(minutes) + "분 " + IntToString(seconds) + "초"
    else if minutes > 0 then IntToString(minutes) + "분 " + IntToString(seconds) + "초"
    else IntToString(seconds) + "초"
  }

  /**
   * `format_duration(duration_str)`: split on ':', `int()` of each part;
   * anything but three integers (the ValueError the bare `except` catches)
   * gives the input back.
   */
  function KoreanDuration(s: string): (r: string)
    ensures |Split(s, ':')| != 3 ==> r == s
  {
    var parts := Split(s, ':');
    if |parts| != 3 then s
    else FromParts(s, ParseInt(parts[0]), ParseInt(parts[1]), ParseInt(parts[2]))
  }

  /** The three `int()` results: the Korean rendering, or `s` back when any of them failed. */
  function FromParts(s: string, hours: Option<int>, minutes: Option<int>, seconds: Option<int>): string {
    if hours.None? || minutes.None? || seconds.None? then s
    else KoreanUnits(hours.value, minutes.value, seconds.value)
  }

  /** `int()` reads a zero-padded numeral back. */
  lemma ParseIntOfPadded(n: nat, w: nat)
    ensures ParseInt(PadInt(n, w)) == Some(n)
  {
    DigitsValueOfNatToString(n);
    ZeroFillValue(NatToString(n), w);
    ParseIntOfDigits(PadInt(n, w));
  }

  /** "a:b:c" with no ':' inside the parts splits into exactly those three. */
  lemma SplitThree(a: string, b: string, c: string)
    requires ':' !in a && ':' !in b && ':' !in c
    ensures Split(a + ":" + b + ":" + c, ':') == [a, b, c]
  {
    SplitNone(c, ':');
    SplitCons(b, ':', c);
    assert a + ":" + b + ":" + c == a + [':'] + (b + [':'] + c);
    SplitCons(a, ':', b + [':'] + c);
  }

  lemma PaddedHasNoColon(n: nat, w: nat)
    ensures ':' !in PadInt(n, w)
  {
    ZeroFillValue(NatToString(n), w);
  }

  /**
   * "HH:MM:SS" with zero-padded fields reads as the three numbers: the
   * padding is dropped and the units follow the hours-then-minutes rule.
   */
  lemma KoreanDurationOfClock(hours: nat, minutes: nat, seconds: nat)
    ensures KoreanDuration(PadInt(hours, 2) + ":" + PadInt(minutes, 2) + ":" + PadInt(seconds, 2))
         == KoreanUnits(hours, minutes, seconds)
  {
    PaddedHasNoColon(hours, 2);
    PaddedHasNoColon(minutes, 2);
    PaddedHasNoColon(seconds, 2);
    SplitThree(PadInt(hours, 2), PadInt(minutes, 2), PadInt(seconds, 2));
    ParseIntOfPadded(hours, 2);
    ParseIntOfPadded(minutes, 2);
    ParseIntOfPadded(seconds, 2);
  }

  /** Three parts that `int()` all reads are shown in Korean units, from the three numbers. */
  lemma KoreanDurationOfParts(s: string, hours: int, minutes: int, seconds: int)
    requires |Split(s, ':')| == 3
    requires ParseInt(Split(s, ':')[0]) == Some(hours)
    requires ParseInt(Split(s, ':')[1]) == Some(minutes)
    requires ParseInt(Split(s, ':')[2]) == Some(seconds)
    ensures KoreanDuration(s) == KoreanUnits(hours, minutes, seconds)
  {
    var parts := Split(s, ':');
    assert KoreanDuration(s) == FromParts(s, ParseInt(parts[0]), ParseInt(parts[1]), ParseInt(parts[2]));
  }

  /** A unit sign is never part of a rendered number. */
  lemma NotInNumber(i: int, c: char)
    requires !IsDigit(c) && c != '-'
    ensures c !in IntToString(i)
  {
  }

  /**
   * The units rule: the hours are shown exactly when they are positive, the
   * minutes exactly when the hours or the minutes are, and the text always
   * ends with the seconds.
   */
  lemma KoreanUnitsRule(hours: int, minutes: int, seconds: int)
    ensures '시' in KoreanUnits(hours, minutes, seconds) <==> hours > 0
    ensures '분' in KoreanUnits(hours, minutes, seconds) <==> hours > 0 || minutes > 0
    ensures EndsWith(KoreanUnits(hours, minutes, seconds), IntToString(seconds) + "초")
  {
    NotInNumber(hours, '시');
    NotInNumber(minutes, '시');
    NotInNumber(seconds, '시');
    NotInNumber(hours, '분');
    NotInNumber(minutes, '분');
    NotInNumber(seconds, '분');
    var u := KoreanUnits(hours, minutes, seconds);
    var tail := IntToString(seconds) + "초";
    assert u[|u| - |tail|..] == tail;
  }

  /** A character other than the separator lies in one of the parts of the split. */
  lemma {:induction false} SplitKeeps(s: string, sep: char, j: nat)
    requires j < |s| && s[j] != sep
    ensures exists i | 0 <= i < |Split(s, sep)| :: s[j] in Split(s, sep)[i]
    decreases |s|
  {
    var parts := Split(s, sep);
    var k := FirstIndexOf(s, sep);
    if k == |s| {
      assert s[j] in parts[0];
    } else if j < k {
      assert s[j] == s[..k][j];
      assert s[j] in parts[0];
    } else {
      assert j > k;
      var rest := s[k + 1..];
      assert rest[j - k - 1] == s[j];
      SplitKeeps(rest, sep, j - k - 1);
      var i :| 0 <= i < |Split(rest, sep)| && s[j] in Split(rest, sep)[i];
      assert parts[i + 1] == Split(rest, sep)[i];
    }
  }

  /** A string with a decimal point is never three integers, so it comes back unchanged. */
  lemma KoreanDurationKeepsDecimal(s: string, j: nat)
    requires j < |s| && s[j] == '.'
    ensures KoreanDuration(s) == s
  {
    var parts := Split(s, ':');
    SplitKeeps(s, ':', j);
    var i :| 0 <= i < |parts| && '.' in parts[i];
    var k :| 0 <= k < |parts[i]| && parts[i][k] == '.';
    ParseIntRejects(parts[i], k);
    if |parts| == 3 {
      PartNotInteger(s, i);
    }
  }

  /** One part that is not an integer makes the whole string come back. */
  lemma PartNotInteger(s: string, i: nat)
    requires |Split(s, ':')| == 3 && i < 3 && ParseInt(Split(s, ':')[i]).None?
    ensures KoreanDuration(s) == s
  {
    var parts := Split(s, ':');
    var h, m, sec := ParseInt(parts[0]), ParseInt(parts[1]), ParseInt(parts[2]);
    assert h.None? || m.None? || sec.None?;
    assert KoreanDuration(s) == FromParts(s, h, m, sec);
  }

  lemma PointAfter(a: string, b: string, c: string, d: string)
    ensures var s := a + ":" + (b + ":" + (c + "." + d));
      |a| + |b| + |c| + 2 < |s| && s[|a| + |b| + |c| + 2] == '.'
  {
    var s := a + ":" + (b + ":" + (c + "." + d));
    assert s == (a + ":" + b + ":" + c) + "." + d;
  }

  /** The backend's "HH:MM:SS.mmm" durations are shown as they are. */
  lemma KoreanDurationKeepsBackendDuration(x: real)
    ensures KoreanDuration(ActivityFormat.FormatDuration(x)) == ActivityFormat.FormatDuration(x)
  {
    var c := ActivityFormat.DurationClock(x);
    var h, m, sec := PadInt(c.hours, 2), PadInt(c.minutes, 2), PadInt(c.seconds, 2);
    var s := ActivityFormat.FormatDuration(x);
    assert s == h + ":" + (m + ":" + (sec + "." + PadInt(c.millis, 3)));
    PointAfter(h, m, sec, PadInt(c.millis, 3));
    KoreanDurationKeepsDecimal(s, |h| + |m| + |sec| + 2);
  }
}
