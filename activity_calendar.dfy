/**
 * The yearly activity calendar of the front end
 * (frontend/components/activity_calendar.py): activities grouped by the
 * date they started on, the level ladder over a day's total distance, and
 * the grid of week columns that ends with today. Dates are day ordinals
 * (`date.toordinal()`); the HTML and CSS are left out.
 */
module ActivityCalendar {
  import opened Wrappers
  import opened Dates
  import Text

  /** The two fields of an activity the calendar reads: `local_start_time` and `float(distance)`. */
  datatype CalendarActivity = CalendarActivity(localStartTime: string, distance: real)

  /** The calendar date of an activity: its start time with 'Z' read as "+00:00", or None when it does not parse. */
  function DayOf(a: CalendarActivity, parse: IsoParser): Option<int> {
    match parse(Text.ReplaceChar(a.localStartTime, 'Z', "+00:00"))
    case Some(dt) => Some(DateOf(dt))
    case None => None
  }

  /** The activities of `acts` that started on day `date`, in order. */
  function OnDay(acts: seq<CalendarActivity>, parse: IsoParser, date: int): seq<CalendarActivity>
    decreases |acts|
  {
    if acts == [] then []
    else
      var init := OnDay(acts[..|acts| - 1], parse, date);
      if DayOf(acts[|acts| - 1], parse) == Some(date) then init + [acts[|acts| - 1]] else init
  }

  /** The days on which some activity of `acts` started. */
  function Days(acts: seq<CalendarActivity>, parse: IsoParser): set<int> {
    set j | 0 <= j < |acts| && DayOf(acts[j], parse).Some? :: DayOf(acts[j], parse).value
  }

  /** The grouping built up activity by activity; None once a start time does not parse. */
  function Grouped(acts: seq<CalendarActivity>, parse: IsoParser): Option<map<int, seq<CalendarActivity>>>
    decreases |acts|
  {
    if acts == [] then Some(map[])
    else
      var a := acts[|acts| - 1];
      match Grouped(acts[..|acts| - 1], parse)
      case None => None
      case Some(byDate) =>
        match DayOf(a, parse)
        case None => None
        case Some(date) => Some(byDate[date := (if date in byDate then byDate[date] else []) + [a]])
  }

  /**
   * The grouping lists under each day the activities of that day in feed
   * order, its keys are exactly those days, and it fails exactly when some
   * start time does not parse.
   */
  lemma {:induction false} GroupedMeaning(acts: seq<CalendarActivity>, parse: IsoParser)
    ensures Grouped(acts, parse).None? <==> exists j | 0 <= j < |acts| :: DayOf(acts[j], parse).None?
    ensures Grouped(acts, parse).Some? ==> Grouped(acts, parse).value.Keys == Days(acts, parse)
    ensures Grouped(acts, parse).Some? ==>
      forall date | date in Grouped(acts, parse).value :: Grouped(acts, parse).value[date] == OnDay(acts, parse, date)
    decreases |acts|
  {
    if acts != [] {
      var init := acts[..|acts| - 1];
      var a := acts[|acts| - 1];
      assert acts == init + [a];
      GroupedMeaning(init, parse);
      assert forall j | 0 <= j < |init| :: init[j] == acts[j];
      if Grouped(init, parse).Some? && DayOf(a, parse).Some? {
        var date := DayOf(a, parse).value;
        GroupStep(init, a, parse, date);
        if date !in Grouped(init, parse).value {
          OnDayAbsent(init, parse, date);
        }
      }
    }
  }

  /** The grouping loop over the activities: `activity_by_date`, or None for the ValueError. */
  method GroupByDate(acts: seq<CalendarActivity>, parse: IsoParser) returns (r: Option<map<int, seq<CalendarActivity>>>)
    ensures r == Grouped(acts, parse)
    ensures r.None? <==> exists j | 0 <= j < |acts| :: DayOf(acts[j], parse).None?
    ensures r.Some? ==> r.value.Keys == Days(acts, parse)
    ensures r.Some? ==> forall date | date in r.value :: r.value[date] == OnDay(acts, parse, date)
  {
    GroupedMeaning(acts, parse);
    var byDate: map<int, seq<CalendarActivity>> := map[];
    for i := 0 to |acts|
      invariant Grouped(acts[..i], parse) == Some(byDate)
    {
      var a := acts[i];
      assert acts[..i + 1][..i] == acts[..i];
      match DayOf(a, parse)
      case None =>
        return None;
      case Some(date) =>
        var listed := if date in byDate then byDate[date] else [];
        byDate := byDate[date := listed + [a]];
    }
    assert acts[..|acts|] == acts;
    return Some(byDate);
  }

  /** Appending an activity of day `date` adds `date` to the days and the activity to that day alone. */
  lemma GroupStep(acts: seq<CalendarActivity>, a: CalendarActivity, parse: IsoParser, date: int)
    requires DayOf(a, parse) == Some(date)
    ensures Days(acts + [a], parse) == Days(acts, parse) + {date}
    ensures OnDay(acts + [a], parse, date) == OnDay(acts, parse, date) + [a]
    ensures forall other | other != date :: OnDay(acts + [a], parse, other) == OnDay(acts, parse, other)
  {
    var t := acts + [a];
    assert t[..|t| - 1] == acts && t[|t| - 1] == a;
    forall x | x in Days(t, parse) ensures x in Days(acts, parse) + {date} {
      var j :| 0 <= j < |t| && DayOf(t[j], parse).Some? && DayOf(t[j], parse).value == x;
      if j < |acts| {
        assert t[j] == acts[j];
      }
    }
    forall x | x in Days(acts, parse) ensures x in Days(t, parse) {
      var j :| 0 <= j < |acts| && DayOf(acts[j], parse).Some? && DayOf(acts[j], parse).value == x;
      assert t[j] == acts[j];
    }
    assert date in Days(t, parse) by {
      assert DayOf(t[|acts|], parse) == Some(date);
    }
  }

  /** A day on which nothing started has no activities. */
  lemma {:induction false} OnDayAbsent(acts: seq<CalendarActivity>, parse: IsoParser, date: int)
    requires date !in Days(acts, parse)
    ensures OnDay(acts, parse, date) == []
    decreases |acts|
  {
    if acts != [] {
      var init := acts[..|acts| - 1];
      assert Days(init, parse) <= Days(acts, parse) by {
        forall x | x in Days(init, parse) ensures x in Days(acts, parse) {
          var j :| 0 <= j < |init| && DayOf(init[j], parse).Some? && DayOf(init[j], parse).value == x;
          assert acts[j] == init[j];
        }
      }
      OnDayAbsent(init, parse, date);
      assert DayOf(acts[|acts| - 1], parse) != Some(date);
    }
  }

  /** A day lists only activities of `acts` that started on that day, and never more than `acts` holds. */
  lemma {:induction false} OnDaySound(acts: seq<CalendarActivity>, parse: IsoParser, date: int)
    ensures |OnDay(acts, parse, date)| <= |acts|
    ensures forall a | a in OnDay(acts, parse, date) :: a in acts && DayOf(a, parse) == Some(date)
    decreases |acts|
  {
    if acts != [] {
      var init := acts[..|acts| - 1];
      OnDaySound(init, parse, date);
      assert acts == init + [acts[|acts| - 1]];
    }
  }

  /** Every activity that started on `date` is listed under it. */
  lemma {:induction false} OnDayComplete(acts: seq<CalendarActivity>, parse: IsoParser, date: int)
    ensures forall j | 0 <= j < |acts| && DayOf(acts[j], parse) == Some(date) :: acts[j] in OnDay(acts, parse, date)
    decreases |acts|
  {
    if acts != [] {
      var init := acts[..|acts| - 1];
      OnDayComplete(init, parse, date);
      forall j | 0 <= j < |init| && DayOf(acts[j], parse) == Some(date)
        ensures acts[j] in OnDay(acts, parse, date)
      {
        assert init[j] == acts[j];
      }
    }
  }

  /** The day's total distance. */
  function TotalDistance(acts: seq<CalendarActivity>): real
    decreases |acts|
  {
    if acts == [] then 0.0 else TotalDistance(acts[..|acts| - 1]) + acts[|acts| - 1].distance
  }

  /** The level ladder over a day's total distance in kilometres. */
  function Level(total: real): (level: int)
    ensures 0 <= level <= 7
  {
    if total >= 42.0 then 7
    else if total >= 30.0 then 6
    else if total >= 21.0 then 5
    else if total >= 15.0 then 4
    else if total >= 10.0 then 3
    else if total >= 5.0 then 2
    else if total > 0.0 then 1
    else 0
  }

  /** The distance from which level `k` is reached (level 1: any positive distance). */
  function Threshold(k: int): real
    requires 2 <= k <= 7
  {
    [5.0, 10.0, 15.0, 21.0, 30.0, 42.0][k - 2]
  }

  /** The ladder read by thresholds: level at least `k` exactly when the distance reaches `k`'s threshold. */
  lemma LevelThresholds(total: real)
    ensures Level(total) >= 1 <==> total > 0.0
    ensures forall k | 2 <= k <= 7 :: Level(total) >= k <==> total >= Threshold(k)
  {
  }

  /** More distance never lowers the level. */
  lemma LevelMonotone(a: real, b: real)
    requires a <= b
    ensures Level(a) <= Level(b)
  {
  }

  /** `today - timedelta(days=364)`: the first day shown. */
  function WindowStart(today: int): int {
    today - 364
  }

  /** The first grid date: the window start moved back by `weekday() + 1` days. */
  function GridStart(today: int): int {
    var first := WindowStart(today);
    first - (Weekday(first) + 1)
  }

  /** `(today - start_date).days // 7 + 1`. */
  function TotalWeeks(today: int): int {
    (today - GridStart(today)) / 7 + 1
  }

  /** The date of column `week`, row `day`. */
  function CellDate(today: int, week: int, day: int): int {
    GridStart(today) + 7 * week + day
  }

  /**
   * The grid starts on a Sunday one to seven days before the window (a
   * window starting on a Sunday gets a whole blank week in front), and has
   * 53 or 54 columns.
   */
  lemma GridStartMeaning(today: int)
    ensures Weekday(GridStart(today)) == 6
    ensures 1 <= WindowStart(today) - GridStart(today) <= 7
    ensures TotalWeeks(today) == 53 || TotalWeeks(today) == 54
  {
    var first := WindowStart(today);
    var w := Weekday(first);
    assert (first + 6) % 7 == w;
    assert (first - (w + 1) + 6) % 7 == 6 by {
      assert first - (w + 1) + 6 == (first + 6) - w - 1;
    }
  }

  /** Today is in the last column, in the row of its weekday (Sunday first). */
  lemma TodayInLastColumn(today: int)
    ensures var day := (today - GridStart(today)) % 7;
      CellDate(today, TotalWeeks(today) - 1, day) == today
  {
  }

  /** What a cell shows: a blank (outside the window) or a day, each with its labels ("" when absent). */
  datatype CalendarCell =
    | Blank(weekdayLabel: string)
    | DayCell(date: int, level: int, weekdayLabel: string, monthLabel: string)

  const WeekdayNames: seq<string> := ["일", "월", "화", "수", "목", "금", "토"]

  /** The weekday label: only in the first column. */
  function WeekdayLabel(week: int, day: int): string
    requires 0 <= day < 7
  {
    if week == 0 then WeekdayNames[day] else ""
  }

  /** The month label: the month number, only on the first day of a month. */
  function MonthLabel(date: int): string {
    var md := MonthDayOf(date);
    if md.1 == 1 then Text.IntToString(md.0) else ""
  }

  /** The cell at column `week`, row `day`, for the grouping `byDate`. */
  function CellAt(today: int, byDate: map<int, seq<CalendarActivity>>, week: int, day: int): CalendarCell
    requires 0 <= day < 7
  {
    var date := CellDate(today, week, day);
    if date < WindowStart(today) || date > today then Blank(WeekdayLabel(week, day))
    else
      var level := if date in byDate then Level(TotalDistance(byDate[date])) else 0;
      DayCell(date, level, WeekdayLabel(week, day), MonthLabel(date))
  }

  /** The two nested loops over weeks and days. */
  method Grid(today: int, byDate: map<int, seq<CalendarActivity>>) returns (weeks: seq<seq<CalendarCell>>)
    ensures |weeks| == TotalWeeks(today)
    ensures forall w | 0 <= w < |weeks| :: |weeks[w]| == 7
    ensures forall w, day | 0 <= w < |weeks| && 0 <= day < 7 :: weeks[w][day] == CellAt(today, byDate, w, day)
  {
    GridStartMeaning(today);
    weeks := [];
    for week := 0 to TotalWeeks(today)
      invariant |weeks| == week
      invariant forall w | 0 <= w < week :: |weeks[w]| == 7
      invariant forall w, day | 0 <= w < week && 0 <= day < 7 :: weeks[w][day] == CellAt(today, byDate, w, day)
    {
      var column: seq<CalendarCell> := [];
      for day := 0 to 7
        invariant |column| == day
        invariant forall d | 0 <= d < day :: column[d] == CellAt(today, byDate, week, d)
      {
        column := column + [CellAt(today, byDate, week, day)];
      }
      weeks := weeks + [column];
    }
  }

  /**
   * Every date of the window appears in exactly one cell of the grid, a day
   * cell; every other cell is blank.
   */
  lemma WindowCoveredOnce(today: int, byDate: map<int, seq<CalendarActivity>>, date: int)
    requires WindowStart(today) <= date <= today
    ensures var start := GridStart(today);
      var week := (date - start) / 7;
      var day := (date - start) % 7;
      && 0 <= week < TotalWeeks(today)
      && CellAt(today, byDate, week, day).DayCell?
      && CellAt(today, byDate, week, day).date == date
      && forall w, d | 0 <= w < TotalWeeks(today) && 0 <= d < 7 && CellAt(today, byDate, w, d).DayCell?
           && CellAt(today, byDate, w, d).date == date :: w == week && d == day
  {
    GridStartMeaning(today);
    var start := GridStart(today);
    forall w, d | 0 <= w < TotalWeeks(today) && 0 <= d < 7 && CellDate(today, w, d) == date
      ensures w == (date - start) / 7 && d == (date - start) % 7
    {
      assert date - start == 7 * w + d;
    }
  }

  /** A cell is blank exactly when its date falls outside the window. */
  lemma BlankOutsideWindow(today: int, byDate: map<int, seq<CalendarActivity>>, week: int, day: int)
    requires 0 <= day < 7
    ensures var date := CellDate(today, week, day);
      CellAt(today, byDate, week, day).Blank? <==> date < WindowStart(today) || date > today
  {
  }

  /**
   * Labels: the weekday label appears exactly in the first column, the
   * month label only on a day cell that is the first of its month, and the
   * level is 0 on a day without activities.
   */
  lemma CellLabels(today: int, byDate: map<int, seq<CalendarActivity>>, week: int, day: int)
    requires 0 <= day < 7
    ensures var c := CellAt(today, byDate, week, day);
      && (c.weekdayLabel != "" <==> week == 0)
      && (c.DayCell? && c.monthLabel != "" ==> MonthDayOf(c.date).1 == 1)
      && (c.DayCell? && MonthDayOf(c.date).1 == 1 ==> c.monthLabel == Text.IntToString(MonthDayOf(c.date).0))
      && (c.DayCell? && c.date !in byDate ==> c.level == 0)
  {
  }
}
