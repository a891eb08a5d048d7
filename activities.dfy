/**
 * `ActivityService` (backend/app/services/activity_service.py): the lap
 * reconciler `process_activity_splits`, the single-row lookups and delete,
 * the per-user summary, the monthly buckets and the laps-with-comments view.
 * The service works through a shared `Store.Session`; the Garmin client is
 * a function from the activity id text to what the vendor call returned.
 */
module Activities {
  import opened Wrappers
  import opened Text
  import opened Json
  import opened Dates
  import opened Models
  import opened Store
  import opened ActivityFormat

  /** How a request fails. */
  datatype ServiceError =
    | HttpError(status: int, detail: string)   // a fastapi.HTTPException
    | PythonError(name: string)                // an uncaught TypeError or ZeroDivisionError
    | StoreFailure                             // the database refused a commit

  // ---------------------------------------------------------------------
  // process_activity_splits
  // ---------------------------------------------------------------------

  /**
   * What `client.get_activity_splits(id)` did: raised with a message, or
   * returned a dict (a `None` return is falsy like `{}` and is written as `map[]`).
   */
  datatype SplitsFetch = SplitsRaised(message: string) | SplitsReturned(data: Object)

  type SplitsClient = string -> SplitsFetch

  /** The `activity_splits` row built from one vendor lap. */
  function SplitOf(activityId: string, lap: Object, start: DateTime): ActivitySplit {
    ActivitySplit(activityId, Get(lap, "lapIndex"), start, Get(lap, "distance"), Get(lap, "duration"),
                  Get(lap, "movingDuration"), Get(lap, "averageSpeed"), Get(lap, "maxSpeed"),
                  Get(lap, "averageHR"), Get(lap, "maxHR"), Get(lap, "averageRunCadence"),
                  Get(lap, "maxRunCadence"), Get(lap, "averagePower"), Get(lap, "maxPower"),
                  Get(lap, "groundContactTime"), Get(lap, "strideLength"), Get(lap, "verticalOscillation"),
                  Get(lap, "verticalRatio"), Get(lap, "calories"), Get(lap, "elevationGain"),
                  Get(lap, "elevationLoss"), Get(lap, "maxElevation"), Get(lap, "minElevation"),
                  Get(lap, "startLatitude"), Get(lap, "startLongitude"), Get(lap, "endLatitude"),
                  Get(lap, "endLongitude"))
  }

  /**
   * The split a lap becomes, or None when building it raises: the lap is not
   * a dict (`lap.get` fails) or its `startTimeGMT` does not parse. The id
   * text is stored as given.
   */
  function LapSplit(activityId: string, lap: Value, parse: IsoParser): Option<ActivitySplit> {
    match lap
    case JObj(m) =>
      (match ParseGarminDatetime(Get(m, "startTimeGMT"), parse)
       case None => None
       case Some(start) => Some(SplitOf(activityId, m, start)))
    case _ => None
  }

  /** One turn of the lap loop: `add(split)` and `commit()`, or `rollback()` on any failure. */
  function LapStep(st: State, activityId: string, lap: Value, parse: IsoParser, accepts: SplitCheck): State {
    match LapSplit(activityId, lap, parse)
    case None => AfterRollback(st)
    case Some(split) =>
      var st1 := AfterAddSplit(st, split);
      if CommitSucceeds(st1, accepts) then AfterCommit(st1) else AfterRollback(st1)
  }

  /** The lap loop over `laps`, in order. */
  function LapsRun(st: State, activityId: string, laps: seq<Value>, parse: IsoParser, accepts: SplitCheck): State
    decreases |laps|
  {
    if laps == [] then st
    else LapStep(LapsRun(st, activityId, laps[..|laps| - 1], parse, accepts), activityId, laps[|laps| - 1], parse, accepts)
  }

  /** The characters of a string, each a one-character string, as `for c in s` yields them. */
  function Chars(s: string): (r: seq<Value>)
    ensures |r| == |s|
    ensures forall i | 0 <= i < |r| :: r[i] == JStr([s[i]])
  {
    seq(|s|, i requires 0 <= i < |s| => JStr([s[i]]))
  }

  /**
   * `process_activity_splits(client, activity_id)` on the session state
   * `st`: Err carries what it re-raises, and then nothing was written.
   * Iterating a `lapDTOs` string or dict visits characters or keys, none
   * of which is a dict, so each turn rolls back.
   */
  function ProcessSplits(st: State, activityId: string, fetch: SplitsFetch, parse: IsoParser, accepts: SplitCheck)
    : Result<State, string>
  {
    match fetch
    case SplitsRaised(msg) => Err(msg)
    case SplitsReturned(d) =>
      if d == map[] || "lapDTOs" !in d then Ok(st)
      else
        match d["lapDTOs"]
        case JArr(laps) => Ok(LapsRun(st, activityId, laps, parse, accepts))
        case JStr(s) => Ok(if s == "" then st else AfterRollback(st))
        case JObj(m) => Ok(if m == map[] then st else AfterRollback(st))
        case other => Err("'" + TypeName(other) + "' object is not iterable")
  }

  /** A run of laps none of which is a dict rolls back once (or does nothing if empty). */
  lemma {:induction false} NonObjectLapsRollBack(st: State, activityId: string, laps: seq<Value>,
                                                 parse: IsoParser, accepts: SplitCheck)
    requires forall i | 0 <= i < |laps| :: !laps[i].JObj?
    ensures LapsRun(st, activityId, laps, parse, accepts) == if laps == [] then st else AfterRollback(st)
    decreases |laps|
  {
    if laps != [] {
      var init := laps[..|laps| - 1];
      NonObjectLapsRollBack(st, activityId, init, parse, accepts);
    }
  }

  /** Iterating a string or a dict as the lap list rolls back once, unless it is empty. */
  lemma IteratedLapsRollBack(st: State, activityId: string, v: Value, laps: seq<Value>,
                             parse: IsoParser, accepts: SplitCheck)
    requires (v.JStr? && laps == Chars(v.s)) ||
             (v.JObj? && |laps| == |v.fields.Keys| && forall i | 0 <= i < |laps| :: laps[i].JStr?)
    ensures v.JStr? ==> LapsRun(st, activityId, laps, parse, accepts) == if v.s == "" then st else AfterRollback(st)
    ensures v.JObj? ==> LapsRun(st, activityId, laps, parse, accepts) == if v.fields == map[] then st else AfterRollback(st)
  {
    NonObjectLapsRollBack(st, activityId, laps, parse, accepts);
    if v.JObj? && v.fields != map[] {
      var k :| k in v.fields;
      assert k in v.fields.Keys;
    }
  }

  /** The items `for x in v` visits, or None when `v` is not iterable (a dict's keys in some order). */
  method Iterate(v: Value) returns (items: Option<seq<Value>>)
    ensures v.JArr? ==> items == Some(v.items)
    ensures v.JStr? ==> items == Some(Chars(v.s))
    ensures v.JObj? ==> items.Some? && |items.value| == |v.fields.Keys|
    ensures v.JObj? ==> forall i | 0 <= i < |items.value| :: items.value[i].JStr? && items.value[i].s in v.fields
    ensures !(v.JArr? || v.JStr? || v.JObj?) ==> items.None?
  {
    match v
    case JArr(a) => items := Some(a);
    case JStr(s) => items := Some(Chars(s));
    case JObj(m) =>
      var keys := m.Keys;
      var out: seq<Value> := [];
      while keys != {}
        invariant keys <= m.Keys
        invariant |out| + |keys| == |m.Keys|
        invariant forall i | 0 <= i < |out| :: out[i].JStr? && out[i].s in m
        decreases |keys|
      {
        var k :| k in keys;
        out := out + [JStr(k)];
        keys := keys - {k};
      }
      items := Some(out);
    case _ => items := None;
  }

  // ---------------------------------------------------------------------
  // Query helpers: `sum(...)` and mapping a conversion that may raise
  // over a list (`filter(...)` and `first()` are Store's)
  // ---------------------------------------------------------------------

  /** `f` applied to every element, stopping at the first error as a `for` loop that raises does. */
  function MapResult<A, B>(f: A -> Result<B, ServiceError>, xs: seq<A>): (r: Result<seq<B>, ServiceError>)
    ensures r.Ok? ==> |r.value| == |xs|
    ensures r.Ok? ==> forall i | 0 <= i < |xs| :: f(xs[i]) == Ok(r.value[i])
    ensures r.Ok? <==> forall i | 0 <= i < |xs| :: f(xs[i]).Ok?
    decreases |xs|
  {
    if xs == [] then Ok([])
    else
      match f(xs[0])
      case Err(e) => Err(e)
      case Ok(y) =>
        match MapResult(f, xs[1..])
        case Err(e) => Err(e)
        case Ok(ys) =>
          assert forall i | 1 <= i < |xs| :: xs[i] == xs[1..][i - 1];
          Ok([y] + ys)
  }

  /** `done` followed by what is still to come, if that succeeds. */
  function PrependOk<B>(done: seq<B>, rest: Result<seq<B>, ServiceError>): Result<seq<B>, ServiceError> {
    match rest
    case Err(e) => Err(e)
    case Ok(ys) => Ok(done + ys)
  }

  /** `sum(values)`: None when a value is not a number (Python raises TypeError). */
  function Sum(vs: seq<Value>): (r: Option<real>)
    ensures r.Some? <==> forall i | 0 <= i < |vs| :: Num(vs[i]).Some?
    decreases |vs|
  {
    if vs == [] then Some(0.0)
    else
      var rest := Sum(vs[1..]);
      assert forall i | 1 <= i < |vs| :: vs[i] == vs[1..][i - 1];
      if Num(vs[0]).Some? && rest.Some? then Some(Num(vs[0]).value + rest.value) else None
  }

  function UserActivities(acts: seq<Activity>, userId: int): seq<Activity> {
    Filter((a: Activity) => a.userId == userId, acts)
  }

  function Distances(acts: seq<Activity>): seq<Value> { seq(|acts|, i requires 0 <= i < |acts| => acts[i].distance) }

  function Durations(acts: seq<Activity>): seq<Value> { seq(|acts|, i requires 0 <= i < |acts| => acts[i].duration) }

  const TypeFailure := PythonError("TypeError")

  // ---------------------------------------------------------------------
  // get_activity_summary
  // ---------------------------------------------------------------------

  datatype Summary = Summary(totalActivities: nat, totalDistance: real, totalDuration: string, averagePace: string)

  /**
   * `get_activity_summary` from the row count and the two sums (None when
   * `sum` raised TypeError).
   */
  function SummaryOfTotals(count: nat, metres: Option<real>, seconds: Option<real>): Result<Summary, ServiceError> {
    if metres.None? || seconds.None? then Err(TypeFailure)
    else
      var km := metres.value / 1000.0;
      var dur := seconds.value;
      if km > 0.0 && dur == 0.0 then Err(PythonError("ZeroDivisionError"))
      else Ok(Summary(count, Round2(km), FormatDuration(dur), AveragePace(km, dur)))
  }

  /** The summary's pace: the speed `km·1000/dur` m/s in km/h through `_speed_to_pace`, or "00:00" without distance. */
  function AveragePace(km: real, dur: real): string
    requires km > 0.0 ==> dur != 0.0
  {
    if km > 0.0 then SpeedToPace(km * 1000.0 / dur * 3.6) else "00:00"
  }

  /** `get_activity_summary` over the user's rows. */
  function SummaryOf(acts: seq<Activity>): Result<Summary, ServiceError> {
    SummaryOfTotals(|acts|, Sum(Distances(acts)), Sum(Durations(acts)))
  }

  // ---------------------------------------------------------------------
  // get_monthly_activity_summary
  // ---------------------------------------------------------------------

  /** The running totals of one month in the first loop. */
  datatype Bucket = Bucket(distanceKm: real, durationSec: real)

  /** A month's entry in the response. */
  datatype MonthSummary = MonthSummary(totalDistance: real, totalDuration: string, averagePace: string)

  /** `t[key]["total_distance"] += dk; t[key]["total_duration"] += du`, the bucket starting at zero. */
  function AddToBucket(t: map<string, Bucket>, key: string, dk: real, du: real): map<string, Bucket> {
    var b := if key in t then t[key] else Bucket(0.0, 0.0);
    t[key := Bucket(b.distanceKm + dk, b.durationSec + du)]
  }

  /** Creating the zero bucket first and then adding to it is `AddToBucket`. */
  lemma ZeroThenAdd(t0: map<string, Bucket>, key: string, dk: real, du: real)
    ensures var t1 := if key in t0 then t0 else t0[key := Bucket(0.0, 0.0)];
      t1[key := Bucket(t1[key].distanceKm + dk, t1[key].durationSec + du)] == AddToBucket(t0, key, dk, du)
  {
  }

  /**
   * The bucket key of a start time. The service uses `MonthKey`
   * (`strftime('%Y-%m')`); the loops are stated for any key function.
   */
  type MonthOf = DateTime -> string

  /** One turn of the first loop: add the activity to its `YYYY-MM` bucket. */
  function AddToMonth(t: map<string, Bucket>, a: Activity, month: MonthOf): Result<map<string, Bucket>, ServiceError> {
    if Num(a.distance).None? || Num(a.duration).None? then Err(TypeFailure)
    else Ok(AddToBucket(t, month(a.startTimeLocal), Num(a.distance).value / 1000.0, Num(a.duration).value))
  }

  /** The first loop over `acts`, in order. */
  function MonthTotals(acts: seq<Activity>, month: MonthOf): Result<map<string, Bucket>, ServiceError>
    decreases |acts|
  {
    if acts == [] then Ok(map[])
    else
      match MonthTotals(acts[..|acts| - 1], month)
      case Err(e) => Err(e)
      case Ok(t) => AddToMonth(t, acts[|acts| - 1], month)
  }

  /** The first loop over one more activity is one more `AddToMonth`. */
  lemma MonthTotalsStep(acts: seq<Activity>, i: nat, t0: map<string, Bucket>, month: MonthOf)
    requires i < |acts| && MonthTotals(acts[..i], month) == Ok(t0)
    ensures MonthTotals(acts[..i + 1], month) == AddToMonth(t0, acts[i], month)
  {
    assert acts[..i + 1][..i] == acts[..i];
  }

  /** Once the first loop raises, it raises whatever follows. */
  lemma {:induction false} MonthTotalsErrPersists(acts: seq<Activity>, k: nat, month: MonthOf)
    requires k <= |acts| && MonthTotals(acts[..k], month).Err?
    ensures MonthTotals(acts, month) == MonthTotals(acts[..k], month)
    decreases |acts| - k
  {
    if k < |acts| {
      assert acts[..k + 1][..k] == acts[..k];
      MonthTotalsErrPersists(acts, k + 1, month);
    } else {
      assert acts[..k] == acts;
    }
  }

  /** The second loop's rewrite of one bucket. */
  function MonthEntry(b: Bucket): MonthSummary {
    MonthSummary(b.distanceKm, FormatDuration(b.durationSec), BucketPace(b.distanceKm, b.durationSec))
  }

  /** The month's pace: computed only when the bucket has a positive duration, else the initial "00:00". */
  function BucketPace(km: real, dur: real): string {
    if dur > 0.0 then SpeedToPace(km * 1000.0 / dur * 3.6) else "00:00"
  }

  function MonthlySummaryOf(acts: seq<Activity>): Result<map<string, MonthSummary>, ServiceError> {
    match MonthTotals(acts, MonthKey)
    case Err(e) => Err(e)
    case Ok(t) => Ok(map k | k in t :: MonthEntry(t[k]))
  }

  // ---------------------------------------------------------------------
  // get_activities_laps_with_comments and get_activity_laps
  // ---------------------------------------------------------------------

  datatype LapView = LapView(lapIndex: Value, distanceKm: real, duration: string,
                             averageSpeedKmh: real, maxSpeedKmh: real, averagePace: string, maxPace: string,
                             averageHr: Value, maxHr: Value, averageRunCadence: Value)

  datatype CommentView = CommentView(id: int, comment: Value, createdAt: DateTime)

  datatype ActivityView = ActivityView(activityId: Value, activityName: Value, localStartTime: DateTime,
                                       distanceKm: real, duration: string,
                                       averageSpeedKmh: real, maxSpeedKmh: real, averagePace: string, maxPace: string,
                                       averageCadence: Value, averageHr: Value, maxHr: Value,
                                       laps: seq<LapView>, comments: seq<CommentView>, feedback: Option<Value>)

  /** One entry of `laps_data`: metres to km and m/s to km/h, rounded to 2 places. */
  function LapViewOf(s: ActivitySplit): Result<LapView, ServiceError> {
    LapViewFrom(s, Num(s.distance), Num(s.duration), Num(s.averageSpeed), Num(s.maxSpeed))
  }

  /** The lap entry from the numeric readings of its distance, duration and speeds (`None`: not a number). */
  function LapViewFrom(s: ActivitySplit, distance: Option<real>, duration: Option<real>,
                       averageSpeed: Option<real>, maxSpeed: Option<real>): Result<LapView, ServiceError>
  {
    if averageSpeed.None? || maxSpeed.None? || distance.None? || duration.None? then Err(TypeFailure)
    else
      var kmh := averageSpeed.value * 3.6;
      var maxKmh := maxSpeed.value * 3.6;
      Ok(LapView(s.lapIndex, Round2(distance.value / 1000.0), FormatDuration(duration.value),
                 Round2(kmh), Round2(maxKmh), SpeedToPace(kmh), SpeedToPace(maxKmh),
                 s.averageHr, s.maxHr, s.averageRunCadence))
  }

  function CommentViewOf(c: ActivityComment): CommentView {
    CommentView(c.id, c.comment, c.createdAt)
  }

  /** The splits joined to an activity: the id text they hold equals its Garmin id. */
  function LapsOf(splits: seq<ActivitySplit>, a: Activity): seq<ActivitySplit> {
    Filter((s: ActivitySplit) => SameStored(JStr(s.activityId), a.activityId), splits)
  }

  function CommentsOf(comments: seq<ActivityComment>, a: Activity): seq<ActivityComment> {
    Filter((c: ActivityComment) => c.activityId == a.activityId, comments)
  }

  /** `feedback.feedback_data if feedback else None` for the first matching feedback row. */
  function FeedbackOf(feedbacks: seq<ActivityFeedback>, a: Activity): Option<Value> {
    var k := FirstIndex((f: ActivityFeedback) => f.activityId == a.activityId, feedbacks);
    if k < |feedbacks| then Some(feedbacks[k].feedbackData) else None
  }

  function CommentViews(cs: seq<ActivityComment>): (r: seq<CommentView>)
    ensures |r| == |cs| && forall i | 0 <= i < |cs| :: r[i] == CommentViewOf(cs[i])
  {
    seq(|cs|, i requires 0 <= i < |cs| => CommentViewOf(cs[i]))
  }

  /** The activity's own conversions, made once its laps and comments are converted. */
  function ActivityViewWith(a: Activity, laps: seq<LapView>, comments: seq<CommentView>, feedback: Option<Value>)
    : Result<ActivityView, ServiceError>
  {
    ActivityViewFrom(a, Num(a.distance), Num(a.duration), Num(a.averageSpeed), Num(a.maxSpeed), laps, comments, feedback)
  }

  /** The activity's entry from the numeric readings of its distance, duration and speeds. */
  function ActivityViewFrom(a: Activity, distance: Option<real>, duration: Option<real>,
                            averageSpeed: Option<real>, maxSpeed: Option<real>,
                            laps: seq<LapView>, comments: seq<CommentView>, feedback: Option<Value>)
    : Result<ActivityView, ServiceError>
  {
    if averageSpeed.None? || maxSpeed.None? || distance.None? || duration.None? then Err(TypeFailure)
    else
      var kmh := averageSpeed.value * 3.6;
      var maxKmh := maxSpeed.value * 3.6;
      Ok(ActivityView(a.activityId, a.activityName, a.startTimeLocal,
                      Round2(distance.value / 1000.0), FormatDuration(duration.value),
                      Round2(kmh), Round2(maxKmh), SpeedToPace(kmh), SpeedToPace(maxKmh),
                      a.averageCadence, a.averageHr, a.maxHr, laps, comments, feedback))
  }

  /** One entry of the response: the lap loop runs first, then the activity's own conversions. */
  function ActivityViewOf(t: Tables, a: Activity): Result<ActivityView, ServiceError> {
    match MapResult(LapViewOf, LapsOf(t.splits, a))
    case Err(e) => Err(e)
    case Ok(laps) => ActivityViewWith(a, laps, CommentViews(CommentsOf(t.comments, a)), FeedbackOf(t.feedbacks, a))
  }

  /** The views of `acts`, in order, stopping at the first that raises. */
  function ActivityViews(t: Tables, acts: seq<Activity>): Result<seq<ActivityView>, ServiceError>
    decreases |acts|
  {
    if acts == [] then Ok([])
    else
      match ActivityViewOf(t, acts[0])
      case Err(e) => Err(e)
      case Ok(v) => PrependOk([v], ActivityViews(t, acts[1..]))
  }

  /** `a` goes before every row of `sorted` that started strictly earlier. */
  function InsertByStart(a: Activity, sorted: seq<Activity>): seq<Activity>
    decreases |sorted|
  {
    if sorted == [] || Instant(sorted[0].startTimeLocal) < Instant(a.startTimeLocal) then [a] + sorted
    else [sorted[0]] + InsertByStart(a, sorted[1..])
  }

  /** `order_by(Activity.start_time_local.desc())`: latest start first. */
  function ByStartDesc(acts: seq<Activity>): seq<Activity>
    decreases |acts|
  {
    if acts == [] then [] else InsertByStart(acts[0], ByStartDesc(acts[1..]))
  }

  predicate StartDescending(acts: seq<Activity>) {
    forall i, j | 0 <= i < j < |acts| :: Instant(acts[i].startTimeLocal) >= Instant(acts[j].startTimeLocal)
  }

  /** One more converted activity moves from what is still to come to what is done. */
  lemma ActivityViewsStep(t: Tables, acts: seq<Activity>, i: nat, done: seq<ActivityView>)
    requires i < |acts|
    ensures ActivityViewOf(t, acts[i]).Err? ==>
      PrependOk(done, ActivityViews(t, acts[i..])) == Err(ActivityViewOf(t, acts[i]).error)
    ensures ActivityViewOf(t, acts[i]).Ok? ==>
      PrependOk(done, ActivityViews(t, acts[i..]))
      == PrependOk(done + [ActivityViewOf(t, acts[i]).value], ActivityViews(t, acts[i + 1..]))
  {
    assert acts[i..][0] == acts[i] && acts[i..][1..] == acts[i + 1..];
    var rest := ActivityViews(t, acts[i + 1..]);
    if ActivityViewOf(t, acts[i]).Ok? && rest.Ok? {
      var v := ActivityViewOf(t, acts[i]).value;
      assert done + ([v] + rest.value) == (done + [v]) + rest.value;
    }
  }

  function LapsWithCommentsOf(t: Tables, userId: int): Result<seq<ActivityView>, ServiceError> {
    ActivityViews(t, ByStartDesc(UserActivities(t.activities, userId)))
  }

  /** One entry of `get_activity_laps`: the lap's `average_speed` printed with `_format_pace`. */
  datatype LapRow = LapRow(lapIndex: Value, distance: Value, duration: Value, averageSpeed: string,
                           averageHr: Value, maxHr: Value, averageRunCadence: Value)

  function LapRowOf(s: ActivitySplit): Result<LapRow, ServiceError> {
    match Num(s.averageSpeed)
    case None => Err(TypeFailure)
    case Some(v) => Ok(LapRow(s.lapIndex, s.distance, s.duration, FormatPace(v), s.averageHr, s.maxHr, s.averageRunCadence))
  }

  function ActivityLapsOf(splits: seq<ActivitySplit>, activityId: int): Result<seq<LapRow>, ServiceError> {
    MapResult(LapRowOf, Filter((s: ActivitySplit) => SameStored(JStr(s.activityId), JInt(activityId)), splits))
  }

  /** One more converted element moves from what is still to come to what is done. */
  lemma MapResultStep<A, B>(f: A -> Result<B, ServiceError>, xs: seq<A>, j: nat, done: seq<B>)
    requires j < |xs|
    ensures f(xs[j]).Err? ==> PrependOk(done, MapResult(f, xs[j..])) == Err(f(xs[j]).error)
    ensures f(xs[j]).Ok? ==>
      PrependOk(done, MapResult(f, xs[j..])) == PrependOk(done + [f(xs[j]).value], MapResult(f, xs[j + 1..]))
  {
    assert xs[j..][0] == xs[j] && xs[j..][1..] == xs[j + 1..];
    var rest := MapResult(f, xs[j + 1..]);
    if f(xs[j]).Ok? && rest.Ok? {
      var y := f(xs[j]).value;
      assert done + ([y] + rest.value) == (done + [y]) + rest.value;
    }
  }

  /** `for x in xs: out.append(f(x))` where `f` may raise: stops at the first error. */
  method ConvertAll<A, B>(f: A -> Result<B, ServiceError>, xs: seq<A>) returns (r: Result<seq<B>, ServiceError>)
    ensures r == MapResult(f, xs)
  {
    var out: seq<B> := [];
    var j := 0;
    assert xs[j..] == xs;
    assert PrependOk([], MapResult(f, xs)) == MapResult(f, xs) by {
      var x := MapResult(f, xs);
      if x.Ok? {
        assert [] + x.value == x.value;
      }
    }
    while j < |xs|
      invariant 0 <= j <= |xs|
      invariant MapResult(f, xs) == PrependOk(out, MapResult(f, xs[j..]))
    {
      MapResultStep(f, xs, j, out);
      var y := f(xs[j]);
      if y.Err? {
        return Err(y.error);
      }
      out := out + [y.value];
      j := j + 1;
    }
    assert xs[j..] == [];
    assert out + [] == out;
    r := Ok(out);
  }

  /** `for x in xs: out.append(f(x))`. */
  method ConvertEach<A, B>(f: A -> B, xs: seq<A>) returns (out: seq<B>)
    ensures |out| == |xs| && forall i | 0 <= i < |xs| :: out[i] == f(xs[i])
  {
    out := [];
    var k := 0;
    while k < |xs|
      invariant 0 <= k <= |xs|
      invariant |out| == k && forall i | 0 <= i < k :: out[i] == f(xs[i])
    {
      out := out + [f(xs[k])];
      k := k + 1;
    }
  }

  class ActivityService {
    const db: Session

    constructor (db: Session)
      ensures this.db == db
    {
      this.db := db;
    }

    /**
     * `process_activity_splits`: fetch the laps, then add and commit each
     * lap on its own, rolling back a lap that fails. `raised` is the
     * message of the exception it re-raises.
     */
    method ProcessActivitySplits(client: SplitsClient, activityId: string, parse: IsoParser)
      returns (raised: Option<string>)
      modifies db
      ensures var r := ProcessSplits(old(db.Snapshot()), activityId, client(activityId), parse, db.accepts);
        && (r.Err? <==> raised.Some?)
        && (r.Err? ==> raised == Some(r.error) && db.Snapshot() == old(db.Snapshot()))
        && (r.Ok? ==> db.Snapshot() == r.value)
    {
      ghost var st0 := db.Snapshot();
      var fetch := client(activityId);
      if fetch.SplitsRaised? {
        return Some(fetch.message);
      }
      var d := fetch.data;
      if d == map[] || "lapDTOs" !in d {
        return None;
      }
      var items := Iterate(d["lapDTOs"]);
      if items.None? {
        return Some("'" + TypeName(d["lapDTOs"]) + "' object is not iterable");
      }
      var laps := items.value;
      RunLaps(activityId, laps, parse);
      if !d["lapDTOs"].JArr? {
        IteratedLapsRollBack(st0, activityId, d["lapDTOs"], laps, parse, db.accepts);
      }
      raised := None;
    }

    /** The `for lap in ...` loop. */
    method RunLaps(activityId: string, laps: seq<Value>, parse: IsoParser)
      modifies db
      ensures db.Snapshot() == LapsRun(old(db.Snapshot()), activityId, laps, parse, db.accepts)
    {
      ghost var st0 := db.Snapshot();
      var i := 0;
      while i < |laps|
        invariant 0 <= i <= |laps|
        invariant db.Snapshot() == LapsRun(st0, activityId, laps[..i], parse, db.accepts)
      {
        assert laps[..i + 1][..i] == laps[..i];
        StoreLap(activityId, laps[i], parse);
        i := i + 1;
      }
      assert laps[..i] == laps;
    }

    /** The `try`/`except` around one lap: add and commit its split, or roll back. */
    method StoreLap(activityId: string, lap: Value, parse: IsoParser)
      modifies db
      ensures db.Snapshot() == LapStep(old(db.Snapshot()), activityId, lap, parse, db.accepts)
    {
      var split := LapSplit(activityId, lap, parse);
      if split.Some? {
        db.AddSplit(split.value);
        var ok := db.Commit();
        if !ok {
          db.Rollback();
        }
      } else {
        db.Rollback();
      }
    }

    /** `get_activity(activity_id)`: the first row with that Garmin id, or 404. */
    function GetActivity(activityId: int): (r: Result<Activity, ServiceError>)
      reads db
      ensures var acts := db.Snapshot().Visible().activities;
        r.Ok? <==> exists j | 0 <= j < |acts| :: SameStored(acts[j].activityId, JInt(activityId))
      ensures r.Ok? ==> SameStored(r.value.activityId, JInt(activityId)) && r.value in db.Snapshot().Visible().activities
      ensures r.Err? ==> r.error == HttpError(404, "Activity not found")
    {
      var acts := db.Snapshot().Visible().activities;
      var k := FirstIndex((a: Activity) => SameStored(a.activityId, JInt(activityId)), acts);
      if k < |acts| then Ok(acts[k]) else Err(HttpError(404, "Activity not found"))
    }

    /**
     * `delete_activity_comment(comment_id)`: 404 when no comment has the id;
     * otherwise mark the first one deleted and commit. A commit that fails
     * leaves the mark in the open transaction and the comment in place.
     */
    method DeleteActivityComment(commentId: int) returns (r: Result<string, ServiceError>)
      modifies db
      ensures var st := old(db.Snapshot());
        var cs := st.Visible().comments;
        var k := FirstIndex((c: ActivityComment) => c.id == commentId, cs);
        && (k == |cs| ==> r == Err(HttpError(404, "Comment not found")) && db.Snapshot() == st)
        && (k < |cs| ==> var st1 := AfterDeleteComment(st, commentId);
              if CommitSucceeds(st1, db.accepts)
              then r == Ok("Comment deleted successfully") && db.Snapshot() == AfterCommit(st1)
              else r == Err(StoreFailure) && db.Snapshot() == st1)
    {
      var cs := db.Snapshot().Visible().comments;
      var k := FirstIndex((c: ActivityComment) => c.id == commentId, cs);
      if k == |cs| {
        return Err(HttpError(404, "Comment not found"));
      }
      db.DeleteComment(commentId);
      var ok := db.Commit();
      r := if ok then Ok("Comment deleted successfully") else Err(StoreFailure);
    }

    /** `get_activity_summary(user_id)`. */
    function GetActivitySummary(userId: int): (r: Result<Summary, ServiceError>)
      reads db
      ensures r.Ok? ==> r.value.totalActivities == |UserActivities(db.Snapshot().Visible().activities, userId)|
    {
      SummaryOf(UserActivities(db.Snapshot().Visible().activities, userId))
    }

    /** `get_monthly_activity_summary(user_id)`: the bucket loop, then the pace/duration rewrite loop. */
    method GetMonthlyActivitySummary(userId: int) returns (r: Result<map<string, MonthSummary>, ServiceError>)
      ensures r == MonthlySummaryOf(UserActivities(db.Snapshot().Visible().activities, userId))
    {
      var acts := UserActivities(db.Snapshot().Visible().activities, userId);
      var totals := SumByMonth(acts, MonthKey);
      if totals.Err? {
        return Err(totals.error);
      }
      var out := RewriteMonths(totals.value);
      r := Ok(out);
    }

    /** The first loop of `get_monthly_activity_summary`: fill the `YYYY-MM` buckets. */
    method SumByMonth(acts: seq<Activity>, month: MonthOf) returns (r: Result<map<string, Bucket>, ServiceError>)
      ensures r == MonthTotals(acts, month)
    {
      var totals: map<string, Bucket> := map[];
      var i := 0;
      while i < |acts|
        invariant 0 <= i <= |acts|
        invariant MonthTotals(acts[..i], month) == Ok(totals)
      {
        ghost var t0 := totals;
        var a := acts[i];
        var key := month(a.startTimeLocal);
        if key !in totals {
          totals := totals[key := Bucket(0.0, 0.0)];
        }
        var d := Num(a.distance);
        var u := Num(a.duration);
        MonthTotalsStep(acts, i, t0, month);
        if d.None? || u.None? {
          MonthTotalsErrPersists(acts, i + 1, month);
          return Err(TypeFailure);
        }
        totals := totals[key := Bucket(totals[key].distanceKm + d.value / 1000.0, totals[key].durationSec + u.value)];
        ZeroThenAdd(t0, key, d.value / 1000.0, u.value);
        i := i + 1;
      }
      assert acts[..i] == acts;
      r := Ok(totals);
    }

    /** The second loop: give each bucket its pace and format its duration. */
    method RewriteMonths(totals: map<string, Bucket>) returns (out: map<string, MonthSummary>)
      ensures out == map k | k in totals :: MonthEntry(totals[k])
    {
      var keys := totals.Keys;
      out := map[];
      while keys != {}
        invariant keys <= totals.Keys
        invariant out == map k | k in totals.Keys - keys :: MonthEntry(totals[k])
        decreases |keys|
      {
        var month :| month in keys;
        out := out[month := MonthEntry(totals[month])];
        keys := keys - {month};
      }
    }

    /**
     * `get_activities_laps_with_comments(user_id)`: for each of the user's
     * activities, latest first, convert its laps and comments and attach its
     * first feedback.
     */
    method GetActivitiesLapsWithComments(userId: int) returns (r: Result<seq<ActivityView>, ServiceError>)
      ensures r == LapsWithCommentsOf(db.Snapshot().Visible(), userId)
    {
      var t := db.Snapshot().Visible();
      var acts := ByStartDesc(UserActivities(t.activities, userId));
      var response: seq<ActivityView> := [];
      var i := 0;
      assert acts[i..] == acts;
      assert PrependOk([], ActivityViews(t, acts)) == ActivityViews(t, acts) by {
        var x := ActivityViews(t, acts);
        if x.Ok? {
          assert [] + x.value == x.value;
        }
      }
      while i < |acts|
        invariant 0 <= i <= |acts|
        invariant LapsWithCommentsOf(t, userId) == PrependOk(response, ActivityViews(t, acts[i..]))
      {
        var a := acts[i];
        ActivityViewsStep(t, acts, i, response);
        var view := ViewActivity(t, a);
        if view.Err? {
          return Err(view.error);
        }
        response := response + [view.value];
        i := i + 1;
      }
      assert acts[i..] == [];
      assert response + [] == response;
      r := Ok(response);
    }

    /** The body of the outer loop for one activity: the lap loop, the comment loop, the entry. */
    method ViewActivity(t: Tables, a: Activity) returns (view: Result<ActivityView, ServiceError>)
      ensures view == ActivityViewOf(t, a)
    {
      var lapsData := ConvertAll(LapViewOf, LapsOf(t.splits, a));
      if lapsData.Err? {
        return Err(lapsData.error);
      }
      var commentsData := ConvertEach(CommentViewOf, CommentsOf(t.comments, a));
      assert commentsData == CommentViews(CommentsOf(t.comments, a));
      view := ActivityViewWith(a, lapsData.value, commentsData, FeedbackOf(t.feedbacks, a));
    }

    /** `get_activity_laps(activity_id)`: the laps of one activity, `average_speed` through `_format_pace`. */
    function GetActivityLaps(activityId: int): (r: Result<seq<LapRow>, ServiceError>)
      reads db
      ensures r.Ok? ==> |r.value| == |Filter((s: ActivitySplit) => SameStored(JStr(s.activityId), JInt(activityId)), db.Snapshot().Visible().splits)|
    {
      ActivityLapsOf(db.Snapshot().Visible().splits, activityId)
    }
  }
}
