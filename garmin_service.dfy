/**
 * `GarminService` (backend/app/services/garmin_service.py): `sync_activities`
 * logs in, fetches the latest records, and for each record that is new for
 * the user turns it into an `activities` row, flushes it and reconciles its
 * laps through `ActivityService`; one commit ends the run, and any failure
 * that escapes the per-record handler rolls the session back.
 *
 * The Garmin client is a value: whether `login()` succeeds, what
 * `get_activities(0, 100)` returned (None when it raised), and the splits
 * call as a function of the id text.
 */
module GarminSync {
  import opened Wrappers
  import opened Text
  import opened Json
  import opened Dates
  import opened Models
  import opened Store
  import opened Activities

  datatype GarminClient = GarminClient(loginOk: bool, feed: Option<seq<Value>>, splits: SplitsClient)

  /** What `sync_activities` returns, or the HTTPException it raises. */
  datatype SyncOutcome =
    | NoActivities                          // {"message": "No activities found"}
    | Synced(count: nat, total: nat)        // {"message": ..., "total_activities": total}
    | Failed(error: ServiceError)

  /** The `message` of a response. */
  function SyncMessage(o: SyncOutcome): string
    requires !o.Failed?
  {
    match o
    case NoActivities => "No activities found"
    case Synced(n, _) => "Successfully synced " + IntToString(n) + " activities"
  }

  /** The 401 of the login step, re-wrapped by the outer handler as a 500 carrying `str(e)`. */
  const LoginFailure: ServiceError := HttpError(500, "401: Failed to login to Garmin Connect")

  const FetchFailure: ServiceError := HttpError(500, "500: Failed to fetch activities from Garmin Connect")

  // ---------------------------------------------------------------------
  // The record transform
  // ---------------------------------------------------------------------

  /** `{'zone_1': d.get(prefix + '1', 0), ..., 'zone_5': d.get(prefix + '5', 0)}`. */
  function Zones(d: Object, prefix: string): map<string, Value> {
    map["zone_1" := GetOr(d, prefix + "1", JInt(0)),
        "zone_2" := GetOr(d, prefix + "2", JInt(0)),
        "zone_3" := GetOr(d, prefix + "3", JInt(0)),
        "zone_4" := GetOr(d, prefix + "4", JInt(0)),
        "zone_5" := GetOr(d, prefix + "5", JInt(0))]
  }

  /** `datetime.fromisoformat(v)`: a TypeError unless `v` is a string, a ValueError when it does not parse. */
  function Timestamp(v: Value, parse: IsoParser): Option<DateTime> {
    if v.JStr? then parse(v.s) else None
  }

  datatype Times = Times(startLocal: DateTime, startGmt: DateTime, endGmt: DateTime)

  /** The three timestamps of a record, or None when one of them raises. */
  function RecordTimes(d: Object, parse: IsoParser): Option<Times> {
    var sl := Timestamp(Get(d, "startTimeLocal"), parse);
    var sg := Timestamp(Get(d, "startTimeGMT"), parse);
    var eg := Timestamp(Get(d, "endTimeGMT"), parse);
    if sl.None? || sg.None? || eg.None? then None else Some(Times(sl.value, sg.value, eg.value))
  }

  /** The `Activity(...)` row built from a record once its timestamps are parsed. */
  function ActivityRow(userId: int, d: Object, t: Times): Activity {
    Activity(
      Get(d, "activityId"), Get(d, "activityName"), userId, t.startLocal, t.startGmt, t.endGmt,
      Get(d, "activityType"), Get(d, "eventType"), Get(d, "distance"), Get(d, "duration"),
      Get(d, "elapsedDuration"), Get(d, "movingDuration"), Get(d, "elevationGain"), Get(d, "elevationLoss"),
      Get(d, "minElevation"), Get(d, "maxElevation"), GetOr(d, "elevationCorrected", JBool(false)),
      Get(d, "averageSpeed"), Get(d, "maxSpeed"), Get(d, "startLatitude"), Get(d, "startLongitude"),
      Get(d, "endLatitude"), Get(d, "endLongitude"), Get(d, "averageHR"), Get(d, "maxHR"),
      Zones(d, "hrTimeInZone_"), Get(d, "avgPower"), Get(d, "maxPower"), Zones(d, "powerTimeInZone_"),
      Get(d, "aerobicTrainingEffect"), Get(d, "anaerobicTrainingEffect"), Get(d, "trainingEffectLabel"),
      Get(d, "vO2MaxValue"), Get(d, "averageRunningCadenceInStepsPerMinute"),
      Get(d, "maxRunningCadenceInStepsPerMinute"), Get(d, "avgVerticalOscillation"),
      Get(d, "avgGroundContactTime"), Get(d, "avgStrideLength"), Get(d, "calories"), Get(d, "waterEstimated"),
      Get(d, "activityTrainingLoad"), Get(d, "moderateIntensityMinutes"), Get(d, "vigorousIntensityMinutes"),
      Get(d, "steps"), Get(d, "timeZoneId"), Get(d, "sportTypeId"), Get(d, "deviceId"), Get(d, "manufacturer"),
      Get(d, "lapCount"), Get(d, "privacy"), GetOr(d, "favorite", JBool(false)),
      GetOr(d, "manualActivity", JBool(false)))
  }

  /** The row the record becomes, or None when a timestamp raises (the record is skipped). */
  function Transform(userId: int, d: Object, parse: IsoParser): Option<Activity> {
    var t := RecordTimes(d, parse);
    if t.None? then None else Some(ActivityRow(userId, d, t.value))
  }

  /** The existence query binds its parameters: otherwise it raises, and the record is skipped. */
  predicate QueryBinds(userId: int, activityId: Value) {
    Bindable(JInt(userId)) && Bindable(activityId)
  }

  /** Where the existence query finds the user's row with that Garmin id (`|acts|`: none). */
  function ExistingIndex(acts: seq<Activity>, userId: int, activityId: Value): nat {
    FirstIndex((a: Activity) => a.userId == userId && SameStored(a.activityId, activityId), acts)
  }

  // ---------------------------------------------------------------------
  // GarminService.process_activity_splits
  // ---------------------------------------------------------------------

  /**
   * Where the lookup `activity_id == str(activity_id)` finds a row (`|acts|`:
   * none). The text meets the held value: a NULL id is never found, and a
   * bool id is held as 0 or 1, which its text "True" or "False" does not equal.
   */
  function IdIndex(acts: seq<Activity>, text: string): nat {
    FirstIndex((a: Activity) => StoredKey(a.activityId) == Some(text), acts)
  }

  /**
   * `process_activity_splits(client, activity_id)`: find the row by the id
   * text, then let `ActivityService` reconcile the laps; whatever raises
   * comes back as a 500 carrying its text. The laps are fetched under the
   * text the row found holds, which is the text looked up. An id whose
   * `str()` is not rendered here (a float, list or dict) fails in the query.
   */
  function SplitsFor(st: State, activityId: Value, client: SplitsClient, parse: IsoParser, accepts: SplitCheck)
    : Result<State, ServiceError>
  {
    var text := IdText(activityId);
    if text.None? then Err(StoreFailure)
    else
      var acts := st.Visible().activities;
      var k := IdIndex(acts, text.value);
      if k == |acts| then Err(HttpError(500, "404: Activity not found"))
      else
        var r := ProcessSplits(st, text.value, client(text.value), parse, accepts);
        if r.Err? then Err(HttpError(500, r.error)) else Ok(r.value)
  }

  // ---------------------------------------------------------------------
  // sync_activities
  // ---------------------------------------------------------------------

  /**
   * The session and `synced_count` during the record loop, what escaped the
   * loop body if anything did, and whether a flush failed: the session then
   * raises on every query and on the commit until it is rolled back.
   */
  datatype Progress = Progress(st: State, count: nat, raised: Option<ServiceError>, broken: bool)

  /** The AttributeError `rec.get(...)` raises for a record that is not a dict. */
  function NoGet(rec: Value): ServiceError {
    HttpError(500, "'" + TypeName(rec) + "' object has no attribute 'get'")
  }

  /**
   * One turn of the record loop. A record that is not a dict raises inside
   * the `except` handler as well (its log line calls `.get` again), so the
   * error escapes the loop. The existence query raises, and the record is
   * skipped, once a flush has failed or when its parameters do not bind. A
   * known record and one with a bad timestamp are skipped; otherwise the
   * row is stored.
   */
  function RecordStep(p: Progress, userId: int, rec: Value, client: SplitsClient, parse: IsoParser, accepts: SplitCheck)
    : Progress
  {
    if !rec.JObj? then p.(raised := Some(NoGet(rec)))
    else
      var d := rec.fields;
      var acts := p.st.Visible().activities;
      if p.broken || !QueryBinds(userId, Get(d, "activityId")) then p
      else if ExistingIndex(acts, userId, Get(d, "activityId")) < |acts| then p
      else
        var row := Transform(userId, d, parse);
        if row.None? then p else StoreRow(p, row.value, client, parse, accepts)
  }

  /**
   * A new row is added and flushed, counted, and its laps reconciled; an
   * error there is caught and only logged. A flush that fails raises before
   * the count, and leaves the session broken.
   */
  function StoreRow(p: Progress, row: Activity, client: SplitsClient, parse: IsoParser, accepts: SplitCheck): Progress {
    var st0 := AfterAdd(p.st, row);
    if !FlushSucceeds(st0) then Progress(st0, p.count, None, true)
    else
      var st1 := AfterFlush(st0);
      var r := SplitsFor(st1, row.activityId, client, parse, accepts);
      Progress(if r.Ok? then r.value else st1, p.count + 1, None, false)
  }

  /** The record loop over `recs`, in order, stopping when something escapes. */
  function RecordsRun(p: Progress, userId: int, recs: seq<Value>, client: SplitsClient, parse: IsoParser, accepts: SplitCheck)
    : Progress
    decreases |recs|
  {
    if recs == [] then p
    else
      var q := RecordsRun(p, userId, recs[..|recs| - 1], client, parse, accepts);
      if q.raised.Some? then q else RecordStep(q, userId, recs[|recs| - 1], client, parse, accepts)
  }

  datatype SyncRun = SyncRun(outcome: SyncOutcome, st: State)

  /** `sync_activities(user_id, ...)` on the session state `st`. */
  function Sync(st: State, userId: int, client: GarminClient, parse: IsoParser, accepts: SplitCheck): SyncRun {
    if !client.loginOk then SyncRun(Failed(LoginFailure), AfterRollback(st))
    else if client.feed.None? then SyncRun(Failed(FetchFailure), AfterRollback(st))
    else if client.feed.value == [] then SyncRun(NoActivities, st)
    else
      var q := RecordsRun(Progress(st, 0, None, false), userId, client.feed.value, client.splits, parse, accepts);
      if q.raised.Some? then SyncRun(Failed(q.raised.value), AfterRollback(q.st))
      else if q.broken then SyncRun(Failed(StoreFailure), AfterRollback(q.st))
      else if CommitSucceeds(q.st, accepts) then SyncRun(Synced(q.count, |client.feed.value|), AfterCommit(q.st))
      else SyncRun(Failed(StoreFailure), AfterRollback(q.st))
  }

  class GarminService {
    const db: Session

    constructor (db: Session)
      ensures this.db == db
    {
      this.db := db;
    }

    /** `process_activity_splits(client, activity_id)`. */
    method ProcessActivitySplits(client: SplitsClient, activityId: Value, parse: IsoParser)
      returns (r: Result<string, ServiceError>)
      modifies db
      ensures var s := SplitsFor(old(db.Snapshot()), activityId, client, parse, db.accepts);
        && (s.Ok? ==> r == Ok("Activity splits processed successfully") && db.Snapshot() == s.value)
        && (s.Err? ==> r == Err(s.error) && db.Snapshot() == old(db.Snapshot()))
    {
      var text := IdText(activityId);
      if text.None? {
        return Err(StoreFailure);
      }
      var acts := db.Snapshot().Visible().activities;
      var k := IdIndex(acts, text.value);
      if k == |acts| {
        return Err(HttpError(500, "404: Activity not found"));
      }
      var service := new ActivityService(db);
      var raised := service.ProcessActivitySplits(client, text.value, parse);
      if raised.Some? {
        return Err(HttpError(500, raised.value));
      }
      r := Ok("Activity splits processed successfully");
    }

    /** `sync_activities(user_id, garmin_email, garmin_password)`. */
    method SyncActivities(userId: int, client: GarminClient, parse: IsoParser) returns (r: SyncOutcome)
      modifies db
      ensures var run := Sync(old(db.Snapshot()), userId, client, parse, db.accepts);
        r == run.outcome && db.Snapshot() == run.st
    {
      if !client.loginOk {
        db.Rollback();
        return Failed(LoginFailure);
      }
      if client.feed.None? {
        db.Rollback();
        return Failed(FetchFailure);
      }
      var feed := client.feed.value;
      if feed == [] {
        return NoActivities;
      }
      var count, raised, broken := SyncRecords(userId, feed, client.splits, parse);
      if raised.Some? {
        db.Rollback();
        return Failed(raised.value);
      }
      if broken {
        db.Rollback();
        return Failed(StoreFailure);
      }
      var ok := db.Commit();
      if !ok {
        db.Rollback();
        return Failed(StoreFailure);
      }
      r := Synced(count, |feed|);
    }

    /** The `for activity_data in activities` loop. */
    method SyncRecords(userId: int, recs: seq<Value>, client: SplitsClient, parse: IsoParser)
      returns (count: nat, raised: Option<ServiceError>, broken: bool)
      modifies db
      ensures var q := RecordsRun(Progress(old(db.Snapshot()), 0, None, false), userId, recs, client, parse, db.accepts);
        db.Snapshot() == q.st && count == q.count && raised == q.raised && broken == q.broken
    {
      ghost var p0 := Progress(db.Snapshot(), 0, None, false);
      count, raised, broken := 0, None, false;
      var i := 0;
      while i < |recs| && raised.None?
        invariant 0 <= i <= |recs|
        invariant RecordsRun(p0, userId, recs[..i], client, parse, db.accepts) == Progress(db.Snapshot(), count, raised, broken)
      {
        RecordsRunSnoc(p0, userId, recs, i, client, parse, db.accepts);
        count, raised, broken := SyncRecord(userId, recs[i], client, parse, count, broken);
        i := i + 1;
      }
      RaisedStops(p0, userId, recs, i, client, parse, db.accepts);
    }

    /** The body of the record loop, with its `try`/`except`. */
    method SyncRecord(userId: int, rec: Value, client: SplitsClient, parse: IsoParser, count: nat, broken: bool)
      returns (count': nat, raised: Option<ServiceError>, broken': bool)
      modifies db
      ensures RecordStep(Progress(old(db.Snapshot()), count, None, broken), userId, rec, client, parse, db.accepts)
              == Progress(db.Snapshot(), count', raised, broken')
    {
      if !rec.JObj? {
        return count, Some(NoGet(rec)), broken;
      }
      var d := rec.fields;
      if broken || !QueryBinds(userId, Get(d, "activityId")) {
        return count, None, broken;
      }
      var acts := db.Snapshot().Visible().activities;
      if ExistingIndex(acts, userId, Get(d, "activityId")) < |acts| {
        return count, None, broken;
      }
      var row := Transform(userId, d, parse);
      if row.None? {
        return count, None, broken;
      }
      count', broken' := SaveRecord(row.value, client, parse, count);
      raised := None;
    }

    /**
     * `add`, `flush`, then the laps; what the lap step raises is caught and
     * only logged. A flush that fails raises before the count.
     */
    method SaveRecord(row: Activity, client: SplitsClient, parse: IsoParser, count: nat) returns (count': nat, broken: bool)
      modifies db
      ensures StoreRow(Progress(old(db.Snapshot()), count, None, false), row, client, parse, db.accepts)
              == Progress(db.Snapshot(), count', None, broken)
    {
      db.Add(row);
      var ok := db.Flush();
      if !ok {
        return count, true;
      }
      count', broken := count + 1, false;
      var _ := ProcessActivitySplits(client, row.activityId, parse);
    }
  }

  /** The loop over the first `i + 1` records is one more turn after the first `i`. */
  lemma RecordsRunSnoc(p: Progress, userId: int, recs: seq<Value>, i: nat,
                       client: SplitsClient, parse: IsoParser, accepts: SplitCheck)
    requires i < |recs| && RecordsRun(p, userId, recs[..i], client, parse, accepts).raised.None?
    ensures RecordsRun(p, userId, recs[..i + 1], client, parse, accepts)
            == RecordStep(RecordsRun(p, userId, recs[..i], client, parse, accepts), userId, recs[i], client, parse, accepts)
  {
    assert recs[..i + 1][..i] == recs[..i];
  }

  /** Once something escaped at record `i` (or all records ran), the rest of the loop does not run. */
  lemma {:induction false} RaisedStops(p: Progress, userId: int, recs: seq<Value>, i: nat,
                                       client: SplitsClient, parse: IsoParser, accepts: SplitCheck)
    requires i <= |recs|
    requires i == |recs| || RecordsRun(p, userId, recs[..i], client, parse, accepts).raised.Some?
    ensures RecordsRun(p, userId, recs, client, parse, accepts) == RecordsRun(p, userId, recs[..i], client, parse, accepts)
    decreases |recs| - i
  {
    if i < |recs| {
      assert recs[..i + 1][..i] == recs[..i];
      RaisedStops(p, userId, recs, i + 1, client, parse, accepts);
    } else {
      assert recs[..i] == recs;
    }
  }
}
