/**
 * What `sync_activities` promises, proved about the functions of module
 * GarminSync: the existence check, the record transform, the count, the
 * failure paths, and what the per-lap commits of the lap reconciler do to
 * a record that was counted.
 */
module GarminSyncLemmas {
  import opened Wrappers
  import opened Json
  import opened Dates
  import opened Models
  import opened Store
  import opened Activities
  import opened ActivitiesLemmas
  import opened GarminSync

  /** The user already has a row with this Garmin id among the rows the session sees. */
  predicate Known(st: State, userId: int, activityId: Value) {
    var acts := st.Visible().activities;
    exists j | 0 <= j < |acts| :: acts[j].userId == userId && SameStored(acts[j].activityId, activityId)
  }

  /** The existence query finds a row exactly when the user has one with that id. */
  lemma ExistingIndexMeaning(acts: seq<Activity>, userId: int, activityId: Value)
    ensures ExistingIndex(acts, userId, activityId) <= |acts|
    ensures ExistingIndex(acts, userId, activityId) < |acts| <==>
      exists j | 0 <= j < |acts| :: acts[j].userId == userId && SameStored(acts[j].activityId, activityId)
  {
    var k := ExistingIndex(acts, userId, activityId);
    if k < |acts| {
      assert acts[k].userId == userId && SameStored(acts[k].activityId, activityId);
    }
  }

  // ---------------------------------------------------------------------
  // The record transform
  // ---------------------------------------------------------------------

  /**
   * Both zone maps have exactly the keys zone_1 .. zone_5; a vendor field
   * that is absent becomes 0, one that is present (even a null) is copied.
   */
  lemma ZonesMeaning(d: Object, prefix: string)
    ensures Zones(d, prefix).Keys == {"zone_1", "zone_2", "zone_3", "zone_4", "zone_5"}
    ensures var z := Zones(d, prefix);
      && z["zone_1"] == (if prefix + "1" in d then d[prefix + "1"] else JInt(0))
      && z["zone_2"] == (if prefix + "2" in d then d[prefix + "2"] else JInt(0))
      && z["zone_3"] == (if prefix + "3" in d then d[prefix + "3"] else JInt(0))
      && z["zone_4"] == (if prefix + "4" in d then d[prefix + "4"] else JInt(0))
      && z["zone_5"] == (if prefix + "5" in d then d[prefix + "5"] else JInt(0))
  {
  }

  /**
   * A record is kept exactly when each of its three timestamps is present,
   * a string, and parses; otherwise it is skipped.
   */
  lemma TransformFails(userId: int, d: Object, parse: IsoParser)
    ensures Transform(userId, d, parse).Some? <==>
      && "startTimeLocal" in d && d["startTimeLocal"].JStr? && parse(d["startTimeLocal"].s).Some?
      && "startTimeGMT" in d && d["startTimeGMT"].JStr? && parse(d["startTimeGMT"].s).Some?
      && "endTimeGMT" in d && d["endTimeGMT"].JStr? && parse(d["endTimeGMT"].s).Some?
  {
  }

  /** The row carries the user, the parsed timestamps and the record's Garmin id and name. */
  lemma TransformKeys(userId: int, d: Object, parse: IsoParser)
    requires Transform(userId, d, parse).Some?
    ensures var a := Transform(userId, d, parse).value;
      && a.userId == userId
      && a.activityId == Get(d, "activityId") && a.activityName == Get(d, "activityName")
      && Some(a.startTimeLocal) == parse(d["startTimeLocal"].s)
      && Some(a.startTimeGmt) == parse(d["startTimeGMT"].s)
      && Some(a.endTimeGmt) == parse(d["endTimeGMT"].s)
      && a.hrTimeInZones == Zones(d, "hrTimeInZone_") && a.powerTimeInZones == Zones(d, "powerTimeInZone_")
  {
  }

  /** The three flags default to False when absent; a stored value, even a null, is copied. */
  lemma TransformFlags(userId: int, d: Object, parse: IsoParser)
    requires Transform(userId, d, parse).Some?
    ensures var a := Transform(userId, d, parse).value;
      && a.elevationCorrected == (if "elevationCorrected" in d then d["elevationCorrected"] else JBool(false))
      && a.favorite == (if "favorite" in d then d["favorite"] else JBool(false))
      && a.manualActivity == (if "manualActivity" in d then d["manualActivity"] else JBool(false))
  {
  }

  /** The columns whose vendor key has another name. */
  lemma TransformRenames(userId: int, d: Object, parse: IsoParser)
    requires Transform(userId, d, parse).Some?
    ensures var a := Transform(userId, d, parse).value;
      && a.averageCadence == Get(d, "averageRunningCadenceInStepsPerMinute")
      && a.maxCadence == Get(d, "maxRunningCadenceInStepsPerMinute")
      && a.vo2maxValue == Get(d, "vO2MaxValue")
      && a.averageHr == Get(d, "averageHR") && a.maxHr == Get(d, "maxHR")
  {
  }

  /** The numeric columns the summaries read copy their vendor keys. */
  lemma TransformMeasures(userId: int, d: Object, parse: IsoParser)
    requires Transform(userId, d, parse).Some?
    ensures var a := Transform(userId, d, parse).value;
      && a.distance == Get(d, "distance") && a.duration == Get(d, "duration")
      && a.averageSpeed == Get(d, "averageSpeed") && a.maxSpeed == Get(d, "maxSpeed")
      && a.lapCount == Get(d, "lapCount") && a.calories == Get(d, "calories")
  {
  }

  // ---------------------------------------------------------------------
  // One turn of the record loop
  // ---------------------------------------------------------------------

  /**
   * A record that is not a dict escapes the loop and changes nothing; a
   * record whose existence query raises (the session is broken, or a
   * parameter does not bind), a known record, or one whose dates raise, is
   * skipped and not counted.
   */
  lemma RecordStepSkips(p: Progress, userId: int, rec: Value, client: SplitsClient, parse: IsoParser, accepts: SplitCheck)
    ensures !rec.JObj? ==>
      RecordStep(p, userId, rec, client, parse, accepts) == Progress(p.st, p.count, Some(NoGet(rec)), p.broken)
    ensures rec.JObj? && (p.broken || !QueryBinds(userId, Get(rec.fields, "activityId"))) ==>
      RecordStep(p, userId, rec, client, parse, accepts) == p
    ensures rec.JObj? && Known(p.st, userId, Get(rec.fields, "activityId")) ==>
      RecordStep(p, userId, rec, client, parse, accepts) == p
    ensures rec.JObj? && Transform(userId, rec.fields, parse).None? ==>
      RecordStep(p, userId, rec, client, parse, accepts) == p
  {
    if rec.JObj? {
      ExistingIndexMeaning(p.st.Visible().activities, userId, Get(rec.fields, "activityId"));
    }
  }

  /** A new record with good dates, queried on a working session with parameters that bind, is stored. */
  lemma RecordStepStores(p: Progress, userId: int, rec: Value, client: SplitsClient, parse: IsoParser, accepts: SplitCheck)
    requires rec.JObj? && !p.broken && QueryBinds(userId, Get(rec.fields, "activityId"))
    requires !Known(p.st, userId, Get(rec.fields, "activityId"))
    requires Transform(userId, rec.fields, parse).Some?
    ensures RecordStep(p, userId, rec, client, parse, accepts)
            == StoreRow(p, Transform(userId, rec.fields, parse).value, client, parse, accepts)
  {
    ExistingIndexMeaning(p.st.Visible().activities, userId, Get(rec.fields, "activityId"));
  }

  /**
   * Storing a row adds it and flushes it. The row is counted exactly when
   * the flush succeeds; its laps are then reconciled, and when reconciling
   * raises, the failure is swallowed and the flushed row stays in the open
   * transaction. A flush that fails raises before the count and breaks the
   * session.
   */
  lemma StoreRowMeaning(p: Progress, row: Activity, client: SplitsClient, parse: IsoParser, accepts: SplitCheck)
    ensures StoreRow(p, row, client, parse, accepts).raised.None?
    ensures StoreRow(p, row, client, parse, accepts).count == p.count + 1 <==> FlushSucceeds(p.st) && RowBinds(row)
    ensures !(FlushSucceeds(p.st) && RowBinds(row)) ==>
      StoreRow(p, row, client, parse, accepts) == Progress(AfterAdd(p.st, row), p.count, None, true)
    ensures FlushSucceeds(p.st) && RowBinds(row) ==>
      var st1 := AfterFlush(AfterAdd(p.st, row));
      var r := SplitsFor(st1, row.activityId, client, parse, accepts);
      && !StoreRow(p, row, client, parse, accepts).broken
      && st1.Visible().activities == p.st.Visible().activities + p.st.pending.activities + [row]
      && st1.committed == p.st.committed && st1.pending == Empty
      && StoreRow(p, row, client, parse, accepts).st == (if r.Ok? then r.value else st1)
  {
    FlushSucceedsAdd(p.st, row);
    var st1 := AfterFlush(AfterAdd(p.st, row));
    assert st1.Visible().activities == p.st.committed.activities + (p.st.flushed.activities + (p.st.pending.activities + [row]));
  }

  /** Storing keeps every committed row, and leaves no split open when none was. */
  lemma StoreRowKeeps(p: Progress, row: Activity, client: SplitsClient, parse: IsoParser, accepts: SplitCheck)
    ensures p.st.committed.activities <= StoreRow(p, row, client, parse, accepts).st.committed.activities
    ensures NoOpenSplits(p.st) ==> NoOpenSplits(StoreRow(p, row, client, parse, accepts).st)
  {
    if FlushSucceeds(AfterAdd(p.st, row)) {
      var st1 := AfterFlush(AfterAdd(p.st, row));
      SplitsForKeeps(st1, row.activityId, client, parse, accepts);
    }
  }

  // ---------------------------------------------------------------------
  // GarminService.process_activity_splits
  // ---------------------------------------------------------------------

  /**
   * The lookup by id text finds the row just flushed when the row holds its
   * id as that very text, as an integer or string id is held; the call is
   * then `ActivityService.process_activity_splits` with its error re-raised
   * as a 500 carrying its text. An id whose `str()` is not rendered fails.
   */
  lemma SplitsForFlushedRow(st: State, row: Activity, client: SplitsClient, parse: IsoParser, accepts: SplitCheck)
    ensures var st1 := AfterFlush(AfterAdd(st, row));
      var text := IdText(row.activityId);
      && (text.None? ==> SplitsFor(st1, row.activityId, client, parse, accepts) == Err(StoreFailure))
      && (text.Some? && StoredKey(row.activityId) == text ==>
            var r := ProcessSplits(st1, text.value, client(text.value), parse, accepts);
            SplitsFor(st1, row.activityId, client, parse, accepts) == if r.Ok? then Ok(r.value) else Err(HttpError(500, r.error)))
  {
    var st1 := AfterFlush(AfterAdd(st, row));
    var acts := st1.Visible().activities;
    assert acts == st.committed.activities + (st.flushed.activities + (st.pending.activities + [row]));
    assert acts[|acts| - 1] == row;
    var text := IdText(row.activityId);
    if text.Some? && StoredKey(row.activityId) == text {
      assert StoredKey(acts[|acts| - 1].activityId) == Some(text.value);
    }
  }

  /**
   * A null or bool id is looked up by the text "None", "True" or "False",
   * which the row just flushed does not hold (NULL, or 0 or 1): unless some
   * other row holds that very string, the lookup is the 404 re-raised as a
   * 500, and the laps are never fetched.
   */
  lemma SplitsForUnfoundId(st: State, row: Activity, client: SplitsClient, parse: IsoParser, accepts: SplitCheck)
    requires row.activityId.JNull? || row.activityId.JBool?
    requires forall a | a in st.Visible().activities + st.pending.activities :: StoredKey(a.activityId) != IdText(row.activityId)
    ensures SplitsFor(AfterFlush(AfterAdd(st, row)), row.activityId, client, parse, accepts)
         == Err(HttpError(500, "404: Activity not found"))
  {
    var st1 := AfterFlush(AfterAdd(st, row));
    assert st1.Visible().activities == (st.Visible().activities + st.pending.activities) + [row];
    SplitsForMissingRow(st1, row.activityId, client, parse, accepts);
  }

  /** A row nobody holds under the id text makes the call a 404 re-raised as a 500. */
  lemma SplitsForMissingRow(st: State, activityId: Value, client: SplitsClient, parse: IsoParser, accepts: SplitCheck)
    requires IdText(activityId).Some?
    requires forall a | a in st.Visible().activities :: StoredKey(a.activityId) != IdText(activityId)
    ensures SplitsFor(st, activityId, client, parse, accepts) == Err(HttpError(500, "404: Activity not found"))
  {
    var acts := st.Visible().activities;
    forall j | 0 <= j < |acts|
      ensures StoredKey(acts[j].activityId) != IdText(activityId)
    {
      assert acts[j] in acts;
    }
  }

  /** Reconciling laps from a state without open splits leaves none open, and loses no committed row. */
  lemma SplitsForKeeps(st: State, activityId: Value, client: SplitsClient, parse: IsoParser, accepts: SplitCheck)
    ensures var r := SplitsFor(st, activityId, client, parse, accepts);
      r.Ok? ==> st.committed.activities <= r.value.committed.activities
    ensures var r := SplitsFor(st, activityId, client, parse, accepts);
      r.Ok? && NoOpenSplits(st) ==> NoOpenSplits(r.value)
  {
    var text := IdText(activityId);
    if text.Some? {
      var fetch := client(text.value);
      ProcessSplitsMeaning(st, text.value, fetch, parse, accepts);
      if fetch.SplitsReturned? && fetch.data != map[] && "lapDTOs" in fetch.data && fetch.data["lapDTOs"].JArr? {
        LapsRunKeeps(st, text.value, fetch.data["lapDTOs"].items, parse, accepts);
      }
    }
  }

  // ---------------------------------------------------------------------
  // The record loop
  // ---------------------------------------------------------------------

  /** `synced_count` grows by at most one per record, and the loop keeps no split open. */
  lemma {:induction false} RecordsRunCount(p: Progress, userId: int, recs: seq<Value>,
                                           client: SplitsClient, parse: IsoParser, accepts: SplitCheck)
    ensures var q := RecordsRun(p, userId, recs, client, parse, accepts);
      p.count <= q.count <= p.count + |recs|
    ensures NoOpenSplits(p.st) ==> NoOpenSplits(RecordsRun(p, userId, recs, client, parse, accepts).st)
    decreases |recs|
  {
    if recs != [] {
      var init := recs[..|recs| - 1];
      var rec := recs[|recs| - 1];
      RecordsRunCount(p, userId, init, client, parse, accepts);
      var q := RecordsRun(p, userId, init, client, parse, accepts);
      RecordStepBounds(q, userId, rec, client, parse, accepts);
    }
  }

  /** One turn counts at most one record and leaves no split open when none was. */
  lemma RecordStepBounds(p: Progress, userId: int, rec: Value, client: SplitsClient, parse: IsoParser, accepts: SplitCheck)
    ensures var q := RecordStep(p, userId, rec, client, parse, accepts);
      p.count <= q.count <= p.count + 1 && (NoOpenSplits(p.st) ==> NoOpenSplits(q.st))
  {
    if rec.JObj? {
      var row := Transform(userId, rec.fields, parse);
      if !p.broken && QueryBinds(userId, Get(rec.fields, "activityId"))
         && !Known(p.st, userId, Get(rec.fields, "activityId")) && row.Some? {
        RecordStepStores(p, userId, rec, client, parse, accepts);
        StoreRowMeaning(p, row.value, client, parse, accepts);
        StoreRowKeeps(p, row.value, client, parse, accepts);
      } else {
        RecordStepSkips(p, userId, rec, client, parse, accepts);
      }
    }
  }

  /** Every record is a dict the user already has. */
  predicate AllKnown(st: State, userId: int, recs: seq<Value>) {
    forall i | 0 <= i < |recs| :: recs[i].JObj? && Known(st, userId, Get(recs[i].fields, "activityId"))
  }

  /** Over records that all exist already, the loop changes nothing and counts nothing. */
  lemma {:induction false} RerunChangesNothing(p: Progress, userId: int, recs: seq<Value>,
                                               client: SplitsClient, parse: IsoParser, accepts: SplitCheck)
    requires p.raised.None? && AllKnown(p.st, userId, recs)
    ensures RecordsRun(p, userId, recs, client, parse, accepts) == p
    decreases |recs|
  {
    if recs != [] {
      var init := recs[..|recs| - 1];
      assert AllKnown(p.st, userId, init) by {
        forall i | 0 <= i < |init| ensures init[i] == recs[i] { }
      }
      RerunChangesNothing(p, userId, init, client, parse, accepts);
      assert recs[|recs| - 1].JObj? && Known(p.st, userId, Get(recs[|recs| - 1].fields, "activityId"));
      RecordStepSkips(p, userId, recs[|recs| - 1], client, parse, accepts);
    }
  }

  // ---------------------------------------------------------------------
  // sync_activities
  // ---------------------------------------------------------------------

  /**
   * The run's outcomes: a login or fetch failure rolls back and raises a
   * 500 with the re-wrapped detail; an empty feed writes nothing; a
   * success reports `total_activities = len(activities)` and at most that
   * many synced, after the final commit.
   */
  lemma SyncOutcomes(st: State, userId: int, client: GarminClient, parse: IsoParser, accepts: SplitCheck)
    ensures var run := Sync(st, userId, client, parse, accepts);
      !client.loginOk ==> run.outcome == Failed(LoginFailure) && run.st == AfterRollback(st)
    ensures var run := Sync(st, userId, client, parse, accepts);
      client.loginOk && client.feed.None? ==> run.outcome == Failed(FetchFailure) && run.st == AfterRollback(st)
    ensures var run := Sync(st, userId, client, parse, accepts);
      run.outcome == NoActivities <==> client.loginOk && client.feed == Some([])
    ensures var run := Sync(st, userId, client, parse, accepts);
      run.outcome == NoActivities ==> run.st == st
    ensures var run := Sync(st, userId, client, parse, accepts);
      run.outcome.Synced? ==>
        && client.loginOk && client.feed.Some?
        && run.outcome.total == |client.feed.value| && run.outcome.count <= run.outcome.total
        && run.st.flushed == Empty && run.st.pending == Empty
    ensures var run := Sync(st, userId, client, parse, accepts);
      run.outcome.Failed? ==> run.st.flushed == Empty && run.st.pending == Empty
  {
    if client.loginOk && client.feed.Some? && client.feed.value != [] {
      RecordsRunCount(Progress(st, 0, None, false), userId, client.feed.value, client.splits, parse, accepts);
    }
  }

  /** A failure before the loop commits nothing: the committed rows are those before the run. */
  lemma SyncEarlyFailureCommitsNothing(st: State, userId: int, client: GarminClient, parse: IsoParser, accepts: SplitCheck)
    requires !client.loginOk || client.feed.None?
    ensures Sync(st, userId, client, parse, accepts).st == State(st.committed, Empty, Empty, {})
  {
  }

  /** The row a record becomes, if it becomes one, gets past its column types. */
  predicate RecordBinds(userId: int, d: Object, parse: IsoParser) {
    Transform(userId, d, parse).Some? ==> RowBinds(Transform(userId, d, parse).value)
  }

  /**
   * With no split open and every pending row bindable when the run starts,
   * and every record a dict whose row binds, no flush and not the final
   * commit can fail, so the run ends in a response.
   */
  lemma SyncOfDicts(st: State, userId: int, client: GarminClient, parse: IsoParser, accepts: SplitCheck)
    requires NoOpenSplits(st) && FlushSucceeds(st)
    requires client.loginOk && client.feed.Some? && client.feed.value != []
    requires forall i | 0 <= i < |client.feed.value| ::
      client.feed.value[i].JObj? && RecordBinds(userId, client.feed.value[i].fields, parse)
    ensures Sync(st, userId, client, parse, accepts).outcome.Synced?
  {
    var recs := client.feed.value;
    var p := Progress(st, 0, None, false);
    RecordsRunCount(p, userId, recs, client.splits, parse, accepts);
    DictsDoNotRaise(p, userId, recs, client.splits, parse, accepts);
    BindingDictsKeepSession(p, userId, recs, client.splits, parse, accepts);
  }

  /** Over dicts whose rows bind, a working session whose pending rows bind stays so. */
  lemma {:induction false} BindingDictsKeepSession(p: Progress, userId: int, recs: seq<Value>,
                                                   client: SplitsClient, parse: IsoParser, accepts: SplitCheck)
    requires !p.broken && FlushSucceeds(p.st)
    requires forall i | 0 <= i < |recs| :: recs[i].JObj? && RecordBinds(userId, recs[i].fields, parse)
    ensures var q := RecordsRun(p, userId, recs, client, parse, accepts);
      !q.broken && FlushSucceeds(q.st)
    decreases |recs|
  {
    if recs != [] {
      var init := recs[..|recs| - 1];
      assert forall i | 0 <= i < |init| :: init[i] == recs[i];
      BindingDictsKeepSession(p, userId, init, client, parse, accepts);
      var q := RecordsRun(p, userId, init, client, parse, accepts);
      if q.raised.None? {
        RecordStepBinds(q, userId, recs[|recs| - 1], client, parse, accepts);
      }
    }
  }

  /** One turn on a working session whose pending rows bind, over a dict whose row binds. */
  lemma RecordStepBinds(p: Progress, userId: int, rec: Value, client: SplitsClient, parse: IsoParser, accepts: SplitCheck)
    requires !p.broken && FlushSucceeds(p.st)
    requires rec.JObj? && RecordBinds(userId, rec.fields, parse)
    ensures var q := RecordStep(p, userId, rec, client, parse, accepts);
      !q.broken && FlushSucceeds(q.st)
  {
    var row := Transform(userId, rec.fields, parse);
    if QueryBinds(userId, Get(rec.fields, "activityId")) && !Known(p.st, userId, Get(rec.fields, "activityId")) && row.Some? {
      RecordStepStores(p, userId, rec, client, parse, accepts);
      StoreRowMeaning(p, row.value, client, parse, accepts);
      var st1 := AfterFlush(AfterAdd(p.st, row.value));
      SplitsForNothingPending(st1, row.value.activityId, client, parse, accepts);
    } else {
      RecordStepSkips(p, userId, rec, client, parse, accepts);
    }
  }

  /** Reconciling laps from a state with nothing pending leaves nothing pending. */
  lemma SplitsForNothingPending(st: State, activityId: Value, client: SplitsClient, parse: IsoParser, accepts: SplitCheck)
    requires st.pending == Empty
    ensures var r := SplitsFor(st, activityId, client, parse, accepts);
      r.Ok? ==> r.value.pending == Empty
  {
    var text := IdText(activityId);
    if text.Some? {
      var fetch := client(text.value);
      if fetch.SplitsReturned? && fetch.data != map[] && "lapDTOs" in fetch.data && fetch.data["lapDTOs"].JArr? {
        LapsRunKeeps(st, text.value, fetch.data["lapDTOs"].items, parse, accepts);
      }
    }
  }

  /**
   * Once a flush has failed, every later dict is skipped at its existence
   * query: the loop over dicts changes nothing more.
   */
  lemma {:induction false} BrokenSkipsDicts(p: Progress, userId: int, recs: seq<Value>,
                                            client: SplitsClient, parse: IsoParser, accepts: SplitCheck)
    requires p.broken && p.raised.None?
    requires forall i | 0 <= i < |recs| :: recs[i].JObj?
    ensures RecordsRun(p, userId, recs, client, parse, accepts) == p
    decreases |recs|
  {
    if recs != [] {
      var init := recs[..|recs| - 1];
      assert forall i | 0 <= i < |init| :: init[i] == recs[i];
      BrokenSkipsDicts(p, userId, init, client, parse, accepts);
      RecordStepSkips(p, userId, recs[|recs| - 1], client, parse, accepts);
    }
  }

  /**
   * A new record whose row a column type refuses (a text `favorite`, say)
   * is not counted: its flush raises, the final commit raises in turn, and
   * the run rolls back and answers a 500.
   */
  lemma UnboundRowFailsSync(st: State, userId: int, d: Object, parse: IsoParser, accepts: SplitCheck, client: SplitsClient)
    requires QueryBinds(userId, Get(d, "activityId")) && !Known(st, userId, Get(d, "activityId"))
    requires Transform(userId, d, parse).Some? && !RowBinds(Transform(userId, d, parse).value)
    ensures Sync(st, userId, GarminClient(true, Some([JObj(d)]), client), parse, accepts) == SyncRun(Failed(StoreFailure), AfterRollback(st))
  {
    var row := Transform(userId, d, parse).value;
    var p := Progress(st, 0, None, false);
    assert RecordsRun(p, userId, [JObj(d)], client, parse, accepts) == Progress(AfterAdd(st, row), 0, None, true) by {
      assert [JObj(d)][..0] == [];
      RecordStepStores(p, userId, JObj(d), client, parse, accepts);
      StoreRowMeaning(p, row, client, parse, accepts);
    }
  }

  /** A `favorite`, `manualActivity` or `elevationCorrected` given as text is refused by its `Boolean` column. */
  lemma TextFlagRefused(userId: int, d: Object, parse: IsoParser)
    requires Transform(userId, d, parse).Some?
    requires || ("favorite" in d && d["favorite"].JStr?)
             || ("manualActivity" in d && d["manualActivity"].JStr?)
             || ("elevationCorrected" in d && d["elevationCorrected"].JStr?)
    ensures !RowBinds(Transform(userId, d, parse).value)
  {
    TransformFlags(userId, d, parse);
  }

  /**
   * A record whose values are all scalars the driver binds, whose three
   * flags are booleans when present, for a user id in 64 bits, becomes a
   * row that gets past its column types.
   */
  lemma ScalarRecordBinds(userId: int, d: Object, parse: IsoParser)
    requires Bindable(JInt(userId))
    requires forall k | k in d :: Bindable(d[k])
    requires forall k | k in d && (k == "favorite" || k == "manualActivity" || k == "elevationCorrected") :: d[k].JBool?
    ensures RecordBinds(userId, d, parse)
  {
    if Transform(userId, d, parse).Some? {
      TransformFlags(userId, d, parse);
    }
  }

  /** Only a record that is not a dict lets an error escape the loop. */
  lemma {:induction false} DictsDoNotRaise(p: Progress, userId: int, recs: seq<Value>,
                                           client: SplitsClient, parse: IsoParser, accepts: SplitCheck)
    requires p.raised.None? && forall i | 0 <= i < |recs| :: recs[i].JObj?
    ensures RecordsRun(p, userId, recs, client, parse, accepts).raised.None?
    decreases |recs|
  {
    if recs != [] {
      var init := recs[..|recs| - 1];
      assert forall i | 0 <= i < |init| :: init[i] == recs[i];
      DictsDoNotRaise(p, userId, init, client, parse, accepts);
    }
  }

  /**
   * Syncing again a feed whose every record the user already has counts
   * nothing and writes nothing: from a session without an open
   * transaction, the committed rows are unchanged.
   */
  lemma SyncRerun(st: State, userId: int, client: GarminClient, parse: IsoParser, accepts: SplitCheck)
    requires st.flushed == Empty && st.pending == Empty && st.deleted == {}
    requires client.loginOk && client.feed.Some? && client.feed.value != []
    requires AllKnown(st, userId, client.feed.value)
    ensures Sync(st, userId, client, parse, accepts) == SyncRun(Synced(0, |client.feed.value|), st)
  {
    RerunChangesNothing(Progress(st, 0, None, false), userId, client.feed.value, client.splits, parse, accepts);
    SyncAfterLoop(st, userId, client, parse, accepts, Progress(st, 0, None, false));
    assert st == State(st.committed, Empty, Empty, {});
    CommitClosed(st.committed);
  }

  /**
   * The lap reconciler commits or rolls back the whole open transaction,
   * not one lap: when the first lap of a new record is not a dict, the
   * rollback discards the row just flushed although `synced_count` counted
   * it, and the run reports it synced while committing nothing. (The laps
   * are fetched only for an integer or string id, which the lookup finds.)
   */
  lemma CountedRowLost(st: State, userId: int, d: Object, parse: IsoParser, accepts: SplitCheck,
                       client: SplitsClient, text: string)
    requires st.flushed == Empty && st.pending == Empty && st.deleted == {}
    requires !Known(st, userId, Get(d, "activityId")) && Transform(userId, d, parse).Some?
    requires RowBinds(Transform(userId, d, parse).value)
    requires Get(d, "activityId").JInt? || Get(d, "activityId").JStr?
    requires IdText(Get(d, "activityId")) == Some(text)
    requires client(text) == SplitsReturned(map["lapDTOs" := JArr([JNull])])
    ensures var run := Sync(st, userId, GarminClient(true, Some([JObj(d)]), client), parse, accepts);
      run.outcome == Synced(1, 1) && run.st == st
  {
    var row := Transform(userId, d, parse).value;
    var p := Progress(st, 0, None, false);
    var client' := GarminClient(true, Some([JObj(d)]), client);
    var q := Progress(AfterRollback(AfterFlush(AfterAdd(st, row))), 1, None, false);
    assert RecordsRun(p, userId, [JObj(d)], client, parse, accepts) == q by {
      assert [JObj(d)][..0] == [];
      RecordStepStores(p, userId, JObj(d), client, parse, accepts);
      StoreRowLapFails(p, row, client, parse, accepts, text);
    }
    SyncAfterLoop(st, userId, client', parse, accepts, q);
    assert q.st == State(st.committed, Empty, Empty, {});
    CommitClosed(st.committed);
  }

  /**
   * A new record without an `activityId` is stored with a NULL id, which the
   * lap lookup by the text "None" never finds: the 404 is swallowed, no
   * laps are fetched whatever the client would answer, and the final commit
   * keeps the row.
   */
  lemma NullIdRowKept(st: State, userId: int, d: Object, parse: IsoParser, accepts: SplitCheck, client: SplitsClient)
    requires st.flushed == Empty && st.pending == Empty && st.deleted == {}
    requires "activityId" !in d && !Known(st, userId, JNull) && Transform(userId, d, parse).Some?
    requires RowBinds(Transform(userId, d, parse).value)
    requires forall a | a in st.committed.activities :: StoredKey(a.activityId) != Some("None")
    ensures var run := Sync(st, userId, GarminClient(true, Some([JObj(d)]), client), parse, accepts);
      && run.outcome == Synced(1, 1)
      && run.st == State(st.committed.(activities := st.committed.activities + [Transform(userId, d, parse).value]), Empty, Empty, {})
  {
    var row := Transform(userId, d, parse).value;
    assert row.activityId == JNull;
    var p := Progress(st, 0, None, false);
    var st1 := AfterFlush(AfterAdd(st, row));
    var q := Progress(st1, 1, None, false);
    assert RecordsRun(p, userId, [JObj(d)], client, parse, accepts) == q by {
      assert [JObj(d)][..0] == [];
      RecordStepStores(p, userId, JObj(d), client, parse, accepts);
      StoreRowUnfound(p, row, client, parse, accepts);
    }
    SyncAfterLoop(st, userId, GarminClient(true, Some([JObj(d)]), client), parse, accepts, q);
    CommitFlushedRow(st.committed, row);
  }

  /** A row whose id the lookup misses is counted and stays flushed, the 404 swallowed. */
  lemma StoreRowUnfound(p: Progress, row: Activity, client: SplitsClient, parse: IsoParser, accepts: SplitCheck)
    requires p.st.flushed == Empty && p.st.pending == Empty
    requires RowBinds(row) && (row.activityId.JNull? || row.activityId.JBool?)
    requires forall a | a in p.st.committed.activities :: StoredKey(a.activityId) != IdText(row.activityId)
    ensures StoreRow(p, row, client, parse, accepts) == Progress(AfterFlush(AfterAdd(p.st, row)), p.count + 1, None, false)
  {
    assert p.st.Visible().activities + p.st.pending.activities == p.st.committed.activities;
    SplitsForUnfoundId(p.st, row, client, parse, accepts);
  }

  /** Committing one row flushed into a closed session appends it to the committed activities. */
  lemma CommitFlushedRow(c: Tables, row: Activity)
    ensures AfterCommit(AfterFlush(AfterAdd(State(c, Empty, Empty, {}), row)))
         == State(c.(activities := c.activities + [row]), Empty, Empty, {})
  {
    var st1 := AfterFlush(AfterAdd(State(c, Empty, Empty, {}), row));
    var all := Concat(st1.Visible(), st1.pending);
    assert all == c.(activities := c.activities + [row]);
    KeptNone(all.comments, {});
  }

  /** Committing a session with nothing open changes nothing. */
  lemma CommitClosed(c: Tables)
    ensures AfterCommit(State(c, Empty, Empty, {})) == State(c, Empty, Empty, {})
  {
    assert Concat(Concat(c, Empty), Empty) == c;
    KeptNone(c.comments, {});
  }

  /** A loop that let nothing escape and left no split open ends in the final commit and a response. */
  lemma SyncAfterLoop(st: State, userId: int, client: GarminClient, parse: IsoParser, accepts: SplitCheck, q: Progress)
    requires client.loginOk && client.feed.Some? && client.feed.value != []
    requires RecordsRun(Progress(st, 0, None, false), userId, client.feed.value, client.splits, parse, accepts) == q
    requires q.raised.None? && !q.broken && NoOpenSplits(q.st)
    ensures Sync(st, userId, client, parse, accepts) == SyncRun(Synced(q.count, |client.feed.value|), AfterCommit(q.st))
  {
  }

  /** A row whose only lap is not a dict: the lap's rollback takes the flushed row with it. */
  lemma StoreRowLapFails(p: Progress, row: Activity, client: SplitsClient, parse: IsoParser, accepts: SplitCheck, text: string)
    requires FlushSucceeds(p.st) && RowBinds(row)
    requires IdText(row.activityId) == Some(text) && StoredKey(row.activityId) == Some(text)
    requires client(text) == SplitsReturned(map["lapDTOs" := JArr([JNull])])
    ensures StoreRow(p, row, client, parse, accepts) == Progress(AfterRollback(AfterFlush(AfterAdd(p.st, row))), p.count + 1, None, false)
  {
    var st1 := AfterFlush(AfterAdd(p.st, row));
    SplitsForFlushedRow(p.st, row, client, parse, accepts);
    var d := map["lapDTOs" := JArr([JNull])];
    assert "lapDTOs" in d && d != map[];
    assert LapsRun(st1, text, [JNull], parse, accepts) == AfterRollback(st1) by {
      assert [JNull][..0] == [];
    }
    assert ProcessSplits(st1, text, client(text), parse, accepts) == Ok(AfterRollback(st1));
  }
}
