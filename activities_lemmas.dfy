/**
 * What `ActivityService` promises, proved about the functions of module
 * Activities: the lap reconciler's per-lap commit and fault isolation, the
 * 404 paths, the summary's pace, the month buckets, and the order and
 * joins of the laps-with-comments view.
 */
module ActivitiesLemmas {
  import opened Wrappers
  import opened Text
  import opened Json
  import opened Dates
  import opened Models
  import opened Store
  import opened ActivityFormat
  import opened ActivityFormatLemmas
  import opened Activities

  // ---------------------------------------------------------------------
  // process_activity_splits
  // ---------------------------------------------------------------------

  /** No split row is written but not yet committed. */
  predicate NoOpenSplits(st: State) {
    st.flushed.splits == [] && st.pending.splits == []
  }

  /** The lap becomes a split the store accepts: its turn of the loop commits. */
  predicate Stored(activityId: string, lap: Value, parse: IsoParser, accepts: SplitCheck) {
    LapSplit(activityId, lap, parse).Some? && accepts(LapSplit(activityId, lap, parse).value)
  }

  /**
   * One turn of the lap loop ends with no open transaction and loses nothing
   * committed. From a state without open splits, a stored lap commits its
   * split together with everything the transaction held (the flushed parent
   * row included); a failing lap leaves the committed rows as they were.
   */
  lemma LapStepOutcome(st: State, activityId: string, lap: Value, parse: IsoParser, accepts: SplitCheck)
    ensures var r := LapStep(st, activityId, lap, parse, accepts);
      && r.flushed == Empty && r.pending == Empty
      && st.committed.activities <= r.committed.activities
      && st.committed.splits <= r.committed.splits
    ensures var r := LapStep(st, activityId, lap, parse, accepts);
      NoOpenSplits(st) && Stored(activityId, lap, parse, accepts) ==>
        && r.committed.splits == st.committed.splits + [LapSplit(activityId, lap, parse).value]
        && r.committed.activities == st.Visible().activities + st.pending.activities
    ensures NoOpenSplits(st) && !Stored(activityId, lap, parse, accepts) ==>
      LapStep(st, activityId, lap, parse, accepts).committed == st.committed
    ensures LapSplit(activityId, lap, parse).Some? ==> LapSplit(activityId, lap, parse).value.activityId == activityId
  {
    var split := LapSplit(activityId, lap, parse);
    if split.Some? {
      var st1 := AfterAddSplit(st, split.value);
      if NoOpenSplits(st) {
        assert st1.flushed.splits == [] && st1.pending.splits == [split.value];
        assert st1.pending.splits[0] == split.value;
        assert CommitSucceeds(st1, accepts) == accepts(split.value);
      }
    }
  }

  /**
   * The lap loop never loses a committed row, ends with no open transaction
   * when it ran at least once, and every split it commits carries the
   * activity id it was given.
   */
  lemma {:induction false} LapsRunKeeps(st: State, activityId: string, laps: seq<Value>,
                                        parse: IsoParser, accepts: SplitCheck)
    ensures var r := LapsRun(st, activityId, laps, parse, accepts);
      st.committed.activities <= r.committed.activities && st.committed.splits <= r.committed.splits
    ensures laps != [] ==> var r := LapsRun(st, activityId, laps, parse, accepts);
      r.flushed == Empty && r.pending == Empty
    ensures NoOpenSplits(st) ==> NoOpenSplits(LapsRun(st, activityId, laps, parse, accepts))
    ensures NoOpenSplits(st) ==> var r := LapsRun(st, activityId, laps, parse, accepts);
      forall k | |st.committed.splits| <= k < |r.committed.splits| :: r.committed.splits[k].activityId == activityId
    decreases |laps|
  {
    if laps != [] {
      var init := laps[..|laps| - 1];
      var lap := laps[|laps| - 1];
      LapsRunKeeps(st, activityId, init, parse, accepts);
      var mid := LapsRun(st, activityId, init, parse, accepts);
      LapStepOutcome(mid, activityId, lap, parse, accepts);
      var r := LapStep(mid, activityId, lap, parse, accepts);
      assert st.committed.splits <= r.committed.splits by {
        assert st.committed.splits == mid.committed.splits[..|st.committed.splits|];
        assert mid.committed.splits == r.committed.splits[..|mid.committed.splits|];
      }
      assert st.committed.activities <= r.committed.activities by {
        assert st.committed.activities == mid.committed.activities[..|st.committed.activities|];
        assert mid.committed.activities == r.committed.activities[..|mid.committed.activities|];
      }
      if NoOpenSplits(st) {
        forall k | |st.committed.splits| <= k < |r.committed.splits|
          ensures r.committed.splits[k].activityId == activityId
        {
          if k < |mid.committed.splits| {
            assert r.committed.splits[k] == mid.committed.splits[k];
          } else {
            assert Stored(activityId, lap, parse, accepts);
          }
        }
      }
    }
  }

  /** Every lap of `laps` is stored. */
  predicate AllStored(activityId: string, laps: seq<Value>, parse: IsoParser, accepts: SplitCheck)
    decreases |laps|
  {
    laps == [] ||
      (AllStored(activityId, laps[..|laps| - 1], parse, accepts) && Stored(activityId, laps[|laps| - 1], parse, accepts))
  }

  /** The splits the laps that convert become, in lap order. */
  function SplitsOfLaps(activityId: string, laps: seq<Value>, parse: IsoParser): seq<ActivitySplit>
    decreases |laps|
  {
    if laps == [] then []
    else
      var rest := SplitsOfLaps(activityId, laps[..|laps| - 1], parse);
      match LapSplit(activityId, laps[|laps| - 1], parse)
      case None => rest
      case Some(split) => rest + [split]
  }

  /** All laps are stored exactly when each one is. */
  lemma {:induction false} AllStoredEach(activityId: string, laps: seq<Value>, parse: IsoParser, accepts: SplitCheck)
    ensures AllStored(activityId, laps, parse, accepts) <==> forall i | 0 <= i < |laps| :: Stored(activityId, laps[i], parse, accepts)
    decreases |laps|
  {
    if laps != [] {
      var init := laps[..|laps| - 1];
      AllStoredEach(activityId, init, parse, accepts);
      assert forall i | 0 <= i < |init| :: laps[i] == init[i];
      if forall i | 0 <= i < |laps| :: Stored(activityId, laps[i], parse, accepts) {
        assert Stored(activityId, laps[|laps| - 1], parse, accepts);
      }
    }
  }

  /** When all laps are stored, each becomes the split at its own position. */
  lemma {:induction false} AllStoredSplits(activityId: string, laps: seq<Value>, parse: IsoParser, accepts: SplitCheck)
    requires AllStored(activityId, laps, parse, accepts)
    ensures var splits := SplitsOfLaps(activityId, laps, parse);
      |splits| == |laps| && forall i | 0 <= i < |laps| :: Some(splits[i]) == LapSplit(activityId, laps[i], parse)
    decreases |laps|
  {
    if laps != [] {
      var init := laps[..|laps| - 1];
      var lap := laps[|laps| - 1];
      AllStoredSplits(activityId, init, parse, accepts);
      var rest := SplitsOfLaps(activityId, init, parse);
      assert SplitsOfLaps(activityId, laps, parse) == rest + [LapSplit(activityId, lap, parse).value];
      assert forall i | 0 <= i < |init| :: laps[i] == init[i];
    }
  }

  /**
   * Per-lap commit: when every lap is stored, the split rows committed are
   * exactly the laps' splits, in lap order, and the transaction the loop
   * found open was committed with the first of them.
   */
  lemma {:induction false} LapsRunAllStored(st: State, activityId: string, laps: seq<Value>,
                                            parse: IsoParser, accepts: SplitCheck)
    requires NoOpenSplits(st) && laps != [] && AllStored(activityId, laps, parse, accepts)
    ensures var r := LapsRun(st, activityId, laps, parse, accepts);
      && r.committed.splits == st.committed.splits + SplitsOfLaps(activityId, laps, parse)
      && r.committed.activities == st.Visible().activities + st.pending.activities
    decreases |laps|
  {
    var init := laps[..|laps| - 1];
    var lap := laps[|laps| - 1];
    var mid := LapsRun(st, activityId, init, parse, accepts);
    var split := LapSplit(activityId, lap, parse).value;
    assert SplitsOfLaps(activityId, laps, parse) == SplitsOfLaps(activityId, init, parse) + [split];
    LapStepOutcome(mid, activityId, lap, parse, accepts);
    if init != [] {
      LapsRunAllStored(st, activityId, init, parse, accepts);
      LapsRunKeeps(st, activityId, init, parse, accepts);
      var r := LapStep(mid, activityId, lap, parse, accepts);
      assert mid.flushed == Empty && mid.pending == Empty;
      assert r.committed.activities == mid.committed.activities;
      assert r.committed.splits == st.committed.splits + SplitsOfLaps(activityId, init, parse) + [split];
    }
  }

  /**
   * `process_activity_splits`' outcomes: a fetch error is re-raised and
   * writes nothing; no data or no `lapDTOs` writes nothing; the only other
   * error is a `lapDTOs` value that cannot be iterated; and a run never
   * loses a committed row and commits only splits carrying the id given.
   */
  lemma ProcessSplitsMeaning(st: State, activityId: string, fetch: SplitsFetch, parse: IsoParser, accepts: SplitCheck)
    ensures fetch.SplitsRaised? ==> ProcessSplits(st, activityId, fetch, parse, accepts) == Err(fetch.message)
    ensures fetch.SplitsReturned? && (fetch.data == map[] || "lapDTOs" !in fetch.data) ==>
      ProcessSplits(st, activityId, fetch, parse, accepts) == Ok(st)
    ensures ProcessSplits(st, activityId, fetch, parse, accepts).Err? ==>
      fetch.SplitsRaised? || (var v := fetch.data["lapDTOs"]; v.JNull? || v.JBool? || v.JInt? || v.JReal?)
    ensures var r := ProcessSplits(st, activityId, fetch, parse, accepts);
      r.Ok? ==> st.committed.activities <= r.value.committed.activities && st.committed.splits <= r.value.committed.splits
    ensures var r := ProcessSplits(st, activityId, fetch, parse, accepts);
      r.Ok? && NoOpenSplits(st) ==>
        forall k | |st.committed.splits| <= k < |r.value.committed.splits| ::
          r.value.committed.splits[k].activityId == activityId
  {
    if fetch.SplitsReturned? && fetch.data != map[] && "lapDTOs" in fetch.data && fetch.data["lapDTOs"].JArr? {
      LapsRunKeeps(st, activityId, fetch.data["lapDTOs"].items, parse, accepts);
    }
  }

  // ---------------------------------------------------------------------
  // get_activity and delete_activity_comment
  // ---------------------------------------------------------------------

  /** No two comments share an id: `id` is the primary key of `activity_comments`. */
  predicate UniqueCommentIds(cs: seq<ActivityComment>) {
    forall i, j | 0 <= i < j < |cs| :: cs[i].id != cs[j].id
  }

  /**
   * When a comment has the id, the delete and the commit after it remove
   * exactly one comment, the first with that id: every other comment is
   * committed in order, and the activities, splits and feedback rows as
   * they would be anyway. A rollback instead keeps the comment.
   */
  lemma DeleteRemovesFirstMatch(st: State, commentId: int)
    requires st.deleted == {} && UniqueCommentIds(st.Visible().comments + st.pending.comments)
    ensures var cs := st.Visible().comments;
      var k := FirstIndex((c: ActivityComment) => c.id == commentId, cs);
      k == |cs| <==> forall j | 0 <= j < |cs| :: cs[j].id != commentId
    ensures var cs := st.Visible().comments;
      var k := FirstIndex((c: ActivityComment) => c.id == commentId, cs);
      k < |cs| ==>
        var all := Concat(st.Visible(), st.pending);
        var after := AfterCommit(AfterDeleteComment(st, commentId)).committed;
        && cs[k].id == commentId
        && (forall j | 0 <= j < k :: cs[j].id != commentId)
        && after.comments == all.comments[..k] + all.comments[k + 1..]
        && multiset(after.comments) == multiset(all.comments) - multiset{cs[k]}
        && after.activities == all.activities && after.splits == all.splits && after.feedbacks == all.feedbacks
        && AfterRollback(AfterDeleteComment(st, commentId)).committed == st.committed
  {
    var cs := st.Visible().comments;
    var k := FirstIndex((c: ActivityComment) => c.id == commentId, cs);
    if k < |cs| {
      var all := Concat(st.Visible(), st.pending).comments;
      assert all == cs + st.pending.comments;
      assert all[k] == cs[k];
      assert st.deleted + {commentId} == {all[k].id};
      KeptDropsOne(all, st.deleted + {commentId}, k);
      DropOneMultiset(all, k);
    }
  }

  /** Dropping the k-th comment takes exactly that one out of the multiset. */
  lemma DropOneMultiset(cs: seq<ActivityComment>, k: nat)
    requires k < |cs|
    ensures multiset(cs[..k] + cs[k + 1..]) == multiset(cs) - multiset{cs[k]}
  {
    assert cs == cs[..k] + [cs[k]] + cs[k + 1..];
    assert multiset(cs) == multiset(cs[..k]) + multiset{cs[k]} + multiset(cs[k + 1..]);
  }

  // ---------------------------------------------------------------------
  // get_activity_summary
  // ---------------------------------------------------------------------

  /** `_speed_to_pace` of the metres per second `1000·km/dur` in km/h is the seconds per km `dur/km`. */
  lemma SpeedOfTotals(km: real, dur: real)
    requires km > 0.0 && dur > 0.0
    ensures km * 1000.0 / dur * 3.6 > 0.0
    ensures 3600.0 / (km * 1000.0 / dur * 3.6) == dur / km
  {
    var v := km * 1000.0 / dur * 3.6;
    assert v == 3600.0 * km / dur;
    PositiveQuotient(3600.0 * km, dur);
    assert v * (dur / km) == 3600.0;
  }

  lemma PositiveQuotient(a: real, b: real)
    requires a > 0.0 && b > 0.0
    ensures a / b > 0.0
  {
    assert (a / b) * b == a;
  }

  /** A negative total duration gives a negative speed. */
  lemma SpeedOfNegativeDuration(km: real, dur: real)
    requires km > 0.0 && dur < 0.0
    ensures km * 1000.0 / dur * 3.6 < 0.0
  {
    var q := km * 1000.0 / dur;
    assert q * dur == km * 1000.0;
  }

  /**
   * `get_activity_summary`: the row count, the total distance in km rounded
   * to 2 places, the total duration formatted and the average pace of the
   * totals. It raises exactly when a value is not a number (TypeError) or
   * when there is distance but no duration (ZeroDivisionError).
   */
  lemma SummaryMeaning(acts: seq<Activity>)
    ensures SummaryOf(acts).Err? <==>
      || Sum(Distances(acts)).None? || Sum(Durations(acts)).None?
      || (Sum(Distances(acts)).value > 0.0 && Sum(Durations(acts)).value == 0.0)
    ensures SummaryOf(acts).Ok? ==>
      var s := SummaryOf(acts).value;
      var km := Sum(Distances(acts)).value / 1000.0;
      var dur := Sum(Durations(acts)).value;
      && s.totalActivities == |acts|
      && -0.005 <= s.totalDistance - km <= 0.005
      && s.totalDuration == FormatDuration(dur)
      && s.averagePace == AveragePace(km, dur)
    ensures SummaryOf(acts).Err? ==>
      SummaryOf(acts).error == (if Sum(Distances(acts)).Some? && Sum(Durations(acts)).Some?
                                then PythonError("ZeroDivisionError") else TypeFailure)
  {
  }

  /**
   * The summary's pace: "00:00" without distance, otherwise
   * `_format_pace(Σduration / km)` for a positive duration, which reads back
   * as that many seconds per km to the millisecond, and "0:00.000" for a
   * negative one.
   */
  lemma AveragePaceMeaning(km: real, dur: real)
    requires km > 0.0 ==> dur != 0.0
    ensures km <= 0.0 ==> AveragePace(km, dur) == "00:00"
    ensures km > 0.0 && dur > 0.0 ==>
      && AveragePace(km, dur) == FormatPace(dur / km)
      && ReadPace(AveragePace(km, dur)).Some?
      && ReadPace(AveragePace(km, dur)).value <= dur / km < ReadPace(AveragePace(km, dur)).value + 0.001
    ensures km > 0.0 && dur < 0.0 ==> AveragePace(km, dur) == "0:00.000"
  {
    if km > 0.0 {
      if dur > 0.0 {
        AveragePacePositive(km, dur);
        PositiveQuotient(dur, km);
        ReadPaceOfFormatPace(dur / km);
      } else {
        SpeedOfNegativeDuration(km, dur);
      }
    }
  }

  /** For positive totals the pace printed is `_format_pace(dur/km)`. */
  lemma AveragePacePositive(km: real, dur: real)
    requires km > 0.0 && dur > 0.0
    ensures AveragePace(km, dur) == FormatPace(dur / km)
  {
    SpeedOfTotals(km, dur);
    var v := km * 1000.0 / dur * 3.6;
    assert AveragePace(km, dur) == SpeedToPace(v);
    assert SpeedToPace(v) == FormatPace(3600.0 / v);
  }

  // ---------------------------------------------------------------------
  // get_monthly_activity_summary
  // ---------------------------------------------------------------------

  /** Every activity's distance and duration is a number. */
  predicate AllNumeric(acts: seq<Activity>) {
    forall i | 0 <= i < |acts| :: Num(acts[i].distance).Some? && Num(acts[i].duration).Some?
  }

  /** The rows of one bucket: the activities whose start falls in month `key`. */
  function MonthRows(acts: seq<Activity>, key: string, month: MonthOf): seq<Activity> {
    Filter((a: Activity) => month(a.startTimeLocal) == key, acts)
  }

  lemma {:induction false} FilterSnoc<T(!new)>(p: T -> bool, xs: seq<T>, x: T)
    ensures Filter(p, xs + [x]) == Filter(p, xs) + (if p(x) then [x] else [])
    decreases |xs|
  {
    if xs == [] {
      assert [x][1..] == [];
    } else {
      assert (xs + [x])[0] == xs[0];
      assert (xs + [x])[1..] == xs[1..] + [x];
      FilterSnoc(p, xs[1..], x);
    }
  }

  lemma {:induction false} SumSnoc(vs: seq<Value>, v: Value)
    ensures Sum(vs + [v]) == if Sum(vs).Some? && Num(v).Some? then Some(Sum(vs).value + Num(v).value) else None
    decreases |vs|
  {
    if vs == [] {
      assert [v][1..] == [];
    } else {
      assert (vs + [v])[0] == vs[0];
      assert (vs + [v])[1..] == vs[1..] + [v];
      SumSnoc(vs[1..], v);
    }
  }

  lemma ColumnsSnoc(acts: seq<Activity>, a: Activity)
    ensures Distances(acts + [a]) == Distances(acts) + [a.distance]
    ensures Durations(acts + [a]) == Durations(acts) + [a.duration]
  {
  }

  /** The first loop raises (TypeError) exactly when some distance or duration is not a number. */
  lemma {:induction false} MonthTotalsOk(acts: seq<Activity>, month: MonthOf)
    ensures MonthTotals(acts, month).Ok? <==> AllNumeric(acts)
    decreases |acts|
  {
    if acts != [] {
      var init := acts[..|acts| - 1];
      MonthTotalsOk(init, month);
      assert forall i | 0 <= i < |init| :: init[i] == acts[i];
    }
  }

  /** The buckets are exactly the months in which some activity started. */
  lemma {:induction false} MonthTotalsKeys(acts: seq<Activity>, month: MonthOf)
    requires MonthTotals(acts, month).Ok?
    ensures MonthTotals(acts, month).value.Keys == set i | 0 <= i < |acts| :: month(acts[i].startTimeLocal)
    decreases |acts|
  {
    if acts != [] {
      var init := acts[..|acts| - 1];
      MonthTotalsKeys(init, month);
      assert forall i | 0 <= i < |init| :: init[i] == acts[i];
      var a := acts[|acts| - 1];
      assert (set i | 0 <= i < |acts| :: month(acts[i].startTimeLocal))
          == (set i | 0 <= i < |init| :: month(init[i].startTimeLocal)) + {month(a.startTimeLocal)};
    }
  }

  /** A month no activity started in has no rows. */
  lemma NoRowsOutsideKeys(acts: seq<Activity>, key: string, month: MonthOf)
    requires key !in set i | 0 <= i < |acts| :: month(acts[i].startTimeLocal)
    ensures MonthRows(acts, key, month) == []
  {
    var rows := MonthRows(acts, key, month);
    if rows != [] {
      MonthOfMember(acts, rows[0], month);
    }
  }

  lemma MonthOfMember(acts: seq<Activity>, a: Activity, month: MonthOf)
    requires a in acts
    ensures month(a.startTimeLocal) in set i | 0 <= i < |acts| :: month(acts[i].startTimeLocal)
  {
    var i :| 0 <= i < |acts| && acts[i] == a;
  }

  /**
   * The reference bucket of a month: the sum of its rows' distances in
   * metres divided by 1000, and the sum of their durations.
   */
  function MonthBucket(acts: seq<Activity>, key: string, month: MonthOf): Bucket {
    var rows := MonthRows(acts, key, month);
    Bucket(Sum(Distances(rows)).GetOr(0.0) / 1000.0, Sum(Durations(rows)).GetOr(0.0))
  }

  /** The rows of a month of numeric activities have sums. */
  lemma RowsNumeric(acts: seq<Activity>, key: string, month: MonthOf)
    requires AllNumeric(acts)
    ensures Sum(Distances(MonthRows(acts, key, month))).Some?
    ensures Sum(Durations(MonthRows(acts, key, month))).Some?
  {
    var rows := MonthRows(acts, key, month);
    forall i | 0 <= i < |rows|
      ensures Num(Distances(rows)[i]).Some? && Num(Durations(rows)[i]).Some?
    {
      assert rows[i] in acts;
    }
  }

  /** Adding one numeric activity to buckets that hold their months' sums keeps them so. */
  lemma BucketStepAt(init: seq<Activity>, a: Activity, key: string, month: MonthOf, t0: map<string, Bucket>)
    requires AllNumeric(init) && Num(a.distance).Some? && Num(a.duration).Some?
    requires key in t0 ==> t0[key] == MonthBucket(init, key, month)
    requires key !in t0 ==> MonthRows(init, key, month) == []
    requires key == month(a.startTimeLocal) || key in t0
    ensures AddToBucket(t0, month(a.startTimeLocal), Num(a.distance).value / 1000.0, Num(a.duration).value)[key]
         == MonthBucket(init + [a], key, month)
  {
    var rows0 := MonthRows(init, key, month);
    FilterSnoc((x: Activity) => month(x.startTimeLocal) == key, init, a);
    if month(a.startTimeLocal) == key {
      assert MonthRows(init + [a], key, month) == rows0 + [a];
      RowsNumeric(init, key, month);
      BucketGrows(rows0, a, if key in t0 then t0[key] else Bucket(0.0, 0.0));
    } else {
      assert MonthRows(init + [a], key, month) == rows0;
    }
  }

  /** The bucket of some rows plus one numeric row is the bucket of the longer rows. */
  lemma BucketGrows(rows: seq<Activity>, a: Activity, b: Bucket)
    requires Sum(Distances(rows)).Some? && Sum(Durations(rows)).Some?
    requires Num(a.distance).Some? && Num(a.duration).Some?
    requires b == Bucket(Sum(Distances(rows)).value / 1000.0, Sum(Durations(rows)).value)
    ensures Bucket(b.distanceKm + Num(a.distance).value / 1000.0, b.durationSec + Num(a.duration).value)
         == Bucket(Sum(Distances(rows + [a])).GetOr(0.0) / 1000.0, Sum(Durations(rows + [a])).GetOr(0.0))
  {
    ColumnsSnoc(rows, a);
    SumSnoc(Distances(rows), a.distance);
    SumSnoc(Durations(rows), a.duration);
  }

  /** Each bucket of the first loop is the reference bucket of its month. */
  lemma {:induction false} MonthTotalsSums(acts: seq<Activity>, month: MonthOf)
    requires MonthTotals(acts, month).Ok?
    ensures var t := MonthTotals(acts, month).value;
      forall key | key in t :: t[key] == MonthBucket(acts, key, month)
    decreases |acts|
  {
    if acts != [] {
      var init := acts[..|acts| - 1];
      var a := acts[|acts| - 1];
      assert acts == init + [a];
      MonthTotalsSums(init, month);
      MonthTotalsKeys(init, month);
      MonthTotalsOk(init, month);
      var t0 := MonthTotals(init, month).value;
      var t := MonthTotals(acts, month).value;
      assert t == AddToBucket(t0, month(a.startTimeLocal), Num(a.distance).value / 1000.0, Num(a.duration).value);
      forall key | key in t
        ensures t[key] == MonthBucket(acts, key, month)
      {
        if key !in t0 {
          NoRowsOutsideKeys(init, key, month);
        }
        BucketStepAt(init, a, key, month, t0);
      }
    }
  }

  /** Without distance a positive duration gives no speed. */
  lemma SpeedOfNoDistance(km: real, dur: real)
    requires km <= 0.0 && dur > 0.0
    ensures km * 1000.0 / dur * 3.6 <= 0.0
  {
    var q := km * 1000.0 / dur;
    assert q * dur == km * 1000.0;
  }

  /**
   * A month's pace is "00:00" exactly when the month has no positive
   * duration; otherwise it is `_format_pace(duration / km)`, which reads
   * back to the millisecond, with distance, and "0:00.000" without.
   */
  lemma BucketPaceMeaning(km: real, dur: real)
    ensures BucketPace(km, dur) == "00:00" <==> dur <= 0.0
    ensures dur > 0.0 && km > 0.0 ==>
      && BucketPace(km, dur) == FormatPace(dur / km)
      && ReadPace(BucketPace(km, dur)).Some?
      && ReadPace(BucketPace(km, dur)).value <= dur / km < ReadPace(BucketPace(km, dur)).value + 0.001
    ensures dur > 0.0 && km <= 0.0 ==> BucketPace(km, dur) == "0:00.000"
  {
    if dur > 0.0 {
      var v := km * 1000.0 / dur * 3.6;
      assert BucketPace(km, dur) == SpeedToPace(v);
      SpeedToPaceMeaning(v);
      assert ReadPace("00:00") == None;
      if km > 0.0 {
        SpeedOfTotals(km, dur);
        assert SpeedToPace(v) == FormatPace(3600.0 / v);
        PositiveQuotient(dur, km);
        ReadPaceOfFormatPace(dur / km);
      } else {
        SpeedOfNoDistance(km, dur);
      }
    }
  }

  /**
   * `get_monthly_activity_summary`: it raises exactly when some value is
   * not a number; otherwise its keys are the `YYYY-MM` months in which the
   * user's activities started and each entry is the rewrite of its month's
   * reference bucket.
   */
  lemma MonthlySummaryMeaning(acts: seq<Activity>)
    ensures MonthlySummaryOf(acts).Ok? <==> AllNumeric(acts)
    ensures MonthlySummaryOf(acts).Ok? ==>
      var m := MonthlySummaryOf(acts).value;
      && m.Keys == (set i | 0 <= i < |acts| :: MonthKey(acts[i].startTimeLocal))
      && forall key | key in m :: m[key] == MonthEntry(MonthBucket(acts, key, MonthKey))
  {
    MonthTotalsOk(acts, MonthKey);
    if AllNumeric(acts) {
      MonthTotalsKeys(acts, MonthKey);
      MonthTotalsSums(acts, MonthKey);
    }
  }

  // ---------------------------------------------------------------------
  // get_activities_laps_with_comments
  // ---------------------------------------------------------------------

  /** A row no earlier than every row of a latest-first list can head it. */
  lemma DescendingCons(h: Activity, rest: seq<Activity>)
    requires StartDescending(rest)
    requires forall x | x in rest :: Instant(x.startTimeLocal) <= Instant(h.startTimeLocal)
    ensures StartDescending([h] + rest)
  {
    var r := [h] + rest;
    forall i, j | 0 <= i < j < |r|
      ensures Instant(r[i].startTimeLocal) >= Instant(r[j].startTimeLocal)
    {
      assert r[j] == rest[j - 1];
      if i == 0 {
        assert rest[j - 1] in rest;
      } else {
        assert r[i] == rest[i - 1];
      }
    }
  }

  /** Inserting adds exactly that row. */
  lemma {:induction false} InsertByStartAdds(a: Activity, sorted: seq<Activity>)
    ensures multiset(InsertByStart(a, sorted)) == multiset(sorted) + multiset{a}
    decreases |sorted|
  {
    if !(sorted == [] || Instant(sorted[0].startTimeLocal) < Instant(a.startTimeLocal)) {
      InsertByStartAdds(a, sorted[1..]);
      assert sorted == [sorted[0]] + sorted[1..];
    }
  }

  /** Inserting into a latest-first list keeps it latest-first. */
  lemma {:induction false} InsertByStartSorted(a: Activity, sorted: seq<Activity>)
    requires StartDescending(sorted)
    ensures StartDescending(InsertByStart(a, sorted))
    decreases |sorted|
  {
    if sorted == [] || Instant(sorted[0].startTimeLocal) < Instant(a.startTimeLocal) {
      forall x | x in sorted
        ensures Instant(x.startTimeLocal) <= Instant(a.startTimeLocal)
      {
        var j :| 0 <= j < |sorted| && sorted[j] == x;
        assert Instant(sorted[0].startTimeLocal) >= Instant(sorted[j].startTimeLocal);
      }
      DescendingCons(a, sorted);
    } else {
      var h := sorted[0];
      var tail := sorted[1..];
      assert StartDescending(tail) by {
        forall i, j | 0 <= i < j < |tail|
          ensures Instant(tail[i].startTimeLocal) >= Instant(tail[j].startTimeLocal)
        {
          assert tail[i] == sorted[i + 1] && tail[j] == sorted[j + 1];
        }
      }
      InsertByStartSorted(a, tail);
      InsertByStartAdds(a, tail);
      var rest := InsertByStart(a, tail);
      forall x | x in rest
        ensures Instant(x.startTimeLocal) <= Instant(h.startTimeLocal)
      {
        assert x in multiset(rest);
        if x != a {
          assert x in multiset(tail);
          var j :| 0 <= j < |tail| && tail[j] == x;
          assert sorted[j + 1] == x;
        }
      }
      DescendingCons(h, rest);
    }
  }

  /** `order_by(start_time_local desc)`: latest first, and the same rows. */
  lemma {:induction false} ByStartDescMeaning(acts: seq<Activity>)
    ensures StartDescending(ByStartDesc(acts))
    ensures multiset(ByStartDesc(acts)) == multiset(acts)
    decreases |acts|
  {
    if acts != [] {
      ByStartDescMeaning(acts[1..]);
      InsertByStartSorted(acts[0], ByStartDesc(acts[1..]));
      InsertByStartAdds(acts[0], ByStartDesc(acts[1..]));
      assert acts == [acts[0]] + acts[1..];
    }
  }

  /** The response loop converts every activity in order, and raises exactly when one conversion raises. */
  lemma {:induction false} ActivityViewsPointwise(t: Tables, acts: seq<Activity>)
    ensures ActivityViews(t, acts).Ok? <==> forall i | 0 <= i < |acts| :: ActivityViewOf(t, acts[i]).Ok?
    ensures ActivityViews(t, acts).Ok? ==>
      var vs := ActivityViews(t, acts).value;
      |vs| == |acts| && forall i | 0 <= i < |acts| :: ActivityViewOf(t, acts[i]) == Ok(vs[i])
    decreases |acts|
  {
    ActivityViewsMap(t, acts);
  }

  /** The response loop is `MapResult` of the per-activity conversion. */
  lemma {:induction false} ActivityViewsMap(t: Tables, acts: seq<Activity>)
    ensures ActivityViews(t, acts) == MapResult((a: Activity) => ActivityViewOf(t, a), acts)
    decreases |acts|
  {
    if acts != [] {
      ActivityViewsMap(t, acts[1..]);
    }
  }

  /** `feedback.feedback_data if feedback else None` for the first feedback row on the activity. */
  lemma FeedbackOfMeaning(feedbacks: seq<ActivityFeedback>, a: Activity)
    ensures FeedbackOf(feedbacks, a).None? <==> forall j | 0 <= j < |feedbacks| :: feedbacks[j].activityId != a.activityId
    ensures FeedbackOf(feedbacks, a).Some? ==>
      exists k | 0 <= k < |feedbacks| ::
        && feedbacks[k].activityId == a.activityId
        && FeedbackOf(feedbacks, a).value == feedbacks[k].feedbackData
        && forall j | 0 <= j < k :: feedbacks[j].activityId != a.activityId
  {
    var k := FirstIndex((f: ActivityFeedback) => f.activityId == a.activityId, feedbacks);
    if k < |feedbacks| {
      assert feedbacks[k].activityId == a.activityId;
    }
  }

  /**
   * An entry of the response raises exactly when a lap or the activity has
   * a non-numeric speed, distance or duration; its laps are exactly the
   * splits whose `activity_id` is the Garmin id and its comments the
   * comments on it.
   */
  lemma ActivityViewOk(t: Tables, a: Activity)
    ensures ActivityViewOf(t, a).Ok? <==>
      && (forall i | 0 <= i < |LapsOf(t.splits, a)| :: LapViewOf(LapsOf(t.splits, a)[i]).Ok?)
      && Num(a.averageSpeed).Some? && Num(a.maxSpeed).Some? && Num(a.distance).Some? && Num(a.duration).Some?
    ensures forall s :: s in LapsOf(t.splits, a) <==> s in t.splits && SameStored(JStr(s.activityId), a.activityId)
    ensures forall c :: c in CommentsOf(t.comments, a) <==> c in t.comments && c.activityId == a.activityId
  {
  }

  /** An entry's distance is metres to km and its speeds m/s to km/h, each through `round(x, 2)`. */
  lemma ActivityViewNumbers(t: Tables, a: Activity)
    requires ActivityViewOf(t, a).Ok?
    ensures var v := ActivityViewOf(t, a).value;
      && v.distanceKm == Round2(Num(a.distance).value / 1000.0)
      && v.averageSpeedKmh == Round2(Num(a.averageSpeed).value * 3.6)
      && v.maxSpeedKmh == Round2(Num(a.maxSpeed).value * 3.6)
  {
  }

  /**
   * One entry of the response: the activity's Garmin id, name and local
   * start, its duration formatted and the paces of its two speeds in km/h;
   * the views of its laps in order, of its comments, and its first
   * feedback.
   */
  lemma ActivityViewMeaning(t: Tables, a: Activity)
    requires ActivityViewOf(t, a).Ok?
    ensures var v := ActivityViewOf(t, a).value;
      var laps := LapsOf(t.splits, a);
      && v.activityId == a.activityId && v.activityName == a.activityName
      && v.localStartTime == a.startTimeLocal
      && v.duration == FormatDuration(Num(a.duration).value)
      && v.averagePace == SpeedToPace(Num(a.averageSpeed).value * 3.6)
      && v.maxPace == SpeedToPace(Num(a.maxSpeed).value * 3.6)
      && |v.laps| == |laps|
      && (forall i | 0 <= i < |laps| :: LapViewOf(laps[i]) == Ok(v.laps[i]))
      && v.comments == CommentViews(CommentsOf(t.comments, a))
      && v.feedback == FeedbackOf(t.feedbacks, a)
  {
  }

  /**
   * `get_activities_laps_with_comments`: the user's activities, latest start
   * first, each converted as `ActivityViewOf` describes; it raises exactly
   * when one of them raises.
   */
  lemma LapsWithCommentsMeaning(t: Tables, userId: int)
    ensures var acts := UserActivities(t.activities, userId);
      && (forall a | a in acts :: a in t.activities && a.userId == userId)
      && StartDescending(ByStartDesc(acts))
      && multiset(ByStartDesc(acts)) == multiset(acts)
    ensures var sorted := ByStartDesc(UserActivities(t.activities, userId));
      LapsWithCommentsOf(t, userId).Ok? <==> forall i | 0 <= i < |sorted| :: ActivityViewOf(t, sorted[i]).Ok?
    ensures var sorted := ByStartDesc(UserActivities(t.activities, userId));
      LapsWithCommentsOf(t, userId).Ok? ==>
        var vs := LapsWithCommentsOf(t, userId).value;
        && |vs| == |sorted|
        && (forall i | 0 <= i < |sorted| :: ActivityViewOf(t, sorted[i]) == Ok(vs[i]))
        && (forall i, j | 0 <= i < j < |vs| :: Instant(vs[i].localStartTime) >= Instant(vs[j].localStartTime))
  {
    var acts := UserActivities(t.activities, userId);
    var sorted := ByStartDesc(acts);
    ByStartDescMeaning(acts);
    ActivityViewsPointwise(t, sorted);
    if LapsWithCommentsOf(t, userId).Ok? {
      var vs := LapsWithCommentsOf(t, userId).value;
      forall i | 0 <= i < |sorted|
        ensures vs[i].localStartTime == sorted[i].startTimeLocal
      {
        ActivityViewMeaning(t, sorted[i]);
      }
    }
  }

  /** A lap entry raises exactly when a speed, the distance or the duration is not a number. */
  lemma LapViewOk(s: ActivitySplit)
    ensures LapViewOf(s).Ok? <==>
      Num(s.averageSpeed).Some? && Num(s.maxSpeed).Some? && Num(s.distance).Some? && Num(s.duration).Some?
  {
  }

  /** A lap's distance is metres to km and its speeds m/s to km/h, each through `round(x, 2)`. */
  lemma LapViewNumbers(s: ActivitySplit)
    requires LapViewOf(s).Ok?
    ensures var v := LapViewOf(s).value;
      && v.distanceKm == Round2(Num(s.distance).value / 1000.0)
      && v.averageSpeedKmh == Round2(Num(s.averageSpeed).value * 3.6)
      && v.maxSpeedKmh == Round2(Num(s.maxSpeed).value * 3.6)
  {
  }

  /**
   * One lap entry: the duration formatted, the paces of the two speeds in
   * km/h, and the heart-rate and cadence values copied.
   */
  lemma LapViewMeaning(s: ActivitySplit)
    requires LapViewOf(s).Ok?
    ensures var v := LapViewOf(s).value;
      && v.lapIndex == s.lapIndex
      && v.duration == FormatDuration(Num(s.duration).value)
      && v.averagePace == SpeedToPace(Num(s.averageSpeed).value * 3.6)
      && v.maxPace == SpeedToPace(Num(s.maxSpeed).value * 3.6)
      && v.averageHr == s.averageHr && v.maxHr == s.maxHr && v.averageRunCadence == s.averageRunCadence
  {
  }

  lemma KmhQuotient(speed: real)
    requires speed > 0.0
    ensures speed * 3.6 > 0.0
    ensures 3600.0 / (speed * 3.6) == 1000.0 / speed
  {
    assert (1000.0 / speed) * (speed * 3.6) == 3600.0;
  }

  /**
   * The pace of a speed in m/s, converted to km/h first: "0:00.000" when
   * not moving, otherwise it reads back as the seconds per km `1000 / speed`
   * to the millisecond.
   */
  lemma MetresPerSecondPace(speed: real)
    ensures speed <= 0.0 ==> SpeedToPace(speed * 3.6) == "0:00.000"
    ensures speed > 0.0 ==>
      && ReadPace(SpeedToPace(speed * 3.6)).Some?
      && ReadPace(SpeedToPace(speed * 3.6)).value <= 1000.0 / speed < ReadPace(SpeedToPace(speed * 3.6)).value + 0.001
  {
    if speed > 0.0 {
      MovingPace(speed);
    } else {
      SpeedToPaceMeaning(speed * 3.6);
    }
  }

  lemma MovingPace(speed: real)
    requires speed > 0.0
    ensures SpeedToPace(speed * 3.6) == FormatPace(1000.0 / speed)
    ensures var pace := ReadPace(SpeedToPace(speed * 3.6));
      pace.Some? && pace.value <= 1000.0 / speed < pace.value + 0.001
  {
    KmhQuotient(speed);
    assert SpeedToPace(speed * 3.6) == FormatPace(1000.0 / speed);
    PositiveQuotient(1000.0, speed);
    ReadPaceOfFormatPace(1000.0 / speed);
  }

  // ---------------------------------------------------------------------
  // get_activity_laps
  // ---------------------------------------------------------------------

  /**
   * `get_activity_laps` lists the splits whose `activity_id` is the id asked
   * for, and raises exactly when one of their `average_speed` values is not
   * a number.
   */
  lemma ActivityLapsOk(splits: seq<ActivitySplit>, activityId: int)
    ensures var f := Filter((s: ActivitySplit) => SameStored(JStr(s.activityId), JInt(activityId)), splits);
      && (forall s :: s in f <==> s in splits && SameStored(JStr(s.activityId), JInt(activityId)))
      && (ActivityLapsOf(splits, activityId).Ok? <==> forall i | 0 <= i < |f| :: Num(f[i].averageSpeed).Some?)
  {
  }

  /**
   * `get_activity_laps`: one row per matching split, in order, each printing
   * its `average_speed` value with `_format_pace`, so the m/s number reads
   * back as if it were seconds per km.
   */
  lemma ActivityLapsMeaning(splits: seq<ActivitySplit>, activityId: int)
    requires ActivityLapsOf(splits, activityId).Ok?
    ensures var f := Filter((s: ActivitySplit) => SameStored(JStr(s.activityId), JInt(activityId)), splits);
      var rows := ActivityLapsOf(splits, activityId).value;
      && |rows| == |f|
      && forall i | 0 <= i < |f| ::
           && rows[i].lapIndex == f[i].lapIndex && rows[i].distance == f[i].distance
           && rows[i].duration == f[i].duration
           && rows[i].averageSpeed == FormatPace(Num(f[i].averageSpeed).value)
  {
    var f := Filter((s: ActivitySplit) => SameStored(JStr(s.activityId), JInt(activityId)), splits);
    var rows := ActivityLapsOf(splits, activityId).value;
    forall i | 0 <= i < |f|
      ensures rows[i].averageSpeed == FormatPace(Num(f[i].averageSpeed).value)
    {
      assert LapRowOf(f[i]) == Ok(rows[i]);
    }
  }
}
