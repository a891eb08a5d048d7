/**
 * The database session the services share (a SQLAlchemy `Session` with
 * `autoflush=False`): rows added are pending, `flush()` writes them into the
 * open transaction, `commit()` makes the transaction permanent and
 * `rollback()` discards everything not yet committed. Queries see committed
 * and flushed rows. `delete(row)` only marks the row; the commit removes it.
 */
module Store {
  import opened Json
  import opened Models

  // ---------------------------------------------------------------------
  // Query helpers: `filter(...)` and `first()`
  // ---------------------------------------------------------------------

  /** The rows `p` holds of, in their order. */
  function Filter<T(!new)>(p: T -> bool, xs: seq<T>): (r: seq<T>)
    ensures |r| <= |xs|
    ensures forall x :: x in r <==> x in xs && p(x)
    decreases |xs|
  {
    if xs == [] then []
    else
      var rest := Filter(p, xs[1..]);
      assert forall x :: x in xs <==> x == xs[0] || x in xs[1..];
      if p(xs[0]) then [xs[0]] + rest else rest
  }

  /** The index of the first row `p` holds of, or `|xs|` when there is none. */
  function FirstIndex<T>(p: T -> bool, xs: seq<T>): (k: nat)
    ensures k <= |xs|
    ensures k < |xs| ==> p(xs[k])
    ensures forall j | 0 <= j < k :: !p(xs[j])
    decreases |xs|
  {
    if xs == [] then 0
    else if p(xs[0]) then 0
    else 1 + FirstIndex(p, xs[1..])
  }

  /** A filter that keeps every row returns the rows. */
  lemma {:induction false} FilterAll<T(!new)>(p: T -> bool, xs: seq<T>)
    requires forall j | 0 <= j < |xs| :: p(xs[j])
    ensures Filter(p, xs) == xs
    decreases |xs|
  {
    if xs != [] {
      FilterAll(p, xs[1..]);
    }
  }

  /** A filter that drops exactly the row at `k` returns the others in order. */
  lemma {:induction false} FilterDropsOne<T(!new)>(p: T -> bool, xs: seq<T>, k: nat)
    requires k < |xs| && !p(xs[k])
    requires forall j | 0 <= j < |xs| && j != k :: p(xs[j])
    ensures Filter(p, xs) == xs[..k] + xs[k + 1..]
    decreases |xs|
  {
    var tail := xs[1..];
    forall j | 0 <= j < |tail| && j != k - 1
      ensures p(tail[j])
    {
      assert tail[j] == xs[j + 1];
    }
    if k == 0 {
      FilterAll(p, tail);
    } else {
      FilterDropsOne(p, tail, k - 1);
      calc {
        Filter(p, xs);
        [xs[0]] + Filter(p, tail);
        [xs[0]] + (tail[..k - 1] + tail[k..]);
        { assert xs[..k] == [xs[0]] + tail[..k - 1]; assert xs[k + 1..] == tail[k..]; }
        xs[..k] + xs[k + 1..];
      }
    }
  }

  // ---------------------------------------------------------------------
  // Tables and session states
  // ---------------------------------------------------------------------

  datatype Tables = Tables(activities: seq<Activity>, splits: seq<ActivitySplit>,
                           comments: seq<ActivityComment>, feedbacks: seq<ActivityFeedback>)

  const Empty: Tables := Tables([], [], [], [])

  function Concat(a: Tables, b: Tables): Tables {
    Tables(a.activities + b.activities, a.splits + b.splits, a.comments + b.comments, a.feedbacks + b.feedbacks)
  }

  /**
   * A snapshot of a session: what is committed, flushed in the open
   * transaction, and only added, and the ids of the comments marked deleted.
   */
  datatype State = State(committed: Tables, flushed: Tables, pending: Tables, deleted: set<int>) {
    /** What a query through this session sees. */
    function Visible(): Tables { Concat(committed, flushed) }
  }

  /** The store's constraint check on a split row: false means the write of that row fails. */
  type SplitCheck = ActivitySplit -> bool

  function AfterAdd(st: State, a: Activity): State {
    st.(pending := st.pending.(activities := st.pending.activities + [a]))
  }

  function AfterAddSplit(st: State, s: ActivitySplit): State {
    st.(pending := st.pending.(splits := st.pending.splits + [s]))
  }

  function AfterFlush(st: State): State {
    st.(flushed := Concat(st.flushed, st.pending), pending := Empty)
  }

  // ---------------------------------------------------------------------
  // Binding column values
  // ---------------------------------------------------------------------

  /** SQLite's signed 64-bit INTEGER range. */
  const MinInt64: int := -0x8000_0000_0000_0000
  const MaxInt64: int := 0x7FFF_FFFF_FFFF_FFFF

  /**
   * Whether the `sqlite3` driver binds `v` as a statement parameter: None,
   * a bool, an int in 64 bits, a float or a str. A larger int raises
   * OverflowError, and a list or dict cannot be bound.
   */
  predicate Bindable(v: Value) {
    match v
    case JInt(i) => MinInt64 <= i <= MaxInt64
    case JArr(_) => false
    case JObj(_) => false
    case _ => true
  }

  /**
   * Whether SQLAlchemy's `Boolean` column type takes `v`: None, True or
   * False, or a number equal to one of them (0, 1, 0.0, 1.0). Any other int
   * raises ValueError and any other value TypeError.
   */
  predicate BooleanBindable(v: Value) {
    match v
    case JNull => true
    case JBool(_) => true
    case JInt(i) => i == 0 || i == 1
    case JReal(r) => r == 0.0 || r == 1.0
    case _ => false
  }

  /**
   * Whether flushing an `activities` row gets past its column types
   * (backend/app/models/activity.py): the three `Boolean` columns hold what
   * `Boolean` takes, and every `Integer`, `Float` and `String` column what
   * the driver binds. The `JSON` columns take any value, and the `DateTime`
   * ones hold datetimes.
   */
  predicate RowBinds(a: Activity) {
    && BooleanBindable(a.elevationCorrected) && BooleanBindable(a.favorite) && BooleanBindable(a.manualActivity)
    && Bindable(JInt(a.userId)) && Bindable(a.activityId) && Bindable(a.activityName)
    && Bindable(a.distance) && Bindable(a.duration) && Bindable(a.elapsedDuration) && Bindable(a.movingDuration)
    && Bindable(a.elevationGain) && Bindable(a.elevationLoss) && Bindable(a.minElevation) && Bindable(a.maxElevation)
    && Bindable(a.averageSpeed) && Bindable(a.maxSpeed)
    && Bindable(a.startLatitude) && Bindable(a.startLongitude) && Bindable(a.endLatitude) && Bindable(a.endLongitude)
    && Bindable(a.averageHr) && Bindable(a.maxHr) && Bindable(a.avgPower) && Bindable(a.maxPower)
    && Bindable(a.aerobicTrainingEffect) && Bindable(a.anaerobicTrainingEffect) && Bindable(a.trainingEffectLabel)
    && Bindable(a.vo2maxValue) && Bindable(a.averageCadence) && Bindable(a.maxCadence)
    && Bindable(a.avgVerticalOscillation) && Bindable(a.avgGroundContactTime) && Bindable(a.avgStrideLength)
    && Bindable(a.calories) && Bindable(a.waterEstimated) && Bindable(a.activityTrainingLoad)
    && Bindable(a.moderateIntensityMinutes) && Bindable(a.vigorousIntensityMinutes) && Bindable(a.steps)
    && Bindable(a.timeZoneId) && Bindable(a.sportTypeId) && Bindable(a.deviceId) && Bindable(a.manufacturer)
    && Bindable(a.lapCount)
  }

  /** A flush fails when an added `activities` row does not get past its column types. */
  predicate FlushSucceeds(st: State) {
    forall i | 0 <= i < |st.pending.activities| :: RowBinds(st.pending.activities[i])
  }

  /** Adding a row to what flushes: the flush then succeeds exactly when it did and the row binds. */
  lemma FlushSucceedsAdd(st: State, a: Activity)
    ensures FlushSucceeds(AfterAdd(st, a)) <==> FlushSucceeds(st) && RowBinds(a)
  {
    var ps := AfterAdd(st, a).pending.activities;
    assert ps[|ps| - 1] == a;
    assert forall i | 0 <= i < |st.pending.activities| :: ps[i] == st.pending.activities[i];
  }

  /** A commit fails when the store rejects a split row written in the open transaction. */
  predicate CommitSucceeds(st: State, accepts: SplitCheck) {
    && (forall i | 0 <= i < |st.flushed.splits| :: accepts(st.flushed.splits[i]))
    && (forall i | 0 <= i < |st.pending.splits| :: accepts(st.pending.splits[i]))
  }

  /** The comments a commit keeps: those not marked deleted, in order. */
  function Kept(comments: seq<ActivityComment>, deleted: set<int>): seq<ActivityComment> {
    Filter((c: ActivityComment) => c.id !in deleted, comments)
  }

  /** Everything added is written and made permanent, and the marked comments are removed. */
  function AfterCommit(st: State): State {
    var all := Concat(st.Visible(), st.pending);
    State(all.(comments := Kept(all.comments, st.deleted)), Empty, Empty, {})
  }

  function AfterRollback(st: State): State {
    State(st.committed, Empty, Empty, {})
  }

  /** `delete(comment)` on a comment with id `id`: the row is marked, and stays until the commit. */
  function AfterDeleteComment(st: State, id: int): State {
    st.(deleted := st.deleted + {id})
  }

  /**
   * A delete changes nothing a query sees and is forgotten by a rollback;
   * the commit that follows makes permanent everything it would otherwise,
   * less exactly the comments with that id.
   */
  lemma DeleteCommentStaged(st: State, id: int)
    ensures AfterDeleteComment(st, id).Visible() == st.Visible()
    ensures AfterRollback(AfterDeleteComment(st, id)) == AfterRollback(st)
    ensures var all := Concat(st.Visible(), st.pending);
      var c := AfterCommit(AfterDeleteComment(st, id)).committed;
      && (forall x :: x in c.comments <==> x in all.comments && x.id != id && x.id !in st.deleted)
      && c.activities == all.activities && c.splits == all.splits && c.feedbacks == all.feedbacks
  {
  }

  /** With distinct ids, marking the id of the comment at `k` makes the commit keep every comment but that one. */
  lemma KeptDropsOne(comments: seq<ActivityComment>, deleted: set<int>, k: nat)
    requires k < |comments| && deleted == {comments[k].id}
    requires forall j | 0 <= j < |comments| && j != k :: comments[j].id != comments[k].id
    ensures Kept(comments, deleted) == comments[..k] + comments[k + 1..]
  {
    FilterDropsOne((c: ActivityComment) => c.id !in deleted, comments, k);
  }

  /** With nothing marked, a commit keeps every comment. */
  lemma KeptNone(comments: seq<ActivityComment>, deleted: set<int>)
    requires deleted == {}
    ensures Kept(comments, deleted) == comments
  {
    FilterAll((c: ActivityComment) => c.id !in deleted, comments);
  }

  /** A transition that keeps every visible activity row in place and only appends. */
  predicate Extends(st: State, st': State) {
    st.Visible().activities <= st'.Visible().activities
  }

  lemma CommitExtends(st: State)
    ensures Extends(st, AfterCommit(st))
    ensures AfterCommit(st).committed.activities == st.committed.activities + st.flushed.activities + st.pending.activities
  {
    assert AfterCommit(st).Visible().activities == st.Visible().activities + st.pending.activities;
  }

  class Session {
    var committed: Tables
    var flushed: Tables
    var pending: Tables
    var deleted: set<int>
    const accepts: SplitCheck

    function Snapshot(): State
      reads this
    {
      State(committed, flushed, pending, deleted)
    }

    /** A fresh session over the committed contents of the database. */
    constructor (initial: Tables, accepts: SplitCheck)
      ensures Snapshot() == State(initial, Empty, Empty, {}) && this.accepts == accepts
    {
      committed, flushed, pending, deleted := initial, Empty, Empty, {};
      this.accepts := accepts;
    }

    method Add(a: Activity)
      modifies this
      ensures Snapshot() == AfterAdd(old(Snapshot()), a)
    {
      pending := pending.(activities := pending.activities + [a]);
    }

    method AddSplit(s: ActivitySplit)
      modifies this
      ensures Snapshot() == AfterAddSplit(old(Snapshot()), s)
    {
      pending := pending.(splits := pending.splits + [s]);
    }

    /**
     * `flush()`. A flush that fails leaves the rows where they were; what the
     * session then refuses until `rollback()` is its caller's to track.
     */
    method Flush() returns (ok: bool)
      modifies this
      ensures ok == FlushSucceeds(old(Snapshot()))
      ensures Snapshot() == if ok then AfterFlush(old(Snapshot())) else old(Snapshot())
    {
      ok := forall i | 0 <= i < |pending.activities| :: RowBinds(pending.activities[i]);
      if ok {
        flushed := Concat(flushed, pending);
        pending := Empty;
      }
    }

    /** `commit()`; on failure the session is left as it was, with its transaction still open. */
    method Commit() returns (ok: bool)
      modifies this
      ensures ok == CommitSucceeds(old(Snapshot()), accepts)
      ensures Snapshot() == if ok then AfterCommit(old(Snapshot())) else old(Snapshot())
    {
      ok := (forall i | 0 <= i < |flushed.splits| :: accepts(flushed.splits[i]))
         && (forall i | 0 <= i < |pending.splits| :: accepts(pending.splits[i]));
      if ok {
        var all := Concat(Concat(committed, flushed), pending);
        committed := all.(comments := Kept(all.comments, deleted));
        flushed, pending, deleted := Empty, Empty, {};
      }
    }

    method Rollback()
      modifies this
      ensures Snapshot() == AfterRollback(old(Snapshot()))
    {
      flushed, pending, deleted := Empty, Empty, {};
    }

    /** `delete(comment)` on a comment with id `id`. */
    method DeleteComment(id: int)
      modifies this
      ensures Snapshot() == AfterDeleteComment(old(Snapshot()), id)
    {
      deleted := deleted + {id};
    }
  }
}
