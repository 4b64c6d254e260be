/**
  Histories of the store that end where a schedule property fails: what the exact
  conditions of StoreSchedules exclude does happen.
 */
module StoreWitnesses {
  import opened Common
  import opened Lifecycle
  import opened Schedule
  import opened StoreModel
  import opened StoreRuns
  import opened StoreApply
  import opened StoreSchedules
  import opened StoreHistory

  const MIRROR: Name := "mirror"
  const HERE: Name := "here"
  const THERE: Name := "there"
  const HOURLY: ScheduleConfig := Interval(3600)
  const DUE: int := 3600000
  const DOCUMENT: Document := Document(true, Some(HOURLY), Direct, 3, 0, "")

  function BundleOf(owner: Name): Bundle {
    map[MIRROR := BundleMirror(owner, DOCUMENT)]
  }

  const ARMED: ScheduleRow := ScheduleRow(HOURLY, ScheduleRuntime(Some(DUE), Some(0), false, None))
  const PASSED: ScheduleRow := ScheduleRow(HOURLY, ScheduleRuntime(None, Some(DUE), false, None))
  const FIRST: map<GenerationKey, Generation> := map[GenerationKey(MIRROR, 1) := Generation(HERE, DOCUMENT)]
  const ATTEMPT: Attempt := Attempt(Queued, 0, Spec(Key(7, 1), MIRROR, DOCUMENT), 1, 0)

  function Run7(attemptCount: nat): Run {
    Run(MIRROR, 1, HERE, Manual, Pending, 0, 3, 0, attemptCount, None, None, None, Some("request"))
  }

  const CONFIGURED: Db := Db(1, map[MIRROR := Mirror(true, true, HERE, 1)], FIRST, map[MIRROR := ARMED], map[], map[])
  const CREATED: Db := CONFIGURED.(runs := map[7 := Run7(0)])
  const DISPATCHED: Db := CONFIGURED.(runs := map[7 := Run7(1)], attempts := map[Key(7, 1) := ATTEMPT])
  const COUNTING: Db := DISPATCHED.(schedules := map[MIRROR := PASSED])
  const REMOVED: Db :=
    DISPATCHED.(revision := 2, mirrors := map[MIRROR := Mirror(false, true, HERE, 1)], schedules := map[])
  const READDED: Db :=
    DISPATCHED.(revision := 3, mirrors := map[MIRROR := Mirror(true, true, THERE, 2)],
                generations := FIRST[GenerationKey(MIRROR, 2) := Generation(THERE, DOCUMENT)])

  lemma {:induction false} SteadyThen(db: Db, txns: seq<Txn>, mid: Db, txn: Txn, calendar: Calendar)
    requires SteadyHistory(db, txns, mid, calendar) && Admissible(mid, txn) && KeepsIntervals(mid, txn)
    ensures SteadyHistory(db, txns + [txn], Commit(mid, txn, calendar), calendar)
    decreases |txns|
  {
    hide KeepsIntervals, Commit, PollPicks, ValidBundle, RepeatsOldOutcome;
    if txns == [] {
      assert (txns + [txn])[1..] == [];
    } else {
      SteadyThen(Commit(db, txns[0], calendar), txns[1..], mid, txn, calendar);
      assert (txns + [txn])[1..] == txns[1..] + [txn];
    }
  }

  lemma ApplyArms(calendar: Calendar)
    ensures AfterApply(EMPTY_DB, BundleOf(HERE), 0, 0, calendar) == CONFIGURED
  {
    var bundle := BundleOf(HERE);
    assert PlannedChange(EMPTY_DB, bundle, MIRROR) == Some(Create);
    assert Plan(EMPTY_DB, bundle).Keys == {MIRROR} && !Blocked(EMPTY_DB, bundle);
    var after := ApplyChanges(EMPTY_DB, bundle, {MIRROR}, 0, calendar);
    assert after.mirrors == CONFIGURED.mirrors && after.schedules == CONFIGURED.schedules;
    assert after.generations == FIRST by {
      assert GenerationKey(MIRROR, 1) in after.generations;
    }
  }

  lemma ManualCreates()
    ensures AfterManual(CONFIGURED, MIRROR, "request", None, 7, 0) == CREATED
  {
    assert CurrentDocument(CONFIGURED, MIRROR) == Some(DOCUMENT) && !HasActiveRun(CONFIGURED, MIRROR);
    assert ClearIntent(CONFIGURED.schedules, MIRROR) == CONFIGURED.schedules;
  }

  lemma PollDispatches()
    ensures PollPicks(CREATED, HERE, 0, true, StartManual(7))
    ensures Poll(CREATED, HERE, 0, true, false, StartManual(7)).db == DISPATCHED
  {
  }

  lemma TickPasses(calendar: Calendar)
    ensures AfterTick(DISPATCHED, DUE, calendar) == COUNTING
  {
    assert IsActiveRunOf(DISPATCHED, MIRROR, 7);
    assert AfterTick(DISPATCHED, DUE, calendar).schedules == COUNTING.schedules;
  }

  lemma RemovalIsPlanned()
    ensures Plan(DISPATCHED, map[]) == map[MIRROR := Remove] && !Blocked(DISPATCHED, map[])
  {
    assert PlannedChange(DISPATCHED, map[], MIRROR) == Some(Remove);
  }

  lemma RemovedConfiguration(calendar: Calendar)
    requires PlannedChange(DISPATCHED, map[], MIRROR) == Some(Remove)
    ensures MirrorsIn(DISPATCHED, map[], {MIRROR}) == REMOVED.mirrors
    ensures SchedulesIn(DISPATCHED, map[], {MIRROR}, 0, calendar) == map[]
    ensures GenerationsIn(DISPATCHED, map[], {MIRROR}) == FIRST
  {
    hide PlannedChange, ScheduleAfterChange;
  }

  lemma RemovedRuns()
    requires PlannedChange(DISPATCHED, map[], MIRROR) == Some(Remove)
    ensures RunsIn(DISPATCHED, map[], {MIRROR}) == DISPATCHED.runs
    ensures AttemptsIn(DISPATCHED, map[], {MIRROR}) == DISPATCHED.attempts
  {
    hide PlannedChange;
    assert HasDispatched(DISPATCHED, 7) by {
      assert DISPATCHED.attempts[Key(7, 1)].dispatches > 0;
    }
  }

  lemma RemovedIsAll(calendar: Calendar)
    requires MirrorsIn(DISPATCHED, map[], {MIRROR}) == REMOVED.mirrors
    requires SchedulesIn(DISPATCHED, map[], {MIRROR}, 0, calendar) == map[]
    requires GenerationsIn(DISPATCHED, map[], {MIRROR}) == FIRST
    requires RunsIn(DISPATCHED, map[], {MIRROR}) == DISPATCHED.runs
    requires AttemptsIn(DISPATCHED, map[], {MIRROR}) == DISPATCHED.attempts
    ensures ApplyChanges(DISPATCHED, map[], {MIRROR}, 0, calendar) == REMOVED
  {
    hide MirrorsIn, SchedulesIn, GenerationsIn, RunsIn, AttemptsIn;
  }

  lemma ApplyRemoves(calendar: Calendar)
    ensures AfterApply(DISPATCHED, map[], 1, 0, calendar) == REMOVED
  {
    hide ApplyChanges, Blocked;
    RemovalIsPlanned();
    assert Plan(DISPATCHED, map[]).Keys == {MIRROR};
    RemovedConfiguration(calendar);
    RemovedRuns();
    RemovedIsAll(calendar);
  }

  lemma ReaddingIsPlanned()
    ensures PlannedChange(REMOVED, BundleOf(THERE), MIRROR) == Some(Update)
    ensures Plan(REMOVED, BundleOf(THERE)) == map[MIRROR := Update] && !Blocked(REMOVED, BundleOf(THERE))
    ensures ReaddedElsewhere(REMOVED, BundleOf(THERE), MIRROR)
  {
    assert IsActiveRunOf(REMOVED, MIRROR, 7);
    assert PlannedChange(REMOVED, BundleOf(THERE), MIRROR) == Some(Update);
  }

  lemma ReaddedConfiguration(calendar: Calendar)
    requires PlannedChange(REMOVED, BundleOf(THERE), MIRROR) == Some(Update)
    ensures MirrorsIn(REMOVED, BundleOf(THERE), {MIRROR}) == READDED.mirrors
    ensures SchedulesIn(REMOVED, BundleOf(THERE), {MIRROR}, 0, calendar) == READDED.schedules
  {
    hide PlannedChange;
  }

  lemma ReaddedGenerations()
    requires PlannedChange(REMOVED, BundleOf(THERE), MIRROR) == Some(Update)
    ensures GenerationsIn(REMOVED, BundleOf(THERE), {MIRROR}) == READDED.generations
  {
    hide PlannedChange;
    assert GenerationKey(MIRROR, 2) in GenerationsIn(REMOVED, BundleOf(THERE), {MIRROR});
  }

  lemma ReaddedRuns()
    requires PlannedChange(REMOVED, BundleOf(THERE), MIRROR) == Some(Update)
    ensures RunsIn(REMOVED, BundleOf(THERE), {MIRROR}) == READDED.runs
    ensures AttemptsIn(REMOVED, BundleOf(THERE), {MIRROR}) == READDED.attempts
  {
    hide PlannedChange;
  }

  lemma ReaddedIsAll(calendar: Calendar)
    requires MirrorsIn(REMOVED, BundleOf(THERE), {MIRROR}) == READDED.mirrors
    requires SchedulesIn(REMOVED, BundleOf(THERE), {MIRROR}, 0, calendar) == READDED.schedules
    requires GenerationsIn(REMOVED, BundleOf(THERE), {MIRROR}) == READDED.generations
    requires RunsIn(REMOVED, BundleOf(THERE), {MIRROR}) == READDED.runs
    requires AttemptsIn(REMOVED, BundleOf(THERE), {MIRROR}) == READDED.attempts
    ensures ApplyChanges(REMOVED, BundleOf(THERE), {MIRROR}, 0, calendar) == READDED
  {
    hide MirrorsIn, SchedulesIn, GenerationsIn, RunsIn, AttemptsIn;
  }

  lemma ApplyReadds(calendar: Calendar)
    ensures AfterApply(REMOVED, BundleOf(THERE), 2, 0, calendar) == READDED
  {
    hide ApplyChanges, Blocked, BundleOf;
    ReaddingIsPlanned();
    assert Plan(REMOVED, BundleOf(THERE)).Keys == {MIRROR};
    ReaddedConfiguration(calendar);
    ReaddedGenerations();
    ReaddedRuns();
    ReaddedIsAll(calendar);
  }

  lemma EmptyIsSteady(calendar: Calendar)
    ensures SteadyHistory(EMPTY_DB, [], EMPTY_DB, calendar)
  {
  }

  /** A run of the scheduled mirror is out with its node. */
  lemma DispatchedIsReached(calendar: Calendar) returns (txns: seq<Txn>)
    ensures SteadyHistory(EMPTY_DB, txns, DISPATCHED, calendar)
  {
    hide SteadyHistory, AfterApply, AfterManual, Poll, PollPicks;
    var apply := ApplyTxn(BundleOf(HERE), 0, 0);
    var create := ManualTxn(MIRROR, "request", None, 7, 0);
    var poll := PollTxn(HERE, 0, true, false, StartManual(7));
    EmptyIsSteady(calendar);
    ApplyArms(calendar);
    SteadyThen(EMPTY_DB, [], EMPTY_DB, apply, calendar);
    ManualCreates();
    SteadyThen(EMPTY_DB, [] + [apply], CONFIGURED, create, calendar);
    PollDispatches();
    SteadyThen(EMPTY_DB, [] + [apply] + [create], CREATED, poll, calendar);
    txns := [] + [apply] + [create] + [poll];
  }

  /** A due time passes while the run is out, and the restore that closes the run leaves nothing to start another. */
  lemma RestoreStopsAnInterval(calendar: Calendar) returns (txns: seq<Txn>)
    requires ValidCalendar(calendar)
    ensures SteadyHistory(EMPTY_DB, txns, COUNTING, calendar) && ScheduleState(COUNTING)
    ensures !IntervalsAlive(AfterRestore(COUNTING))
  {
    hide SteadyHistory, AfterTick, ScheduleState;
    var tick := TickTxn(DUE);
    txns := DispatchedIsReached(calendar);
    TickPasses(calendar);
    SteadyThen(EMPTY_DB, txns, DISPATCHED, tick, calendar);
    txns := txns + [tick];
    SteadyFromEmpty(txns, COUNTING, calendar);
    assert !Alive(AfterRestore(COUNTING), MIRROR);
  }

  lemma SteadyFromEmpty(txns: seq<Txn>, db: Db, calendar: Calendar)
    requires SteadyHistory(EMPTY_DB, txns, db, calendar) && ValidCalendar(calendar)
    ensures ScheduleState(db)
  {
    hide SteadyHistory, ScheduleState;
    EmptyStoreIsSound();
    IntervalsNeverDie(EMPTY_DB, txns, db, calendar);
  }

  /**
    The mirror is removed and added back on another node while its run is out: the
    owners disagree, and the next due time passes with nobody to re-arm the schedule.
   */
  lemma ReaddingStopsAnInterval(calendar: Calendar) returns (txns: seq<Txn>)
    requires ValidCalendar(calendar)
    ensures SteadyHistory(EMPTY_DB, txns, REMOVED, calendar) && ScheduleState(REMOVED)
    ensures ReaddedElsewhere(REMOVED, BundleOf(THERE), MIRROR)
    ensures AfterApply(REMOVED, BundleOf(THERE), 2, 0, calendar) == READDED && !OwnersAgree(READDED)
    ensures SchedulesInv(READDED) && IntervalsAlive(READDED) && DueBehindForeignRun(READDED, MIRROR, DUE)
    ensures !IntervalsAlive(AfterTick(READDED, DUE, calendar))
  {
    hide SteadyHistory, AfterTick, ScheduleState, AfterApply;
    var remove := ApplyTxn(map[], 1, 0);
    txns := DispatchedIsReached(calendar);
    ApplyRemoves(calendar);
    SteadyThen(EMPTY_DB, txns, DISPATCHED, remove, calendar);
    txns := txns + [remove];
    SteadyFromEmpty(txns, REMOVED, calendar);
    ReaddingIsPlanned();
    ApplyReadds(calendar);
    ReaddedIsBehind(calendar);
  }

  lemma ReaddedIsBehind(calendar: Calendar)
    requires ValidCalendar(calendar)
    ensures !OwnersAgree(READDED) && SchedulesInv(READDED) && IntervalsAlive(READDED)
    ensures DueBehindForeignRun(READDED, MIRROR, DUE) && !IntervalsAlive(AfterTick(READDED, DUE, calendar))
  {
    hide AfterTick;
    assert IsActiveRunOf(READDED, MIRROR, 7) && READDED.runs[7].owner != READDED.mirrors[MIRROR].owner;
    assert CurrentDocument(READDED, MIRROR) == Some(DOCUMENT);
    TickKeepsIntervalsAliveExactly(READDED, DUE, calendar);
  }
}
