/**
  When schedules become due: a tick leaves nothing due, missed cron times never come
  back, an interval counts from the end of the last run, and intent is served.
 */
module StoreDue {
  import opened Common
  import opened Lifecycle
  import opened Schedule
  import opened StoreModel
  import opened StoreRuns
  import opened StoreApply
  import opened StoreSchedules
  import opened StoreHistory

  // Ticks

  lemma TicksResolve(db: Db, now: int)
    requires SchedulesInv(db)
    ensures TickResolves(db, now)
  {
    forall m | m in db.schedules && DueRow(db, m, now) ensures CurrentDocument(db, m).value.schedule.Some? {
      assert RowOk(db, m, db.schedules[m]);
    }
  }

  /**
    A tick evaluates every due row: it intends a run exactly if none is active, a cron schedule
    goes on from now, an interval stops until a run ends, and nothing is left due.
   */
  lemma TickLeavesNothingDue(db: Db, now: int, calendar: Calendar, m: Name)
    requires SchedulesInv(db) && ValidCalendar(calendar) && m in db.schedules
    ensures var after := AfterTick(db, now, calendar);
            && m in after.schedules && after.schedules[m].config == db.schedules[m].config && !DueRow(after, m, now)
            && (!DueRow(db, m, now) ==> after.schedules[m] == db.schedules[m])
            && (DueRow(db, m, now) ==>
                  var runtime := after.schedules[m].runtime;
                  && (runtime.catchUpPending <==> !HasActiveRun(db, m))
                  && runtime.nextDue == match db.schedules[m].config
                                        case Interval(_) => None
                                        case Cron(expression) => Some(calendar(expression, now)))
  {
    hide HasActiveRun;
    TicksResolve(db, now);
    assert RowOk(db, m, db.schedules[m]);
    match db.schedules[m].config
    case Interval(_) =>
    case Cron(expression) => assert calendar(expression, now) > now;
  }

  // One transaction and one row

  function TimeOf(txn: Txn): int {
    match txn
    case RestoreTxn => 0
    case _ => txn.now
  }

  /** What a transaction at `t` other than a configuration change may make of a row. */
  predicate RowStep(before: ScheduleRow, after: ScheduleRow, t: int, calendar: Calendar) {
    var rt := before.runtime;
    && after.config == before.config
    && (|| after.runtime == rt
        || after.runtime == rt.(catchUpPending := false, catchUpSince := None)
        || (&& before.config.Interval?
            && after.runtime == ScheduleRuntime(Some(t + before.config.seconds * 1000), Some(t), false, None))
        || (&& rt.nextDue.Some? && rt.nextDue.value <= t
            && after.runtime.nextDue ==
               match before.config case Interval(_) => None case Cron(expression) => Some(calendar(expression, t))))
  }

  ghost predicate RowsStep(db: Db, after: Db, t: int, calendar: Calendar) {
    && SameMirrors(db, after)
    && forall m :: m in db.schedules ==> RowStep(db.schedules[m], after.schedules[m], t, calendar)
  }

  lemma ClearingSteps(db: Db, after: Db, m: Name, t: int, calendar: Calendar)
    requires after.mirrors == db.mirrors && after.generations == db.generations
    requires after.schedules == db.schedules || after.schedules == ClearIntent(db.schedules, m)
    ensures RowsStep(db, after, t, calendar)
  {
  }

  lemma ArmingSteps(db: Db, after: Db, r: Run, t: int, calendar: Calendar)
    requires SchedulesInv(db) && after.mirrors == db.mirrors && after.generations == db.generations
    requires after.schedules == db.schedules
             || after.schedules == ArmWith(db.schedules, r.mirror, TerminalRearm(db, r, t, calendar), t)
    ensures RowsStep(db, after, t, calendar)
  {
    forall m | m in db.schedules ensures RowOk(db, m, db.schedules[m]) {
    }
  }

  lemma PollSteps(
    db: Db, node: Name, now: int, capacity: bool, atomicReady: bool, choice: PollChoice, calendar: Calendar)
    requires PollPicks(db, node, now, capacity, choice)
    ensures RowsStep(db, Poll(db, node, now, capacity, atomicReady, choice).db, now, calendar)
  {
    hide AnyCancel, AnyRedelivery, AnyManual, AnyRetry, AnyScheduled, HasActiveRun, RowsStep, ClearIntent;
    ClearingSteps(db, Poll(db, node, now, capacity, atomicReady, choice).db,
                  if choice.StartScheduled? then choice.mirror else "", now, calendar);
  }

  lemma EventSteps(db: Db, key: Key, event: AttemptEvent, now: int, calendar: Calendar)
    requires SchedulesInv(db)
    ensures RowsStep(db, AfterEvent(db, key, event, now, calendar), now, calendar)
  {
    hide SchedulesInv, RowsStep, TerminalRearm, ArmWith, DecideRetry, RetryContextOf, ProjectAttemptEvent;
    var after := AfterEvent(db, key, event, now, calendar);
    if EventResult(db, key, event, now).Applied? {
      ArmingSteps(db, after, db.runs[key.run], now, calendar);
    } else {
      ClearingSteps(db, after, "", now, calendar);
    }
  }

  lemma CancelSteps(db: Db, id: RunId, now: int, calendar: Calendar)
    requires SchedulesInv(db)
    ensures RowsStep(db, AfterCancelRequest(db, id, now, calendar), now, calendar)
  {
    hide SchedulesInv, RowsStep, TerminalRearm, ArmWith, CancelUndispatchedAttempts, Dispatched;
    var after := AfterCancelRequest(db, id, now, calendar);
    if id in db.runs && !db.runs[id].state.IsTerminal() {
      ArmingSteps(db, after, db.runs[id], now, calendar);
    } else {
      ClearingSteps(db, after, "", now, calendar);
    }
  }

  lemma TickSteps(db: Db, now: int, calendar: Calendar)
    requires SchedulesInv(db) && ValidCalendar(calendar)
    ensures RowsStep(db, AfterTick(db, now, calendar), now, calendar)
  {
    hide SchedulesInv, HasActiveRun, TickResolves, TickedRow, ValidCalendar;
    TickKeys(db, now, calendar);
    forall m | m in db.schedules
      ensures RowStep(db.schedules[m], AfterTick(db, now, calendar).schedules[m], now, calendar)
    {
      TickLeavesNothingDue(db, now, calendar, m);
    }
  }

  lemma TickKeys(db: Db, now: int, calendar: Calendar)
    ensures SameMirrors(db, AfterTick(db, now, calendar))
  {
    hide TickResolves, DueRow, TickedRow;
  }

  lemma SteadyRows(db: Db, txn: Txn, calendar: Calendar)
    requires SchedulesInv(db) && ValidCalendar(calendar) && WellPosed(db, txn) && !txn.ApplyTxn?
    ensures RowsStep(db, Commit(db, txn, calendar), TimeOf(txn), calendar)
  {
    hide SchedulesInv, RowsStep, ValidCalendar, PollPicks, Poll, AfterEvent, AfterCancelRequest, AfterTick,
         HasDispatched, ManualResult, ClearIntent;
    var after := Commit(db, txn, calendar);
    match txn
    case ManualTxn(m, _, _, _, now) => ClearingSteps(db, after, m, now, calendar);
    case PollTxn(node, now, capacity, atomicReady, choice) =>
      PollSteps(db, node, now, capacity, atomicReady, choice, calendar);
    case CancelTxn(id, now) => CancelSteps(db, id, now, calendar);
    case EventTxn(key, event, now) => EventSteps(db, key, event, now, calendar);
    case TickTxn(now) => TickSteps(db, now, calendar);
    case RestoreTxn => ClearingSteps(db, after, "", 0, calendar);
  }

  // Rows stay matched over every history

  lemma SteppedRowsMatch(db: Db, after: Db, t: int, calendar: Calendar)
    requires SchedulesInv(db) && RowsStep(db, after, t, calendar)
    requires forall m :: m in after.schedules ==> Coherent(after.schedules[m].runtime)
    ensures SchedulesInv(after)
  {
    forall m | m in db.schedules ensures RowOk(db, m, db.schedules[m]) {
    }
    RowsStayOk(db, after);
  }

  lemma SteadyTxnKeepsRows(db: Db, txn: Txn, calendar: Calendar)
    requires SchedulesInv(db) && ValidCalendar(calendar) && WellPosed(db, txn) && !txn.ApplyTxn?
    ensures SchedulesInv(Commit(db, txn, calendar))
  {
    hide SchedulesInv, RowStep, ValidCalendar, PollPicks, Commit;
    if txn.TickTxn? {
      TickKeepsRows(db, txn.now, calendar);
      TickIsCommitted(db, txn, calendar);
    } else {
      SteadyRows(db, txn, calendar);
      CoherentSteps(db, txn, calendar);
      SteppedRowsMatch(db, Commit(db, txn, calendar), TimeOf(txn), calendar);
    }
  }

  lemma TickIsCommitted(db: Db, txn: Txn, calendar: Calendar)
    requires txn.TickTxn?
    ensures Commit(db, txn, calendar) == AfterTick(db, txn.now, calendar)
  {
  }

  lemma CoherentSteps(db: Db, txn: Txn, calendar: Calendar)
    requires SchedulesInv(db) && WellPosed(db, txn) && !txn.ApplyTxn? && !txn.TickTxn?
    requires SameMirrors(db, Commit(db, txn, calendar))
    ensures forall m :: m in db.schedules ==> Coherent(Commit(db, txn, calendar).schedules[m].runtime)
  {
    hide PollPicks, HasDispatched, ManualResult, CancelUndispatchedAttempts, Dispatched, TerminalRearm, Poll,
         AfterEvent;
    forall m | m in db.schedules ensures RowOk(db, m, db.schedules[m]) {
    }
    match txn
    case PollTxn(node, now, capacity, atomicReady, choice) =>
      PollClearsOrKeeps(db, node, now, capacity, atomicReady, choice);
    case EventTxn(key, event, now) => EventArmsOrKeeps(db, key, event, now, calendar);
    case _ =>
  }

  lemma PollClearsOrKeeps(db: Db, node: Name, now: int, capacity: bool, atomicReady: bool, choice: PollChoice)
    requires PollPicks(db, node, now, capacity, choice)
    ensures var after := Poll(db, node, now, capacity, atomicReady, choice).db;
            after.schedules == db.schedules || exists m :: after.schedules == ClearIntent(db.schedules, m)
  {
    hide AnyCancel, AnyRedelivery, AnyManual, AnyRetry, AnyScheduled, HasActiveRun, ClearIntent;
  }

  lemma EventArmsOrKeeps(db: Db, key: Key, event: AttemptEvent, now: int, calendar: Calendar)
    ensures var after := AfterEvent(db, key, event, now, calendar);
            after.schedules == db.schedules ||
            (key.run in db.runs && after.schedules ==
             ArmWith(db.schedules, db.runs[key.run].mirror, TerminalRearm(db, db.runs[key.run], now, calendar), now))
  {
    hide TerminalRearm, ArmWith, DecideRetry, RetryContextOf, ProjectAttemptEvent;
  }

  lemma ApplyKeepsRowsMatched(db: Db, bundle: Bundle, base: nat, now: int, calendar: Calendar)
    requires RunsInv(db) && SchedulesInv(db)
    ensures SchedulesInv(AfterApply(db, bundle, base, now, calendar))
  {
    hide Reconfigured, RunsInv, Blocked, RowOk, WantsRow, IntentStep, AfterApply, ApplyResult;
    if ApplyResult(db, bundle, base).ConfigApplied? {
      var after := Reconfigured(db, bundle, now, calendar);
      ApplyIsReconfigured(db, bundle, base, now, calendar);
      forall m
        ensures m in after.schedules ==> RowOk(after, m, after.schedules[m])
        ensures m in after.mirrors && WantsRow(after, m) ==> m in after.schedules
      {
        ApplyKeepsOneRow(db, bundle, m, now, calendar);
      }
    } else {
      RefusedApplyChangesNothing(db, bundle, base, now, calendar);
    }
  }

  lemma CommitKeepsRowsMatched(db: Db, txn: Txn, calendar: Calendar)
    requires RunsInv(db) && SchedulesInv(db) && ValidCalendar(calendar) && WellPosed(db, txn)
    ensures SchedulesInv(Commit(db, txn, calendar))
  {
    hide RunsInv, SchedulesInv, ValidCalendar, PollPicks, AfterApply;
    if txn.ApplyTxn? {
      ApplyKeepsRowsMatched(db, txn.bundle, txn.base, txn.now, calendar);
    } else {
      SteadyTxnKeepsRows(db, txn, calendar);
    }
  }

  // Cron

  /** Every cron schedule is due later than `t`. */
  ghost predicate CronIsPast(db: Db, t: int) {
    forall m :: m in db.schedules && db.schedules[m].config.Cron? ==>
      db.schedules[m].runtime.nextDue.Some? && db.schedules[m].runtime.nextDue.value > t
  }

  /** Configuration changes come at `t` or later. */
  predicate AppliesFrom(txns: seq<Txn>, t: int) {
    forall i :: 0 <= i < |txns| && txns[i].ApplyTxn? ==> txns[i].now >= t
  }

  lemma AppliedRowIsPast(db: Db, bundle: Bundle, base: nat, now: int, calendar: Calendar, t: int)
    requires SchedulesInv(db) && ValidCalendar(calendar) && CronIsPast(db, t) && now >= t
    ensures CronIsPast(AfterApply(db, bundle, base, now, calendar), t)
  {
    hide Reconfigured, Blocked, SchedulesInv, AfterApply, ApplyResult, ValidCalendar, PlannedChange, Eligible;
    if ApplyResult(db, bundle, base).ConfigApplied? {
      var after := Reconfigured(db, bundle, now, calendar);
      ApplyIsReconfigured(db, bundle, base, now, calendar);
      forall m | m in after.schedules && after.schedules[m].config.Cron?
        ensures after.schedules[m].runtime.nextDue.Some? && after.schedules[m].runtime.nextDue.value > t
      {
        ReconfiguredSchedule(db, bundle, m, now, calendar);
        CalendarIsLater(calendar, after.schedules[m].config.expression, now);
      }
    } else {
      RefusedApplyChangesNothing(db, bundle, base, now, calendar);
    }
  }

  lemma CalendarIsLater(calendar: Calendar, expression: string, now: int)
    requires ValidCalendar(calendar)
    ensures calendar(expression, now) > now
  {
  }

  lemma CommitKeepsCronPast(db: Db, txn: Txn, calendar: Calendar, t: int)
    requires SchedulesInv(db) && ValidCalendar(calendar) && CronIsPast(db, t) && WellPosed(db, txn)
    requires txn.ApplyTxn? ==> txn.now >= t
    ensures CronIsPast(Commit(db, txn, calendar), t)
  {
    hide SchedulesInv, ValidCalendar, PollPicks, AfterApply, Commit;
    var after := Commit(db, txn, calendar);
    if txn.ApplyTxn? {
      AppliedRowIsPast(db, txn.bundle, txn.base, txn.now, calendar, t);
      ApplyIsCommitted(db, txn, calendar);
    } else {
      SteadyRows(db, txn, calendar);
      forall m | m in after.schedules && after.schedules[m].config.Cron?
        ensures after.schedules[m].runtime.nextDue.Some? && after.schedules[m].runtime.nextDue.value > t
      {
        CalendarIsLater(calendar, after.schedules[m].config.expression, TimeOf(txn));
      }
    }
  }

  lemma ApplyIsCommitted(db: Db, txn: Txn, calendar: Calendar)
    requires txn.ApplyTxn?
    ensures Commit(db, txn, calendar) == AfterApply(db, txn.bundle, txn.base, txn.now, calendar)
  {
  }

  lemma {:induction false} CronStaysPast(db: Db, txns: seq<Txn>, after: Db, calendar: Calendar, t: int)
    requires RunsInv(db) && SchedulesInv(db) && ValidCalendar(calendar) && CronIsPast(db, t)
    requires History(db, txns, after, calendar) && AppliesFrom(txns, t)
    ensures SchedulesInv(after) && CronIsPast(after, t)
    decreases |txns|
  {
    hide RunsInv, SchedulesInv, ValidCalendar, CronIsPast, Commit, RepeatsOldOutcome, ValidBundle, PollPicks;
    if txns != [] {
      CommitKeepsRuns(db, txns[0], calendar);
      CommitKeepsRowsMatched(db, txns[0], calendar);
      CommitKeepsCronPast(db, txns[0], calendar, t);
      assert forall i :: 0 <= i < |txns[1..]| ==> txns[1..][i] == txns[i + 1];
      CronStaysPast(Commit(db, txns[0], calendar), txns[1..], after, calendar, t);
    }
  }

  /**
    However many cron times were missed before a tick, they are one intent: whatever happens
    after it, runs started and ended included, no tick at a time up to that one finds the
    schedule due again.
   */
  lemma MissedCronTimesAreOne(
    db: Db, now: int, txns: seq<Txn>, after: Db, calendar: Calendar, m: Name, later: int)
    requires RunsInv(db) && SchedulesInv(db) && ValidCalendar(calendar)
    requires History(AfterTick(db, now, calendar), txns, after, calendar) && AppliesFrom(txns, now)
    requires m in after.schedules && after.schedules[m].config.Cron? && later <= now
    ensures !DueRow(after, m, later)
    ensures m in AfterTick(after, later, calendar).schedules
            && AfterTick(after, later, calendar).schedules[m] == after.schedules[m]
  {
    hide RunsInv, History, AfterTick, SchedulesInv, ValidCalendar, HasActiveRun;
    var ticked := AfterTick(db, now, calendar);
    TickKeepsRuns(db, now, calendar);
    TickKeepsRows(db, now, calendar);
    TickKeys(db, now, calendar);
    forall x | x in db.schedules
      ensures ticked.schedules[x].config.Cron? ==>
        ticked.schedules[x].runtime.nextDue.Some? && ticked.schedules[x].runtime.nextDue.value > now
    {
      TickLeavesNothingDue(db, now, calendar, x);
      RowIsEligible(db, x);
      if ticked.schedules[x].config.Cron? {
        CalendarIsLater(calendar, ticked.schedules[x].config.expression, now);
      }
    }
    CronStaysPast(ticked, txns, after, calendar, now);
    TickLeavesNothingDue(after, later, calendar, m);
  }

  lemma RowIsEligible(db: Db, m: Name)
    requires SchedulesInv(db) && m in db.schedules
    ensures Eligible(db, m) && CurrentDocument(db, m).Some?
    ensures db.schedules[m].config.Cron? ==> db.schedules[m].runtime.nextDue.Some?
  {
    assert RowOk(db, m, db.schedules[m]);
  }

  // Intervals

  /** The end of a run, on a mirror still its owner's, arms the interval from that moment. */
  lemma EndArmsInterval(db: Db, key: Key, event: AttemptEvent, now: int, calendar: Calendar)
    requires RunsInv(db) && SchedulesInv(db) && EventResult(db, key, event, now).Applied?
    requires db.runs[key.run].state.IsActive() && OwnerHolds(db, db.runs[key.run])
    requires key.run in AfterEvent(db, key, event, now, calendar).runs
    requires !AfterEvent(db, key, event, now, calendar).runs[key.run].state.IsActive()
    ensures var m, after := db.runs[key.run].mirror, AfterEvent(db, key, event, now, calendar);
            m in db.schedules && db.schedules[m].config.Interval? ==>
              IntervalWaits(after, m, db.schedules[m].config.seconds, now + db.schedules[m].config.seconds * 1000)
  {
    hide RunsInv, HasActiveRun;
    var m := db.runs[key.run].mirror;
    if m in db.schedules {
      assert RowOk(db, m, db.schedules[m]);
    }
  }

  /** A run that ends on a mirror no longer its owner's, or not eligible, changes no schedule. */
  lemma ForeignEndArmsNothing(db: Db, key: Key, event: AttemptEvent, now: int, calendar: Calendar)
    requires EventResult(db, key, event, now).Applied? && !OwnerHolds(db, db.runs[key.run])
    ensures AfterEvent(db, key, event, now, calendar).schedules == db.schedules
    ensures AfterCancelRequest(db, key.run, now, calendar).schedules == db.schedules
  {
    hide DecideRetry, RetryContextOf, ProjectAttemptEvent, CancelUndispatchedAttempts, Dispatched;
  }

  /** An interval schedule that intends no run and is due no earlier than `until`, if at all. */
  predicate IntervalWaits(db: Db, m: Name, seconds: nat, until: int) {
    && m in db.schedules && db.schedules[m].config == Interval(seconds) && !db.schedules[m].runtime.catchUpPending
    && (db.schedules[m].runtime.nextDue.Some? ==> db.schedules[m].runtime.nextDue.value >= until)
  }

  /** A history at times from `start` and before `until` that does not reconfigure the mirror. */
  ghost predicate CalmHistory(
    db: Db, txns: seq<Txn>, after: Db, calendar: Calendar, m: Name, start: int, until: int)
    decreases |txns|
  {
    if txns == [] then after == db
    else
      && Admissible(db, txns[0]) && (!txns[0].RestoreTxn? ==> start <= TimeOf(txns[0]) < until)
      && (txns[0].ApplyTxn? ==> PlannedChange(db, txns[0].bundle, m).None?)
      && CalmHistory(Commit(db, txns[0], calendar), txns[1..], after, calendar, m, start, until)
  }

  lemma CommitKeepsWaiting(db: Db, txn: Txn, calendar: Calendar, m: Name, seconds: nat, start: int)
    requires SchedulesInv(db) && ValidCalendar(calendar) && WellPosed(db, txn)
    requires IntervalWaits(db, m, seconds, start + seconds * 1000)
    requires !txn.RestoreTxn? ==> start <= TimeOf(txn) < start + seconds * 1000
    requires txn.ApplyTxn? ==> PlannedChange(db, txn.bundle, m).None?
    ensures IntervalWaits(Commit(db, txn, calendar), m, seconds, start + seconds * 1000)
  {
    hide SchedulesInv, ValidCalendar, PollPicks, AfterApply, Commit;
    if txn.ApplyTxn? {
      ApplyIsCommitted(db, txn, calendar);
      UnplannedRowStays(db, txn.bundle, txn.base, txn.now, calendar, m);
    } else if txn.RestoreTxn? {
      RestoreKeepsRows(db, txn, calendar);
    } else {
      SteadyRows(db, txn, calendar);
    }
  }

  lemma RestoreKeepsRows(db: Db, txn: Txn, calendar: Calendar)
    requires txn.RestoreTxn?
    ensures Commit(db, txn, calendar).schedules == db.schedules
  {
    hide HasDispatched;
  }

  lemma UnplannedRowStays(db: Db, bundle: Bundle, base: nat, now: int, calendar: Calendar, m: Name)
    requires m in db.schedules && PlannedChange(db, bundle, m).None?
    ensures var after := AfterApply(db, bundle, base, now, calendar);
            m in after.schedules && after.schedules[m] == db.schedules[m]
  {
    hide AfterApply, ApplyResult, Reconfigured, PlannedChange;
    if ApplyResult(db, bundle, base).ConfigApplied? {
      ApplyIsReconfigured(db, bundle, base, now, calendar);
      ReconfiguredSchedule(db, bundle, m, now, calendar);
    } else {
      RefusedApplyChangesNothing(db, bundle, base, now, calendar);
    }
  }

  /** Within an interval of the end of its last run a mirror is not due, and no poll starts a scheduled run of it. */
  lemma {:induction false} IntervalRunsAreSpaced(
    db: Db, txns: seq<Txn>, after: Db, calendar: Calendar, m: Name, seconds: nat, start: int, node: Name)
    requires RunsInv(db) && SchedulesInv(db) && ValidCalendar(calendar)
    requires IntervalWaits(db, m, seconds, start + seconds * 1000)
    requires CalmHistory(db, txns, after, calendar, m, start, start + seconds * 1000)
    ensures IntervalWaits(after, m, seconds, start + seconds * 1000)
    ensures !ScheduledCandidate(after, node, m) && forall t :: t < start + seconds * 1000 ==> !DueRow(after, m, t)
    decreases |txns|
  {
    hide RunsInv, SchedulesInv, ValidCalendar, Commit, RepeatsOldOutcome, ValidBundle, PollPicks, PlannedChange;
    if txns != [] {
      CommitKeepsRuns(db, txns[0], calendar);
      CommitKeepsRowsMatched(db, txns[0], calendar);
      CommitKeepsWaiting(db, txns[0], calendar, m, seconds, start);
      IntervalRunsAreSpaced(Commit(db, txns[0], calendar), txns[1..], after, calendar, m, seconds, start, node);
    }
  }

  // Intent and configuration

  /** Intent without an active run is exactly what a poll of the owner serves. */
  lemma IntentIsInSight(db: Db, m: Name, node: Name)
    requires SchedulesInv(db) && m in db.schedules
    ensures ScheduledCandidate(db, node, m) <==>
            db.schedules[m].runtime.catchUpPending && !HasActiveRun(db, m) && db.mirrors[m].owner == node
  {
    assert RowOk(db, m, db.schedules[m]);
  }

  function FreshRow(config: ScheduleConfig, now: int, calendar: Calendar): ScheduleRow {
    var next :=
      match config
      case Interval(seconds) => now + seconds * 1000
      case Cron(expression) => calendar(expression, now);
    ScheduleRow(config, ScheduleRuntime(Some(next), Some(now), false, None))
  }

  /**
    A committed bundle keeps a schedule as it is, intent and all, exactly for a mirror that stays
    managed, enabled, with its owner and its schedule; any other schedule starts afresh from now.
   */
  lemma ScheduleSurvivesApplyExactly(db: Db, bundle: Bundle, base: nat, now: int, calendar: Calendar, m: Name)
    requires RunsInv(db) && SchedulesInv(db) && ApplyResult(db, bundle, base).ConfigApplied?
    ensures var after := AfterApply(db, bundle, base, now, calendar);
            && (m in after.schedules <==>
                  m in bundle && bundle[m].document.enabled && bundle[m].document.schedule.Some?)
            && (m in after.schedules ==>
                  after.schedules[m] ==
                  if m in db.schedules && db.mirrors[m].owner == bundle[m].owner
                     && bundle[m].document.schedule == Some(db.schedules[m].config)
                  then db.schedules[m]
                  else FreshRow(bundle[m].document.schedule.value, now, calendar))
  {
    hide Reconfigured, Blocked, AfterApply, RunOk, KeyOk, OneActive, HighImpact;
    ApplyIsReconfigured(db, bundle, base, now, calendar);
    ReconfiguredSchedule(db, bundle, m, now, calendar);
    if m in db.schedules {
      assert RowOk(db, m, db.schedules[m]);
    }
    if m in db.mirrors {
      ValidCurrentDocument(db, m);
      assert WantsRow(db, m) ==> m in db.schedules;
    }
  }
}
