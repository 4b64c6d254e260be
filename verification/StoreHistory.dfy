/**
  Whole histories of the store: every sequence of transactions from an empty
  database, interleaved in any order.
 */
module StoreHistory {
  import opened Common
  import opened Lifecycle
  import opened Schedule
  import opened StoreModel
  import opened StoreRuns
  import opened StoreApply
  import opened StoreSchedules

  datatype Txn =
    | ManualTxn(mirror: Name, request: string, prior: Option<RunId>, newId: RunId, now: int)
    | PollTxn(node: Name, now: int, capacity: bool, atomicReady: bool, choice: PollChoice)
    | CancelTxn(id: RunId, now: int)
    | EventTxn(key: Key, event: AttemptEvent, now: int)
    | TickTxn(now: int)
    | ApplyTxn(bundle: Bundle, base: nat, now: int)
    | RestoreTxn

  /** The lookup of a request: its run if there is one. */
  ghost predicate IsPrior(db: Db, request: string, prior: Option<RunId>) {
    if prior.Some? then IsRunOfRequest(db, request, prior.value)
    else forall id :: id in db.runs ==> !IsRunOfRequest(db, request, id)
  }

  /** What a transaction may assume: new identifiers are new, bundles are validated, choices match rows. */
  ghost predicate WellPosed(db: Db, txn: Txn) {
    match txn
    case ManualTxn(_, request, prior, newId, _) => newId !in db.runs && IsPrior(db, request, prior)
    case PollTxn(node, now, capacity, _, choice) => PollPicks(db, node, now, capacity, choice)
    case ApplyTxn(bundle, _, _) => ValidBundle(bundle)
    case _ => true
  }

  /** One terminal sequence number per attempt: no event repeats an old outcome under a new number. */
  ghost predicate Admissible(db: Db, txn: Txn) {
    WellPosed(db, txn) && (txn.EventTxn? ==> !RepeatsOldOutcome(db, txn.key, txn.event, txn.now))
  }

  function Commit(db: Db, txn: Txn, calendar: Calendar): Db
    requires txn.PollTxn? ==> PollPicks(db, txn.node, txn.now, txn.capacity, txn.choice)
  {
    match txn
    case ManualTxn(m, request, prior, newId, now) => AfterManual(db, m, request, prior, newId, now)
    case PollTxn(node, now, capacity, atomicReady, choice) => Poll(db, node, now, capacity, atomicReady, choice).db
    case CancelTxn(id, now) => AfterCancelRequest(db, id, now, calendar)
    case EventTxn(key, event, now) => AfterEvent(db, key, event, now, calendar)
    case TickTxn(now) => AfterTick(db, now, calendar)
    case ApplyTxn(bundle, base, now) => AfterApply(db, bundle, base, now, calendar)
    case RestoreTxn => AfterRestore(db)
  }

  ghost predicate History(db: Db, txns: seq<Txn>, after: Db, calendar: Calendar)
    decreases |txns|
  {
    if txns == [] then after == db
    else Admissible(db, txns[0]) && History(Commit(db, txns[0], calendar), txns[1..], after, calendar)
  }

  lemma CommitKeepsRuns(db: Db, txn: Txn, calendar: Calendar)
    requires RunsInv(db) && Admissible(db, txn)
    ensures RunsInv(Commit(db, txn, calendar))
  {
    hide RunsInv, RepeatsOldOutcome, Poll, PollPicks, AfterManual, AfterCancelRequest, AfterEvent, AfterTick,
         AfterApply, AfterRestore, ValidBundle;
    match txn
    case ManualTxn(m, request, prior, newId, now) => ManualKeepsRuns(db, m, request, prior, newId, now);
    case PollTxn(node, now, capacity, atomicReady, choice) =>
      PollKeepsRuns(db, node, now, capacity, atomicReady, choice);
    case CancelTxn(id, now) => CancelRequestKeepsRuns(db, id, now, calendar);
    case EventTxn(key, event, now) => EventKeepsRuns(db, key, event, now, calendar);
    case TickTxn(now) => TickKeepsRuns(db, now, calendar);
    case ApplyTxn(bundle, base, now) => ApplyKeepsRuns(db, bundle, base, now, calendar);
    case RestoreTxn => RestoreKeepsRuns(db);
  }

  /** No orphaned run, in any state any history of transactions reaches. */
  lemma {:induction false} NoOrphanedRunEver(db: Db, txns: seq<Txn>, after: Db, calendar: Calendar)
    requires RunsInv(db) && History(db, txns, after, calendar)
    ensures RunsInv(after)
    decreases |txns|
  {
    hide RunsInv, Commit, RepeatsOldOutcome, ValidBundle, PollPicks;
    if txns != [] {
      CommitKeepsRuns(db, txns[0], calendar);
      NoOrphanedRunEver(Commit(db, txns[0], calendar), txns[1..], after, calendar);
    }
  }

  /** The two exclusions: an offline restore, and a mirror re-added on another node behind an open run. */
  ghost predicate KeepsIntervals(db: Db, txn: Txn) {
    && !txn.RestoreTxn?
    && (txn.ApplyTxn? ==> forall m :: m in txn.bundle ==> !ReaddedElsewhere(db, txn.bundle, m))
  }

  ghost predicate SteadyHistory(db: Db, txns: seq<Txn>, after: Db, calendar: Calendar)
    decreases |txns|
  {
    if txns == [] then after == db
    else
      && Admissible(db, txns[0]) && KeepsIntervals(db, txns[0])
      && SteadyHistory(Commit(db, txns[0], calendar), txns[1..], after, calendar)
  }

  lemma CommitKeepsSchedules(db: Db, txn: Txn, calendar: Calendar)
    requires ScheduleState(db) && Admissible(db, txn) && KeepsIntervals(db, txn) && ValidCalendar(calendar)
    ensures ScheduleState(Commit(db, txn, calendar)) && IntentCoalesces(db, Commit(db, txn, calendar))
  {
    hide ScheduleState, RepeatsOldOutcome, Poll, PollPicks, AfterManual, AfterCancelRequest, AfterEvent, AfterTick,
         AfterApply, ValidBundle, IntentCoalesces, ReaddedElsewhere;
    match txn
    case ManualTxn(m, request, prior, newId, now) => ManualKeepsSchedules(db, m, request, prior, newId, now);
    case PollTxn(node, now, capacity, atomicReady, choice) =>
      PollKeepsSchedules(db, node, now, capacity, atomicReady, choice);
    case CancelTxn(id, now) => CancelRequestKeepsSchedules(db, id, now, calendar);
    case EventTxn(key, event, now) => EventKeepsSchedules(db, key, event, now, calendar);
    case TickTxn(now) => TickKeepsSchedules(db, now, calendar);
    case ApplyTxn(bundle, base, now) => ApplyKeepsSchedules(db, bundle, base, now, calendar);
  }

  /** Interval schedules never die over any history without the two exclusions. */
  lemma {:induction false} IntervalsNeverDie(db: Db, txns: seq<Txn>, after: Db, calendar: Calendar)
    requires ScheduleState(db) && SteadyHistory(db, txns, after, calendar) && ValidCalendar(calendar)
    ensures ScheduleState(after)
    ensures forall m :: m in after.schedules && after.schedules[m].config.Interval? ==>
      after.schedules[m].runtime.nextDue.Some? || after.schedules[m].runtime.catchUpPending || HasActiveRun(after, m)
    ensures forall m :: m in after.mirrors && WantsRow(after, m) ==> m in after.schedules
    decreases |txns|
  {
    if txns == [] {
      AliveMeansRunnable(after);
    } else {
      hide ScheduleState, Commit, Admissible, KeepsIntervals, WantsRow;
      CommitKeepsSchedules(db, txns[0], calendar);
      IntervalsNeverDie(Commit(db, txns[0], calendar), txns[1..], after, calendar);
    }
  }

  lemma AliveMeansRunnable(db: Db)
    requires ScheduleState(db)
    ensures forall m :: m in db.schedules && db.schedules[m].config.Interval? ==>
      db.schedules[m].runtime.nextDue.Some? || db.schedules[m].runtime.catchUpPending || HasActiveRun(db, m)
  {
    hide RunsInv, SchedulesInv, OwnersAgree;
    forall m | m in db.schedules && db.schedules[m].config.Interval?
      ensures db.schedules[m].runtime.nextDue.Some? || db.schedules[m].runtime.catchUpPending || HasActiveRun(db, m)
    {
      assert Alive(db, m);
      if ActiveOwned(db, m) {
        OwnedIsActive(db, m);
      }
    }
  }

  lemma EmptyStoreIsSound()
    ensures RunsInv(EMPTY_DB) && ScheduleState(EMPTY_DB)
  {
  }

  // What never goes back

  ghost predicate RunsGrow(db: Db, after: Db) {
    forall id :: id in db.runs ==>
      && id in after.runs
      && after.runs[id].mirror == db.runs[id].mirror && after.runs[id].owner == db.runs[id].owner
      && after.runs[id].generation == db.runs[id].generation && after.runs[id].trigger == db.runs[id].trigger
      && after.runs[id].request == db.runs[id].request
      && db.runs[id].attemptCount <= after.runs[id].attemptCount
      && (db.runs[id].cancelAt.Some? ==> after.runs[id].cancelAt == db.runs[id].cancelAt)
      && (db.runs[id].state.IsTerminal() ==> after.runs[id] == db.runs[id])
  }

  ghost predicate AttemptsGrow(db: Db, after: Db) {
    forall k :: k in db.attempts ==>
      && k in after.attempts
      && after.attempts[k].spec == db.attempts[k].spec
      && db.attempts[k].lastSequence <= after.attempts[k].lastSequence
      && Progress(db.attempts[k].state) <= Progress(after.attempts[k].state)
      && (db.attempts[k].state.IsTerminal() ==> after.attempts[k].state == db.attempts[k].state)
  }

  lemma DispatchGrows(db: Db, id: RunId, no: nat, document: Document, now: int)
    requires id in db.runs && db.runs[id].state.IsActive() && db.runs[id].attemptCount <= no
    requires Key(id, no) !in db.attempts
    ensures RunsGrow(db, PersistDispatch(db, id, no, document, now))
    ensures AttemptsGrow(db, PersistDispatch(db, id, no, document, now))
  {
  }

  lemma MaterializeGrows(db: Db, m: Name, newId: RunId, document: Document, now: int)
    requires m in db.mirrors && m in db.schedules && newId !in db.runs && Key(newId, 1) !in db.attempts
    ensures RunsGrow(db, PersistDispatch(Materialize(db, m, newId, now), newId, 1, document, now))
    ensures AttemptsGrow(db, PersistDispatch(Materialize(db, m, newId, now), newId, 1, document, now))
  {
  }

  lemma RedeliveryGrows(db: Db, k: Key, now: int)
    requires k in db.attempts
    ensures var after := db.(attempts := db.attempts[k := db.attempts[k].(
                               dispatches := db.attempts[k].dispatches + 1, lastDispatchAt := now)]);
            RunsGrow(db, after) && AttemptsGrow(db, after)
  {
  }

  lemma PollGrows(db: Db, node: Name, now: int, capacity: bool, atomicReady: bool, choice: PollChoice)
    requires RunsInv(db) && PollPicks(db, node, now, capacity, choice)
    ensures RunsGrow(db, Poll(db, node, now, capacity, atomicReady, choice).db)
    ensures AttemptsGrow(db, Poll(db, node, now, capacity, atomicReady, choice).db)
  {
    hide RunsInv, PersistDispatch, AnyManual, AnyRetry, AnyScheduled, AnyCancel, AnyRedelivery, RunsGrow, AttemptsGrow;
    RunsKept(db);
    match choice
    case Redeliver(k) => RedeliveryGrows(db, k, now);
    case StartManual(id) =>
      ManualCandidateAwaitsFirst(db, node, id);
      if Dispatchable(db, id, 1, atomicReady) {
        DispatchGrows(db, id, 1, RunDocument(db, id).value, now);
      }
    case StartRetry(id) =>
      var no := db.runs[id].attemptCount + 1;
      if Dispatchable(db, id, no, atomicReady) {
        DispatchGrows(db, id, no, RunDocument(db, id).value, now);
      }
    case StartScheduled(m, newId) =>
      var staged := Materialize(db, m, newId, now);
      if Dispatchable(staged, newId, 1, atomicReady) {
        NewRunHasNoAttempts(db, newId);
        MaterializeGrows(db, m, newId, RunDocument(staged, newId).value, now);
      }
    case _ =>
  }

  lemma RunsKept(db: Db)
    ensures RunsGrow(db, db) && AttemptsGrow(db, db)
  {
  }

  lemma EventGrows(db: Db, key: Key, event: AttemptEvent, now: int, calendar: Calendar)
    ensures RunsGrow(db, AfterEvent(db, key, event, now, calendar))
    ensures AttemptsGrow(db, AfterEvent(db, key, event, now, calendar))
  {
    hide AfterEvent, RunAfterEvent, EventResult, RunsGrow, AttemptsGrow;
    if EventResult(db, key, event, now).Applied? {
      var after := AfterEvent(db, key, event, now, calendar);
      AppliedEventRows(db, key, event, now, calendar);
      EventedRunGrows(db, key, event, now);
      RunUpdateGrows(db, after, key.run);
      AttemptUpdateGrows(db, after, key);
    } else {
      RunsKept(db);
      UnappliedEventChangesNothing(db, key, event, now, calendar);
    }
  }

  lemma RunUpdateGrows(db: Db, after: Db, id: RunId)
    requires id in db.runs && id in after.runs && after.runs == db.runs[id := after.runs[id]]
    requires var r, next := db.runs[id], after.runs[id];
             && next == r.(state := next.state, retryDueAt := next.retryDueAt)
             && (r.state.IsTerminal() ==> next == r)
    ensures RunsGrow(db, after)
  {
  }

  lemma AttemptUpdateGrows(db: Db, after: Db, k: Key)
    requires k in db.attempts && k in after.attempts && after.attempts == db.attempts[k := after.attempts[k]]
    requires var a, next := db.attempts[k], after.attempts[k];
             && next == a.(state := next.state, lastSequence := next.lastSequence)
             && a.lastSequence <= next.lastSequence && Progress(a.state) <= Progress(next.state)
             && (a.state.IsTerminal() ==> next.state == a.state)
    ensures AttemptsGrow(db, after)
  {
  }

  lemma EventedRunGrows(db: Db, key: Key, event: AttemptEvent, now: int)
    requires EventResult(db, key, event, now).Applied?
    ensures key.run in db.runs && key in db.attempts
    ensures var r, next := db.runs[key.run], RunAfterEvent(db, key, event, now);
            && next == r.(state := next.state, retryDueAt := next.retryDueAt)
            && (r.state.IsTerminal() ==> next == r)
    ensures db.attempts[key].lastSequence < event.sequence
    ensures Progress(db.attempts[key].state) <= Progress(event.state)
    ensures db.attempts[key].state.IsTerminal() ==> event.state == db.attempts[key].state
  {
    hide DecideRetry, RetryContextOf;
  }

  lemma UnappliedEventChangesNothing(db: Db, key: Key, event: AttemptEvent, now: int, calendar: Calendar)
    requires !EventResult(db, key, event, now).Applied?
    ensures AfterEvent(db, key, event, now, calendar) == db
  {
    hide DecideRetry, TerminalRearm, ArmWith, RetryContextOf;
  }

  lemma EventedRunKeys(db: Db, key: Key, event: AttemptEvent, now: int, calendar: Calendar)
    ensures AfterEvent(db, key, event, now, calendar).runs.Keys == db.runs.Keys
  {
    hide AfterEvent, EventResult, RunAfterEvent;
    if EventResult(db, key, event, now).Applied? {
      AppliedEventRows(db, key, event, now, calendar);
      AppliedEventResolves(db, key, event, now);
    } else {
      UnappliedEventChangesNothing(db, key, event, now, calendar);
    }
  }

  lemma AppliedRunKeys(db: Db, bundle: Bundle, base: nat, now: int, calendar: Calendar)
    ensures AfterApply(db, bundle, base, now, calendar).runs.Keys == db.runs.Keys
  {
    hide AfterApply, ApplyResult, Reconfigured;
    if ApplyResult(db, bundle, base).ConfigApplied? {
      ApplyIsReconfigured(db, bundle, base, now, calendar);
      ReconfiguredRunKeys(db, bundle, now, calendar);
    } else {
      RefusedApplyChangesNothing(db, bundle, base, now, calendar);
    }
  }

  lemma ApplyGrows(db: Db, bundle: Bundle, base: nat, now: int, calendar: Calendar)
    requires RunsInv(db)
    ensures RunsGrow(db, AfterApply(db, bundle, base, now, calendar))
    ensures AfterApply(db, bundle, base, now, calendar).attempts == db.attempts
  {
    hide Reconfigured, RunsInv, Blocked, AfterApply, HasDispatched;
    if ApplyResult(db, bundle, base).ConfigApplied? {
      ApplyIsReconfigured(db, bundle, base, now, calendar);
      ReconfiguredAttempts(db, bundle, now, calendar);
      forall id | id in db.runs
        ensures id in Reconfigured(db, bundle, now, calendar).runs
        ensures var change := PlannedChange(db, bundle, db.runs[id].mirror);
                Reconfigured(db, bundle, now, calendar).runs[id] ==
                if change.Some? then RunAfterChange(db, bundle, id, change.value) else db.runs[id]
      {
        ReconfiguredRun(db, bundle, id, now, calendar);
      }
    } else {
      RefusedApplyChangesNothing(db, bundle, base, now, calendar);
    }
  }

  lemma RestoreGrows(db: Db)
    ensures RunsGrow(db, AfterRestore(db)) && AttemptsGrow(db, AfterRestore(db))
  {
    hide HasDispatched;
  }

  lemma CancelRequestGrows(db: Db, id: RunId, now: int, calendar: Calendar)
    requires RunsInv(db)
    ensures RunsGrow(db, AfterCancelRequest(db, id, now, calendar))
    ensures AfterCancelRequest(db, id, now, calendar).attempts == db.attempts
  {
    hide RunsInv, TerminalRearm, ArmWith;
    CancelChangesNoAttempt(db, id);
  }

  lemma ManualGrows(db: Db, m: Name, request: string, prior: Option<RunId>, newId: RunId, now: int)
    requires newId !in db.runs
    ensures RunsGrow(db, AfterManual(db, m, request, prior, newId, now))
    ensures AfterManual(db, m, request, prior, newId, now).attempts == db.attempts
  {
  }

  /** Ended runs are absorbing, attempts never regress, and a requested cancellation is never forgotten. */
  lemma CommitGrows(db: Db, txn: Txn, calendar: Calendar)
    requires RunsInv(db) && WellPosed(db, txn)
    ensures RunsGrow(db, Commit(db, txn, calendar)) && AttemptsGrow(db, Commit(db, txn, calendar))
  {
    hide RunsInv, Poll, PollPicks, AfterManual, AfterCancelRequest, AfterEvent, AfterTick,
         AfterApply, AfterRestore, ValidBundle, RunsGrow;
    match txn
    case ManualTxn(m, request, prior, newId, now) => ManualGrows(db, m, request, prior, newId, now);
    case PollTxn(node, now, capacity, atomicReady, choice) => PollGrows(db, node, now, capacity, atomicReady, choice);
    case CancelTxn(id, now) => CancelRequestGrows(db, id, now, calendar);
    case EventTxn(key, event, now) => EventGrows(db, key, event, now, calendar);
    case TickTxn(now) => TickGrows(db, now, calendar);
    case ApplyTxn(bundle, base, now) => ApplyGrows(db, bundle, base, now, calendar);
    case RestoreTxn => RestoreGrows(db);
  }

  lemma TickGrows(db: Db, now: int, calendar: Calendar)
    ensures RunsGrow(db, AfterTick(db, now, calendar))
    ensures AfterTick(db, now, calendar).attempts == db.attempts
  {
    hide DueRow, TickedRow;
  }

  // Cancellation is final

  /** A cancelled run is out with its agent for the last time, or over; a poll never starts it. */
  lemma CancelledRunIsNotStarted(
    db: Db, node: Name, now: int, capacity: bool, atomicReady: bool, choice: PollChoice, id: RunId)
    requires RunsInv(db) && PollPicks(db, node, now, capacity, choice)
    requires id in db.runs && (db.runs[id].cancelAt.Some? || db.runs[id].state.IsTerminal())
    ensures var action := Poll(db, node, now, capacity, atomicReady, choice).action;
            action.Some? && action.value.StartAttempt? ==> action.value.key.run != id
  {
    hide MirrorsOk, OneActive, PersistDispatch, KeyOk;
    assert RunOk(db, id);
    match choice
    case Redeliver(k) =>
      if k.run == id {
        LiveAttemptIsTheLatest(db, k);
      }
    case StartManual(other) => ManualCandidateAwaitsFirst(db, node, other);
    case _ =>
  }

  /** Whether some poll of the history starts an attempt of the run. */
  ghost predicate StartsRun(db: Db, txns: seq<Txn>, calendar: Calendar, id: RunId)
    decreases |txns|
  {
    && txns != [] && Admissible(db, txns[0])
    && (PollStarts(db, txns[0], id) || StartsRun(Commit(db, txns[0], calendar), txns[1..], calendar, id))
  }

  ghost predicate PollStarts(db: Db, txn: Txn, id: RunId)
    requires Admissible(db, txn)
  {
    txn.PollTxn? &&
    var action := Poll(db, txn.node, txn.now, txn.capacity, txn.atomicReady, txn.choice).action;
    action.Some? && action.value.StartAttempt? && action.value.key.run == id
  }

  /** After a cancellation request no later poll starts the run and no retry waits for it. */
  lemma {:induction false} CancellationIsFinal(db: Db, txns: seq<Txn>, after: Db, calendar: Calendar, id: RunId)
    requires RunsInv(db) && History(db, txns, after, calendar)
    requires id in db.runs && (db.runs[id].cancelAt.Some? || db.runs[id].state.IsTerminal())
    ensures !StartsRun(db, txns, calendar, id)
    ensures id in after.runs && after.runs[id].retryDueAt.None?
    decreases |txns|
  {
    hide Commit, KeyOk, MirrorsOk, OneActive, RepeatsOldOutcome, PollPicks, Poll, AttemptsGrow;
    if txns == [] {
      assert RunOk(after, id);
    } else {
      var next := Commit(db, txns[0], calendar);
      CommitKeepsRuns(db, txns[0], calendar);
      CommitGrows(db, txns[0], calendar);
      if txns[0].PollTxn? {
        var t := txns[0];
        CancelledRunIsNotStarted(db, t.node, t.now, t.capacity, t.atomicReady, t.choice, id);
      }
      CancellationIsFinal(next, txns[1..], after, calendar, id);
    }
  }

  // Configuration revisions

  lemma PollKeepsRevision(db: Db, node: Name, now: int, capacity: bool, atomicReady: bool, choice: PollChoice)
    requires PollPicks(db, node, now, capacity, choice)
    ensures Poll(db, node, now, capacity, atomicReady, choice).db.revision == db.revision
  {
    hide AnyCancel, AnyRedelivery, AnyManual, AnyRetry, AnyScheduled, Dispatchable, RetryCandidate, RedeliveryCandidate;
  }

  lemma EventKeepsRevision(db: Db, key: Key, event: AttemptEvent, now: int, calendar: Calendar)
    ensures AfterEvent(db, key, event, now, calendar).revision == db.revision
  {
    hide EventResult, DecideRetry, ArmWith, TerminalRearm, ProjectAttemptEvent;
    if EventResult(db, key, event, now).Applied? {
      AppliedEventResolves(db, key, event, now);
    }
  }

  lemma AppliedEventResolves(db: Db, key: Key, event: AttemptEvent, now: int)
    requires EventResult(db, key, event, now).Applied?
    ensures EventResolves(db, key)
  {
  }

  lemma RevisionStays(db: Db, txn: Txn, calendar: Calendar)
    requires WellPosed(db, txn)
    ensures db.revision <= Commit(db, txn, calendar).revision
  {
    hide ValidBundle, Blocked, Plan, PollPicks, Poll, AfterEvent, TickResolves, HasDispatched, ManualResult, Dispatched,
         MirrorsIn, GenerationsIn, SchedulesIn, RunsIn, AttemptsIn;
    match txn
    case PollTxn(node, now, capacity, atomicReady, choice) =>
      PollKeepsRevision(db, node, now, capacity, atomicReady, choice);
    case EventTxn(key, event, now) => EventKeepsRevision(db, key, event, now, calendar);
    case _ =>
  }

  lemma {:induction false} RevisionNeverFalls(db: Db, txns: seq<Txn>, after: Db, calendar: Calendar)
    requires History(db, txns, after, calendar)
    ensures db.revision <= after.revision
    decreases |txns|
  {
    hide Commit, PollPicks, ValidBundle, RepeatsOldOutcome;
    if txns != [] {
      RevisionStays(db, txns[0], calendar);
      RevisionNeverFalls(Commit(db, txns[0], calendar), txns[1..], after, calendar);
    }
  }

  /**
    Of two bundles planned on the same revision at most one is ever applied: once one
    has been, any other is refused whole, however long and whatever happened in between.
   */
  lemma StaleBundleIsRefused(
    db: Db, bundle: Bundle, base: nat, now: int, txns: seq<Txn>, after: Db, other: Bundle, later: int,
    calendar: Calendar)
    requires RunsInv(db) && ApplyResult(db, bundle, base).ConfigApplied?
    requires History(AfterApply(db, bundle, base, now, calendar), txns, after, calendar)
    ensures ApplyResult(after, other, base).RevisionConflict?
    ensures AfterApply(after, other, base, later, calendar) == after
  {
    hide History, AfterApply, Blocked, RunsInv;
    ApplyConverges(db, bundle, base, now, calendar);
    RevisionNeverFalls(AfterApply(db, bundle, base, now, calendar), txns, after, calendar);
    RefusedApplyChangesNothing(after, other, base, later, calendar);
  }
}
