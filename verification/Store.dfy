/**
  The server's store: its tables as fields and one method per transaction, each
  proved against the transaction's function and to keep the run invariant.
 */
module Store {
  import opened Common
  import opened Lifecycle
  import opened Schedule
  import opened StoreModel
  import opened StoreRuns
  import opened StoreApply
  import opened StoreSteps

  datatype CancellationOutcome = UnknownRun | RunKnown(run: Run, newlyRequested: bool)

  function WithState(r: Run, state: RunState): Run {
    r.(state := state, retryDueAt := None)
  }

  predicate NeverDispatched(db: Db, id: RunId)
    requires id in db.runs
  {
    db.runs[id].state.Pending? && !HasDispatched(db, id)
  }

  function ClosedRun(db: Db, id: RunId): Run
    requires id in db.runs
  {
    if !db.runs[id].state.IsActive() then db.runs[id]
    else WithState(db.runs[id], if NeverDispatched(db, id) then RunCancelled else RunFailed)
  }

  lemma ClosedAlike(db: Db, other: Db, id: RunId)
    requires id in db.runs && other.runs == db.runs && other.attempts.Keys == db.attempts.Keys
    requires forall k :: k in db.attempts ==> other.attempts[k].dispatches == db.attempts[k].dispatches
    ensures ClosedRun(other, id) == ClosedRun(db, id)
  {
    SameDispatches(db, other, id);
  }

  lemma RestoredTables(db: Db)
    ensures AfterRestore(db).attempts.Keys == db.attempts.Keys
    ensures forall k :: k in db.attempts ==>
      AfterRestore(db).attempts[k] ==
      if db.attempts[k].state.IsTerminal() then db.attempts[k] else db.attempts[k].(state := Interrupted)
    ensures AfterRestore(db).runs.Keys == db.runs.Keys
    ensures forall id :: id in db.runs ==>
      AfterRestore(db).runs[id] == ClosedRun(db, id)
    ensures AfterRestore(db) == db.(attempts := AfterRestore(db).attempts, runs := AfterRestore(db).runs)
  {
    hide HasDispatched;
  }

  lemma RestoreKeepsKeys(db: Db)
    ensures AfterRestore(db).runs.Keys == db.runs.Keys
  {
    hide HasDispatched;
  }

  function WithPendingCancelled(db: Db, m: Name): map<Key, Attempt> {
    map k | k in db.attempts ::
      if k.run in db.runs && db.runs[k.run].mirror == m && db.runs[k.run].state.Pending?
         && db.attempts[k].dispatches == 0 && db.attempts[k].state.Queued?
      then db.attempts[k].(state := Cancelled) else db.attempts[k]
  }

  function WithUndispatchedEnded(db: Db, m: Name): map<RunId, Run> {
    map id | id in db.runs ::
      if db.runs[id].mirror == m && db.runs[id].state.Pending? && !HasDispatched(db, id)
      then db.runs[id].(state := RunCancelled) else db.runs[id]
  }

  predicate WaitsForRetry(attempts: map<Key, Attempt>, runs: map<RunId, Run>, m: Name, id: RunId)
    requires id in runs
  {
    && runs[id].mirror == m && runs[id].state.RunRunning? && runs[id].retryDueAt.Some?
    && Key(id, runs[id].attemptCount) in attempts
  }

  function WithRetriesFinalized(attempts: map<Key, Attempt>, runs: map<RunId, Run>, m: Name): map<RunId, Run> {
    map id | id in runs :: if runs[id].mirror == m then FinalizedRetry(attempts, id, runs[id]) else runs[id]
  }

  lemma SameDispatches(db: Db, other: Db, id: RunId)
    requires other.attempts.Keys == db.attempts.Keys
    requires forall k :: k in db.attempts ==> other.attempts[k].dispatches == db.attempts[k].dispatches
    ensures HasDispatched(other, id) <==> HasDispatched(db, id)
  {
    if HasDispatched(db, id) {
      var k :| k in db.attempts && k.run == id && db.attempts[k].dispatches > 0;
      assert k in other.attempts && other.attempts[k].dispatches > 0;
    }
    if HasDispatched(other, id) {
      var k :| k in other.attempts && k.run == id && other.attempts[k].dispatches > 0;
      assert k in db.attempts && db.attempts[k].dispatches > 0;
    }
  }

  lemma LatestOfRunningIsKept(db: Db, m: Name, id: RunId)
    requires id in db.runs && db.runs[id].state.RunRunning?
    ensures var latest := Key(id, db.runs[id].attemptCount);
            && (latest in WithPendingCancelled(db, m) <==> latest in db.attempts)
            && (latest in db.attempts ==> WithPendingCancelled(db, m)[latest] == db.attempts[latest])
  {
  }

  lemma RunEndedInTwoSteps(db: Db, bundle: Bundle, m: Name, change: ChangeKind, id: RunId)
    requires EndsWaitingRuns(bundle, m, change) && id in db.runs && db.runs[id].mirror == m
    ensures FinalizedRetry(WithPendingCancelled(db, m), id, WithUndispatchedEnded(db, m)[id]) ==
            RunAfterChange(db, bundle, id, change)
  {
    hide EndsWaitingRuns, HasDispatched, WithPendingCancelled;
    if db.runs[id].state.RunRunning? {
      LatestOfRunningIsKept(db, m, id);
    }
  }

  lemma AttemptEndedAtOnce(db: Db, bundle: Bundle, m: Name, change: ChangeKind)
    requires EndsWaitingRuns(bundle, m, change)
    ensures WithPendingCancelled(db, m) == AttemptsAfterOne(db, bundle, m, change)
  {
    hide EndsWaitingRuns;
  }

  /** Cancelling undispatched runs first and finalizing retries after is the combined effect on each run. */
  lemma EndedInTwoSteps(db: Db, bundle: Bundle, m: Name, change: ChangeKind)
    requires EndsWaitingRuns(bundle, m, change)
    ensures WithRetriesFinalized(WithPendingCancelled(db, m), WithUndispatchedEnded(db, m), m) ==
            RunsAfterOne(db, bundle, m, change)
    ensures WithPendingCancelled(db, m) == AttemptsAfterOne(db, bundle, m, change)
  {
    hide EndsWaitingRuns, HasDispatched, FinalizedRetry, RunAfterChange, WithPendingCancelled, AttemptsAfterOne;
    AttemptEndedAtOnce(db, bundle, m, change);
    forall id | id in db.runs && db.runs[id].mirror == m
      ensures FinalizedRetry(WithPendingCancelled(db, m), id, WithUndispatchedEnded(db, m)[id]) ==
              RunAfterChange(db, bundle, id, change)
    {
      RunEndedInTwoSteps(db, bundle, m, change, id);
    }
  }

  lemma EndedInOneStep(db: Db, bundle: Bundle, m: Name, change: ChangeKind)
    requires !EndsWaitingRuns(bundle, m, change)
    ensures change.Move? ==> WithRetriesFinalized(db.attempts, db.runs, m) == RunsAfterOne(db, bundle, m, change)
    ensures !change.Move? ==> db.runs == RunsAfterOne(db, bundle, m, change)
    ensures db.attempts == AttemptsAfterOne(db, bundle, m, change)
  {
    hide EndsWaitingRuns, HasDispatched, FinalizedRetry;
  }

  lemma OnlyRunTablesMatter(db: Db, bundle: Bundle, m: Name, change: ChangeKind)
    ensures forall mirrors: map<Name, Mirror> ::
      RunsAfterOne(db.(mirrors := mirrors), bundle, m, change) == RunsAfterOne(db, bundle, m, change) &&
      AttemptsAfterOne(db.(mirrors := mirrors), bundle, m, change) == AttemptsAfterOne(db, bundle, m, change)
  {
    forall mirrors: map<Name, Mirror>
      ensures RunsAfterOne(db.(mirrors := mirrors), bundle, m, change) == RunsAfterOne(db, bundle, m, change)
      ensures AttemptsAfterOne(db.(mirrors := mirrors), bundle, m, change) == AttemptsAfterOne(db, bundle, m, change)
    {
      MirrorsDoNotMatter(db, mirrors, bundle, m, change);
    }
  }

  lemma AttemptChangesAlike(db: Db, mirrors: map<Name, Mirror>, bundle: Bundle, k: Key, change: ChangeKind)
    requires k in db.attempts && k.run in db.runs
    ensures AttemptAfterChange(db.(mirrors := mirrors), bundle, k, change) == AttemptAfterChange(db, bundle, k, change)
  {
  }

  lemma RunsDoNotNeedMirrors(db: Db, mirrors: map<Name, Mirror>, bundle: Bundle, m: Name, change: ChangeKind)
    ensures RunsAfterOne(db.(mirrors := mirrors), bundle, m, change) == RunsAfterOne(db, bundle, m, change)
  {
    hide RunAfterChange;
    var other := db.(mirrors := mirrors);
    forall id | id in db.runs
      ensures RunAfterChange(other, bundle, id, change) == RunAfterChange(db, bundle, id, change)
    {
      RunChangesAlike(db, other, bundle, id, change);
    }
  }

  lemma AttemptsDoNotNeedMirrors(db: Db, mirrors: map<Name, Mirror>, bundle: Bundle, m: Name, change: ChangeKind)
    ensures AttemptsAfterOne(db.(mirrors := mirrors), bundle, m, change) == AttemptsAfterOne(db, bundle, m, change)
  {
    hide AttemptAfterChange;
    forall k | k in db.attempts && k.run in db.runs
      ensures AttemptAfterChange(db.(mirrors := mirrors), bundle, k, change) ==
        AttemptAfterChange(db, bundle, k, change)
    {
      AttemptChangesAlike(db, mirrors, bundle, k, change);
    }
  }

  lemma MirrorsDoNotMatter(db: Db, mirrors: map<Name, Mirror>, bundle: Bundle, m: Name, change: ChangeKind)
    ensures RunsAfterOne(db.(mirrors := mirrors), bundle, m, change) == RunsAfterOne(db, bundle, m, change)
    ensures AttemptsAfterOne(db.(mirrors := mirrors), bundle, m, change) == AttemptsAfterOne(db, bundle, m, change)
  {
    hide RunsAfterOne, AttemptsAfterOne;
    RunsDoNotNeedMirrors(db, mirrors, bundle, m, change);
    AttemptsDoNotNeedMirrors(db, mirrors, bundle, m, change);
  }

  lemma PlannedRemoval(db: Db, bundle: Bundle, m: Name)
    requires m in Plan(db, bundle)
    ensures PlannedChange(db, bundle, m) == Some(Plan(db, bundle)[m])
    ensures m in db.mirrors || m in bundle
    ensures Plan(db, bundle)[m].Remove? <==> m !in bundle
  {
  }

  /** Whether the current document of a scheduled mirror has a schedule to evaluate. */
  predicate ScheduleResolves(db: Db, m: Name) {
    CurrentDocument(db, m).Some? && CurrentDocument(db, m).value.schedule.Some?
  }

  lemma SameDocuments(db: Db, other: Db, m: Name)
    requires other.mirrors == db.mirrors && other.generations == db.generations
    ensures ScheduleResolves(other, m) <==> ScheduleResolves(db, m)
  {
  }

  lemma UnresolvedTick(db: Db, m: Name, now: int, calendar: Calendar)
    requires m in db.schedules && DueRow(db, m, now) && !ScheduleResolves(db, m)
    ensures !TickResolves(db, now) && AfterTick(db, now, calendar) == db
  {
  }

  lemma ResolvedTick(db: Db, now: int)
    requires forall m :: m in db.schedules && DueRow(db, m, now) ==> ScheduleResolves(db, m)
    ensures TickResolves(db, now)
  {
  }

  lemma AllRowsTicked(db: Db, schedules: map<Name, ScheduleRow>, now: int, calendar: Calendar)
    requires TickResolves(db, now) && schedules.Keys == db.schedules.Keys
    requires forall m :: m in db.schedules ==>
      schedules[m] == if DueRow(db, m, now) then TickedRow(db, m, now, calendar) else db.schedules[m]
    ensures db.(schedules := schedules) == AfterTick(db, now, calendar)
  {
    hide TickedRow, DueRow;
  }

  lemma SameRunsSameActive(db: Db, other: Db, m: Name)
    requires db.runs == other.runs
    ensures HasActiveRun(db, m) <==> HasActiveRun(other, m)
  {
    if HasActiveRun(db, m) {
      var id :| id in db.runs && IsActiveRunOf(db, m, id);
      assert IsActiveRunOf(other, m, id);
    }
    if HasActiveRun(other, m) {
      var id :| id in other.runs && IsActiveRunOf(other, m, id);
      assert IsActiveRunOf(db, m, id);
    }
  }

  class Store {
    var revision: nat
    var mirrors: map<Name, Mirror>
    var generations: map<GenerationKey, Generation>
    var schedules: map<Name, ScheduleRow>
    var runs: map<RunId, Run>
    var attempts: map<Key, Attempt>

    function View(): Db
      reads this
    {
      Db(revision, mirrors, generations, schedules, runs, attempts)
    }

    constructor ()
      ensures View() == EMPTY_DB
      ensures RunsInv(View())
    {
      revision := 0;
      mirrors := map[];
      generations := map[];
      schedules := map[];
      runs := map[];
      attempts := map[];
    }

    method CreateManualRun(m: Name, request: string, newId: RunId, now: int)
      returns (prior: Option<RunId>, outcome: ManualOutcome)
      requires RunsInv(View()) && newId !in runs
      modifies this
      ensures prior.Some? ==> IsRunOfRequest(old(View()), request, prior.value)
      ensures prior.None? ==> forall id :: id in old(runs) ==> !IsRunOfRequest(old(View()), request, id)
      ensures outcome == ManualResult(old(View()), m, prior, newId)
      ensures View() == AfterManual(old(View()), m, request, prior, newId, now)
      ensures RunsInv(View())
    {
      ghost var before := View();
      prior := None;
      if exists id :: id in runs && IsRunOfRequest(View(), request, id) {
        var id :| id in runs && IsRunOfRequest(View(), request, id);
        prior := Some(id);
        outcome := if runs[id].mirror == m then Existing(id) else RequestConflict;
        return;
      }
      var document := CurrentDocument(View(), m);
      if document.None? {
        outcome := MirrorNotFound;
      } else if !mirrors[m].managed || !mirrors[m].enabled {
        outcome := MirrorIneligible;
      } else if HasActiveRun(View(), m) {
        outcome := MirrorBusy;
      } else {
        var policy := document.value;
        runs := runs[newId := Run(m, mirrors[m].generation, mirrors[m].owner, Manual, Pending, now, policy.maxAttempts,
                                  policy.retryDelaySeconds * 1000, 0, None, None, None, Some(request))];
        schedules := ClearIntent(schedules, m);
        outcome := Created(newId);
        ManualKeepsRuns(before, m, request, prior, newId, now);
      }
    }

    /** The rows a dispatch writes; `false` when there is nothing to send and the caller must roll back. */
    method Persist(id: RunId, no: nat, atomicReady: bool, now: int) returns (sent: bool, spec: Spec)
      requires id in runs
      modifies this
      ensures sent == Dispatchable(old(View()), id, no, atomicReady)
      ensures sent ==>
        && View() == PersistDispatch(old(View()), id, no, RunDocument(old(View()), id).value, now)
        && spec == Spec(Key(id, no), old(runs[id].mirror), RunDocument(old(View()), id).value)
      ensures !sent ==> View() == old(View())
    {
      var document := RunDocument(View(), id);
      spec := Spec(Key(id, no), runs[id].mirror, Document(false, None, Direct, 0, 0, ""));
      sent := document.Some? && (document.value.mode.Direct? || atomicReady) && Key(id, no) !in attempts;
      if sent {
        spec := Spec(Key(id, no), runs[id].mirror, document.value);
        if runs[id].trigger.Scheduled? {
          runs := runs[id := runs[id].(maxAttempts := document.value.maxAttempts,
                                       retryDelayMs := document.value.retryDelaySeconds * 1000)];
        }
        attempts := attempts[Key(id, no) := Attempt(Queued, 0, spec, 1, now)];
        runs := runs[id := runs[id].(attemptCount := no, retryDueAt := None)];
      }
    }

    method Select(node: Name, now: int, capacity: bool, newId: RunId) returns (choice: PollChoice)
      requires newId !in runs
      ensures PollPicks(View(), node, now, capacity, choice)
    {
      var db := View();
      if AnyCancel(db, node) {
        var k :| k in attempts && CancelCandidate(db, node, k);
        choice := DeliverCancel(k);
      } else if AnyRedelivery(db, node) {
        var k :| k in attempts && RedeliveryCandidate(db, node, k);
        choice := Redeliver(k);
      } else if !capacity {
        choice := NoCapacity;
      } else if AnyManual(db, node) {
        var id :| id in runs && ManualCandidate(db, node, id);
        choice := StartManual(id);
      } else if AnyRetry(db, node, now) {
        var id :| id in runs && RetryCandidate(db, node, now, id);
        choice := StartRetry(id);
      } else if AnyScheduled(db, node) {
        var m :| m in schedules && ScheduledCandidate(db, node, m);
        choice := StartScheduled(m, newId);
      } else {
        choice := NothingDue;
      }
    }

    /** Materializes the scheduled run and dispatches it, or leaves every table as it was. */
    method StartDue(m: Name, id: RunId, atomicReady: bool, now: int) returns (action: Option<PollAction>)
      requires m in mirrors && m in schedules
      modifies this
      ensures PollResult(View(), action) ==
              Dispatch(old(View()), Materialize(old(View()), m, id, now), id, 1, atomicReady, now)
    {
      var savedRuns, savedSchedules := runs, schedules;
      action := None;
      runs := runs[id := Run(m, mirrors[m].generation, mirrors[m].owner, Scheduled, Pending, now, 1, 0, 0,
                             schedules[m].runtime.catchUpSince, None, None, None)];
      schedules := ClearIntent(schedules, m);
      var sent, spec := Persist(id, 1, atomicReady, now);
      if sent {
        action := Some(StartAttempt(Key(id, 1), spec.mirror, spec));
      } else {
        runs, schedules := savedRuns, savedSchedules;
      }
    }

    method StartNext(id: RunId, no: nat, atomicReady: bool, now: int) returns (action: Option<PollAction>)
      requires id in runs
      modifies this
      ensures PollResult(View(), action) == Dispatch(old(View()), old(View()), id, no, atomicReady, now)
    {
      action := None;
      var sent, spec := Persist(id, no, atomicReady, now);
      if sent {
        action := Some(StartAttempt(Key(id, no), spec.mirror, spec));
      }
    }

    /** Commits the chosen row's action. */
    method Act(node: Name, now: int, capacity: bool, atomicReady: bool, choice: PollChoice)
      returns (action: Option<PollAction>)
      requires PollPicks(View(), node, now, capacity, choice)
      modifies this
      ensures PollResult(View(), action) == Poll(old(View()), node, now, capacity, atomicReady, choice)
    {
      hide Dispatch, AnyCancel, AnyRedelivery, AnyManual, AnyRetry, AnyScheduled;
      action := None;
      match choice {
        case DeliverCancel(k) =>
          action := Some(CancelAttempt(k, attempts[k].spec));
        case Redeliver(k) =>
          attempts := attempts[k := attempts[k].(dispatches := attempts[k].dispatches + 1, lastDispatchAt := now)];
          action := Some(StartAttempt(k, runs[k.run].mirror, attempts[k].spec));
        case StartManual(id) => action := StartNext(id, 1, atomicReady, now);
        case StartRetry(id) => action := StartNext(id, runs[id].attemptCount + 1, atomicReady, now);
        case StartScheduled(m, id) => action := StartDue(m, id, atomicReady, now);
        case _ =>
      }
    }

    method PollAction(node: Name, now: int, capacity: bool, atomicReady: bool, newId: RunId)
      returns (choice: PollChoice, action: Option<PollAction>)
      requires RunsInv(View()) && newId !in runs
      modifies this
      ensures PollPicks(old(View()), node, now, capacity, choice)
      ensures PollResult(View(), action) == Poll(old(View()), node, now, capacity, atomicReady, choice)
      ensures RunsInv(View())
    {
      hide RunsInv, PollPicks, Poll;
      ghost var before := View();
      choice := Select(node, now, capacity, newId);
      PollKeepsRuns(before, node, now, capacity, atomicReady, choice);
      action := Act(node, now, capacity, atomicReady, choice);
    }

    /** Persists the request, and ends the run at once unless its latest attempt is out; an unknown run is an error. */
    method RequestCancellation(id: RunId, now: int, calendar: Calendar) returns (outcome: CancellationOutcome)
      requires RunsInv(View())
      modifies this
      ensures View() == AfterCancelRequest(old(View()), id, now, calendar)
      ensures outcome.UnknownRun? <==> id !in old(runs)
      ensures outcome.RunKnown? ==> id in runs && outcome.run == runs[id]
      ensures outcome.RunKnown? ==>
        (outcome.newlyRequested <==> old(runs[id]).state.IsActive() && old(runs[id]).cancelAt.None?)
      ensures RunsInv(View())
    {
      hide RunsInv, AfterCancelRequest;
      CancelRequestKeepsRuns(View(), id, now, calendar);
      outcome := CommitCancellation(id, now, calendar);
    }

    method CommitCancellation(id: RunId, now: int, calendar: Calendar) returns (outcome: CancellationOutcome)
      modifies this
      ensures View() == AfterCancelRequest(old(View()), id, now, calendar)
      ensures outcome.UnknownRun? <==> id !in old(runs)
      ensures outcome.RunKnown? ==> id in runs && outcome.run == runs[id]
      ensures outcome.RunKnown? ==>
        (outcome.newlyRequested <==> old(runs[id]).state.IsActive() && old(runs[id]).cancelAt.None?)
    {
      hide TerminalRearm, ArmWith, CancelUndispatchedAttempts, LiveAttempt;
      if id !in runs {
        return UnknownRun;
      }
      var r := runs[id];
      if r.state.IsTerminal() {
        return RunKnown(r, false);
      }
      var newlyRequested := r.cancelAt.None?;
      var out := Dispatched(View(), id);
      var next := TerminalRearm(View(), r, now, calendar);
      if newlyRequested {
        runs := runs[id := runs[id].(cancelAt := Some(now))];
      }
      if !out {
        attempts := CancelUndispatchedAttempts(attempts, id);
        runs := runs[id := runs[id].(state := RunCancelled, retryDueAt := None)];
        schedules := ArmWith(schedules, r.mirror, next, now);
      }
      outcome := RunKnown(runs[id], newlyRequested);
    }

    /**
      An event is refused, ignored or applied whole. It leaves every run in sight exactly
      unless it repeats, under a new number, the end of an attempt already succeeded by another.
     */
    method ApplyEvent(key: Key, event: AttemptEvent, now: int, calendar: Calendar) returns (outcome: EventOutcome)
      requires RunsInv(View())
      modifies this
      ensures outcome == EventResult(old(View()), key, event, now)
      ensures View() == AfterEvent(old(View()), key, event, now, calendar)
      ensures RunsInv(View()) <==> !RepeatsOldOutcome(old(View()), key, event, now)
    {
      hide RunsInv, RepeatsOldOutcome, AfterEvent, EventResult;
      EventKeepsRunsExactly(View(), key, event, now, calendar);
      outcome := CommitEvent(key, event, now, calendar);
    }

    method CommitEvent(key: Key, event: AttemptEvent, now: int, calendar: Calendar) returns (outcome: EventOutcome)
      modifies this
      ensures outcome == EventResult(old(View()), key, event, now)
      ensures View() == AfterEvent(old(View()), key, event, now, calendar)
    {
      hide TerminalRearm, ArmWith, DecideRetry, RetryContextOf;
      var db := View();
      if !EventResolves(db, key) {
        return Missing;
      }
      var a := attempts[key];
      if event.sequence <= a.lastSequence {
        return Stale;
      }
      var projection := ProjectAttemptEvent(a.state, event);
      if projection.Refused? {
        return Illegal;
      }
      outcome := Applied(false);
      attempts := attempts[key := a.(state := event.state, lastSequence := event.sequence)];
      var r := runs[key.run];
      if projection.RunStarts? {
        if r.state.Pending? {
          runs := runs[key.run := r.(state := RunRunning)];
        }
      } else if projection.RunOutcome? {
        var decision := DecideRetry(RetryContextOf(db, key, event.state, now));
        match decision {
          case ScheduleRetry(dueAt) =>
            outcome := Applied(true);
            if r.state.IsActive() {
              runs := runs[key.run := r.(state := RunRunning, retryDueAt := Some(dueAt))];
            }
          case Final(state) =>
            if r.state.IsActive() {
              runs := runs[key.run := r.(state := state, retryDueAt := None)];
            }
            schedules := ArmWith(schedules, r.mirror, TerminalRearm(db, r, now, calendar), now);
        }
      }
    }

    /** Evaluates the due rows one after another; a due row without a schedule rolls the whole tick back. */
    method EvaluateDueSchedules(now: int, calendar: Calendar) returns (evaluated: Option<nat>)
      requires RunsInv(View())
      modifies this
      ensures View() == AfterTick(old(View()), now, calendar)
      ensures evaluated.Some? <==> TickResolves(old(View()), now)
      ensures evaluated.Some? ==> evaluated.value == |set m | m in old(schedules) && DueRow(old(View()), m, now)|
      ensures RunsInv(View())
    {
      hide RunsInv, AfterTick, DueRow, TickResolves;
      TickKeepsRuns(View(), now, calendar);
      evaluated := EvaluateRows(now, calendar);
    }

    method EvaluateRow(ghost before: Db, m: Name, now: int, calendar: Calendar)
      requires m in before.schedules && DueRow(before, m, now) && ScheduleResolves(before, m)
      requires View() == before.(schedules := schedules) && m in schedules && schedules[m] == before.schedules[m]
      modifies `schedules
      ensures schedules == old(schedules)[m := TickedRow(before, m, now, calendar)]
    {
      hide EvaluateScheduleDue, HasActiveRun;
      SameRunsSameActive(before, View(), m);
      var config := CurrentDocument(View(), m).value.schedule.value;
      var evaluation := EvaluateScheduleDue(config, schedules[m].runtime, now, HasActiveRun(View(), m), calendar);
      schedules := schedules[m := schedules[m].(runtime := evaluation.runtime)];
    }

    method EvaluateRows(now: int, calendar: Calendar) returns (evaluated: Option<nat>)
      modifies this
      ensures View() == AfterTick(old(View()), now, calendar)
      ensures evaluated.Some? <==> TickResolves(old(View()), now)
      ensures evaluated.Some? ==> evaluated.value == |set m | m in old(schedules) && DueRow(old(View()), m, now)|
    {
      hide TickedRow, DueRow, AfterTick, CurrentDocument, TickResolves;
      ghost var before := View();
      var saved := schedules;
      var sources := set m | m in schedules && DueRow(View(), m, now);
      var due := sources;
      while sources != {}
        invariant due == set m | m in before.schedules && DueRow(before, m, now)
        invariant sources <= due && View() == before.(schedules := schedules)
        invariant schedules.Keys == before.schedules.Keys
        invariant forall m :: m in due && m !in sources ==> ScheduleResolves(before, m)
        invariant forall m :: m in before.schedules && (m !in due || m in sources) ==>
          schedules[m] == before.schedules[m]
        invariant forall m :: m in due && m !in sources ==>
          DueRow(before, m, now) && schedules[m] == TickedRow(before, m, now, calendar)
        decreases |sources|
      {
        var m :| m in sources;
        SameDocuments(before, View(), m);
        if !ScheduleResolves(View(), m) {
          UnresolvedTick(before, m, now, calendar);
          schedules := saved;
          return None;
        }
        EvaluateRow(before, m, now, calendar);
        sources := sources - {m};
      }
      assert forall m :: m in before.schedules && DueRow(before, m, now) ==> m in due;
      ResolvedTick(before, now);
      AllRowsTicked(before, schedules, now, calendar);
      evaluated := Some(|due|);
    }

    /** Ends, in two statements, the pending runs of a mirror that were never dispatched. */
    method CancelUndispatchedPending(m: Name)
      modifies `attempts, `runs
      ensures attempts == WithPendingCancelled(old(View()), m)
      ensures runs == WithUndispatchedEnded(old(View()), m)
    {
      ghost var before := View();
      attempts := map k | k in attempts ::
        if k.run in runs && runs[k.run].mirror == m && runs[k.run].state.Pending?
           && attempts[k].dispatches == 0 && attempts[k].state.Queued?
        then attempts[k].(state := Cancelled) else attempts[k];
      forall id ensures HasDispatched(View(), id) <==> HasDispatched(before, id) {
        SameDispatches(before, View(), id);
      }
      runs := map id | id in runs ::
        if runs[id].mirror == m && runs[id].state.Pending? && !HasDispatched(View(), id)
        then runs[id].(state := RunCancelled) else runs[id];
    }

    /** Ends the runs of a mirror that wait for a retry, one after another. */
    method FinalizeIneligibleRetries(m: Name)
      modifies `runs
      ensures runs == WithRetriesFinalized(old(attempts), old(runs), m)
    {
      ghost var before := runs;
      var waiting: set<RunId> := set id: RunId | id in runs && WaitsForRetry(attempts, runs, m, id);
      while waiting != {}
        invariant runs.Keys == before.Keys && attempts == old(attempts)
        invariant forall id: RunId :: id in waiting ==> id in before && WaitsForRetry(attempts, before, m, id)
        invariant forall id :: id in before ==>
          runs[id] == if id in waiting then before[id] else WithRetriesFinalized(attempts, before, m)[id]
        decreases |waiting|
      {
        var id: RunId :| id in waiting;
        var outcome := attempts[Key(id, runs[id].attemptCount)].state;
        var state := if outcome.TimedOut? then RunTimedOut else RunFailed;
        runs := runs[id := runs[id].(state := state, retryDueAt := None)];
        waiting := waiting - {id};
      }
      assert runs == WithRetriesFinalized(attempts, before, m);
    }

    method EndRuns(m: Name, bundle: Bundle, change: ChangeKind)
      modifies `attempts, `runs
      ensures runs == RunsAfterOne(old(View()), bundle, m, change)
      ensures attempts == AttemptsAfterOne(old(View()), bundle, m, change)
    {
      ghost var before := View();
      if change.Remove? || (m in bundle && !bundle[m].document.enabled) {
        CancelUndispatchedPending(m);
        FinalizeIneligibleRetries(m);
        EndedInTwoSteps(before, bundle, m, change);
      } else if change.Move? {
        FinalizeIneligibleRetries(m);
        EndedInOneStep(before, bundle, m, change);
      } else {
        EndedInOneStep(before, bundle, m, change);
      }
    }

    method ChangeMirror(bundle: Bundle, m: Name, change: ChangeKind, now: int, calendar: Calendar)
      requires m in mirrors || m in bundle
      requires change.Remove? <==> m !in bundle
      modifies `mirrors, `generations, `schedules, `runs, `attempts
      ensures View() == AfterOneChange(old(View()), bundle, m, change, now, calendar)
    {
      hide RunsAfterOne, AttemptsAfterOne, ScheduleAfterChange;
      var before := View();
      if m !in bundle {
        mirrors := mirrors[m := mirrors[m].(managed := false)];
        EndRuns(m, bundle, change);
        schedules := Without(schedules, m);
      } else {
        var next := bundle[m];
        var generation := NextGeneration(before, m);
        mirrors := mirrors[m := Mirror(true, next.document.enabled, next.owner, generation)];
        EndRuns(m, bundle, change);
        generations := generations[GenerationKey(m, generation) := Generation(next.owner, next.document)];
        var row := ScheduleAfterChange(before, m, next, change, now, calendar);
        schedules := if row.Some? then schedules[m := row.value] else Without(schedules, m);
      }
      assert runs == RunsAfterOne(before, bundle, m, change)
        && attempts == AttemptsAfterOne(before, bundle, m, change) by {
        OnlyRunTablesMatter(before, bundle, m, change);
      }
    }

    /** Applies the planned changes one mirror at a time, in any order, or refuses the bundle whole. */
    method Apply(bundle: Bundle, base: nat, now: int, calendar: Calendar) returns (outcome: ApplyOutcome)
      requires RunsInv(View()) && ValidBundle(bundle)
      modifies this
      ensures outcome == ApplyResult(old(View()), bundle, base)
      ensures View() == AfterApply(old(View()), bundle, base, now, calendar)
      ensures RunsInv(View())
    {
      hide RunsInv, AfterApply, ApplyResult, ValidBundle;
      ApplyKeepsRuns(View(), bundle, base, now, calendar);
      outcome := CommitBundle(bundle, base, now, calendar);
    }

    method CommitBundle(bundle: Bundle, base: nat, now: int, calendar: Calendar) returns (outcome: ApplyOutcome)
      modifies this
      ensures outcome == ApplyResult(old(View()), bundle, base)
      ensures View() == AfterApply(old(View()), bundle, base, now, calendar)
    {
      hide ApplyChanges, Blocked, Plan;
      if revision != base {
        return RevisionConflict;
      }
      if Blocked(View(), bundle) {
        return ConfigBusy;
      }
      CommitPlan(bundle, now, calendar);
      outcome := ConfigApplied;
    }

    method ChangePlanned(
      ghost before: Db, bundle: Bundle, ghost done: set<Name>, m: Name, change: ChangeKind, now: int,
        calendar: Calendar)
      requires View() == ApplyChanges(before, bundle, done, now, calendar)
      requires m in Plan(before, bundle) && change == Plan(before, bundle)[m] && m !in done
      modifies `mirrors, `generations, `schedules, `runs, `attempts
      ensures View() == ApplyChanges(before, bundle, done + {m}, now, calendar)
    {
      hide ApplyChanges, AfterOneChange, PlannedChange, Plan;
      PlannedRemoval(before, bundle, m);
      OneMoreChange(before, bundle, done, m, change, now, calendar);
      ChangeMirror(bundle, m, change, now, calendar);
    }

    method CommitPlan(bundle: Bundle, now: int, calendar: Calendar)
      modifies this
      ensures View() == ApplyChanges(old(View()), bundle, Plan(old(View()), bundle).Keys, now, calendar)
    {
      hide ApplyChanges, Plan;
      ghost var before := View();
      var plan := Plan(View(), bundle);
      NoChangesYet(before, bundle, now, calendar);
      revision := revision + 1;
      ChangeAll(before, bundle, plan, now, calendar);
    }

    method ChangeAll(ghost before: Db, bundle: Bundle, plan: map<Name, ChangeKind>, now: int, calendar: Calendar)
      requires plan == Plan(before, bundle) && View() == ApplyChanges(before, bundle, {}, now, calendar)
      modifies `mirrors, `generations, `schedules, `runs, `attempts
      ensures View() == ApplyChanges(before, bundle, plan.Keys, now, calendar)
    {
      hide ApplyChanges, Plan;
      var todo := plan.Keys;
      ghost var done: set<Name> := {};
      while todo != {}
        invariant done + todo == plan.Keys && done !! todo
        invariant View() == ApplyChanges(before, bundle, done, now, calendar)
        decreases |todo|
      {
        var m :| m in todo;
        ChangePlanned(before, bundle, done, m, plan[m], now, calendar);
        todo := todo - {m};
        done := done + {m};
      }
      assert done == plan.Keys;
    }

    /** An offline restore: three statements close every open attempt and run. */
    method NormalizeRestored()
      requires RunsInv(View())
      modifies this
      ensures View() == AfterRestore(old(View()))
      ensures RunsInv(View())
      ensures forall id :: id in runs ==> runs[id].state.IsTerminal()
    {
      hide RunsInv, AfterRestore;
      RestoreKeepsRuns(View());
      RestoreKeepsKeys(View());
      CloseEverything();
    }

    method CloseEverything()
      modifies this
      ensures View() == AfterRestore(old(View()))
    {
      hide HasDispatched, AfterRestore, WithState, NeverDispatched;
      ghost var before := View();
      attempts := map k | k in attempts ::
        if attempts[k].state.IsTerminal() then attempts[k] else attempts[k].(state := Interrupted);
      ghost var closed := View();
      CloseRuns();
      forall id | id in before.runs ensures ClosedRun(closed, id) == ClosedRun(before, id) {
        ClosedAlike(before, closed, id);
      }
      RestoredTables(before);
    }

    /** Two statements: pending runs without a dispatch are cancelled, every other active run fails. */
    method CloseRuns()
      modifies `runs
      ensures runs == map id | id in old(runs) :: ClosedRun(old(View()), id)
    {
      hide HasDispatched;
      runs := map id | id in runs ::
        if NeverDispatched(View(), id) then WithState(runs[id], RunCancelled) else runs[id];
      runs := map id | id in runs :: if runs[id].state.IsActive() then WithState(runs[id], RunFailed) else runs[id];
    }
  }
}
