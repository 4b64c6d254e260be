/**
  What a caller of the store may rely on: how a run ends, when it is retried, in which
  order a poll serves, that a request names one run, and that a cancellation lasts.
 */
module StoreOutcomes {
  import opened Common
  import opened Lifecycle
  import opened Schedule
  import opened StoreModel
  import opened StoreRuns
  import opened StoreApply
  import opened StoreHistory

  // How a run ends

  function LatestState(db: Db, id: RunId): Option<AttemptState>
    requires id in db.runs
  {
    var k := LatestKey(db, id);
    if k in db.attempts then Some(db.attempts[k].state) else None
  }

  /** What the end of a run says of its latest attempt. */
  predicate EndIsHonest(r: Run, latest: Option<AttemptState>) {
    && (r.state.RunSucceeded? <==> latest == Some(Succeeded))
    && (r.state.RunTimedOut? ==> latest == Some(TimedOut))
    && (r.state.RunFailed? ==> latest.Some? && (latest.value.IsRetryable() || latest.value.Rejected?))
    && (latest == Some(Cancelled) ==> r.state.RunCancelled?)
    && (r.state.RunCancelled? && latest.Some? ==>
          latest.value.Cancelled? || (latest.value.IsRetryable() && r.cancelAt.Some?))
  }

  lemma EndTellsOutcome(db: Db, id: RunId)
    requires RunsInv(db) && id in db.runs && db.runs[id].state.IsTerminal()
    ensures EndIsHonest(db.runs[id], LatestState(db, id))
  {
    hide MirrorsOk, OneActive, KeyOk;
    assert RunOk(db, id);
    NumbersBeginAtOne(db, id);
  }

  /** A run succeeded if and only if its latest attempt did, and the other ends never hide what became of it. */
  lemma EveryEndTellsOutcome(db: Db, txns: seq<Txn>, after: Db, calendar: Calendar, id: RunId)
    requires RunsInv(db) && History(db, txns, after, calendar)
    requires id in after.runs && after.runs[id].state.IsTerminal()
    ensures EndIsHonest(after.runs[id], LatestState(after, id))
  {
    hide RunsInv, History, EndIsHonest;
    NoOrphanedRunEver(db, txns, after, calendar);
    EndTellsOutcome(after, id);
  }

  /** Whether the end of its latest attempt leaves the run another one. */
  predicate HasAnotherAttempt(db: Db, id: RunId, outcome: AttemptState)
    requires id in db.runs
  {
    var r := db.runs[id];
    && (outcome.Failed? || outcome.TimedOut? || outcome.Interrupted?)
    && r.cancelAt.None? && OwnerHolds(db, r) && r.attemptCount < r.maxAttempts
  }

  function Earlier(a: int, b: int): int {
    if a < b then a else b
  }

  /**
    The end of an open attempt: the run waits exactly if it has another attempt, until its
    delay has passed, and otherwise ends as the attempt did.
   */
  lemma OutcomeDecides(db: Db, key: Key, event: AttemptEvent, now: int, calendar: Calendar)
    requires RunsInv(db) && EventResult(db, key, event, now).Applied?
    requires !db.attempts[key].state.IsTerminal() && event.state.IsTerminal()
    ensures var after := AfterEvent(db, key, event, now, calendar);
            var retried := HasAnotherAttempt(db, key.run, event.state);
            && key.run in after.runs && RunDocument(db, key.run).Some?
            && EventResult(db, key, event, now) == Applied(retried)
            && (retried ==>
                  && ViewOf(after, key.run).AwaitsRetry()
                  && after.runs[key.run].retryDueAt ==
                     Some(Earlier(MAX_I64, now + RunDocument(db, key.run).value.retryDelaySeconds * 1000)))
            && (!retried ==>
                  && after.runs[key.run].state.IsTerminal() && after.runs[key.run].retryDueAt.None?
                  && (after.runs[key.run].state.RunSucceeded? <==> event.state.Succeeded?)
                  && (after.runs[key.run].state.RunTimedOut? <==> event.state.TimedOut?)
                  && (after.runs[key.run].state.RunCancelled? <==> event.state.Cancelled?))
  {
    hide AfterEvent, RunsInv, NumbersDense, KeyOk, CurrentDocument;
    EventTarget(db, key);
    AppliedEventRows(db, key, event, now, calendar);
    DelayIsShort(db, key.run);
    var after := AfterEvent(db, key, event, now, calendar);
    assert RunDocument(after, key.run) == RunDocument(db, key.run);
  }

  lemma DelayIsShort(db: Db, id: RunId)
    requires RunsInv(db) && id in db.runs
    ensures RunDocument(db, id).Some? && RunDocument(db, id).value.retryDelaySeconds <= 86400
  {
    hide OneActive, KeyOk;
    assert RunOk(db, id);
  }

  /**
    A configuration change ends exactly the waiting runs of the mirrors it removes or disables:
    cancelled before a first attempt, and as their latest attempt says before another.
   */
  lemma ApplyEndsWaitingRuns(db: Db, bundle: Bundle, base: nat, now: int, calendar: Calendar, id: RunId)
    requires RunsInv(db) && ApplyResult(db, bundle, base).ConfigApplied?
    requires id in db.runs
    ensures var after, r, v := AfterApply(db, bundle, base, now, calendar), db.runs[id], ViewOf(db, id);
            && id in after.runs
            && if v.Ended() || v.AttemptOut() || (r.mirror in bundle && bundle[r.mirror].document.enabled)
               then after.runs[id] == r
               else
                 after.runs[id] == r.(retryDueAt := None, state :=
                   if v.AwaitsFirstAttempt() then RunCancelled
                   else if LatestState(db, id) == Some(TimedOut) then RunTimedOut else RunFailed)
  {
    hide AfterApply, Reconfigured, HighImpact, Blocked, MirrorsOk, OneActive, KeyOk, HasDispatched;
    assert RunOk(db, id);
    ApplyIsReconfigured(db, bundle, base, now, calendar);
    ReconfiguredRun(db, bundle, id, now, calendar);
    WaitingRunHasNoDispatch(db, id);
    AppliedIsNotBlocked(db, bundle, base);
    ValidMirrorDocument(db, db.runs[id].mirror);
    if db.runs[id].state.IsActive() {
      ActiveRunIsNotMoved(db, bundle, id);
    }
  }

  lemma ValidMirrorDocument(db: Db, m: Name)
    requires RunsInv(db) && m in db.mirrors
    ensures CurrentDocument(db, m).Some? && CurrentDocument(db, m).value.enabled == db.mirrors[m].enabled
  {
    hide OneActive, RunOk, KeyOk;
    ValidCurrentDocument(db, m);
  }

  /** A restore interrupts every open attempt, cancels a run before its first and fails every other one. */
  lemma RestoreClosesExactly(db: Db, id: RunId)
    requires RunsInv(db) && id in db.runs
    ensures var after, r, v := AfterRestore(db), db.runs[id], ViewOf(db, id);
            && id in after.runs
            && after.runs[id] == (if v.Ended() then r
                                  else r.(retryDueAt := None,
                                          state := if v.AwaitsFirstAttempt() then RunCancelled else RunFailed))
    ensures forall k :: k in db.attempts ==>
              && k in AfterRestore(db).attempts
              && AfterRestore(db).attempts[k] == if db.attempts[k].state.IsTerminal() then db.attempts[k]
                                                 else db.attempts[k].(state := Interrupted)
  {
    hide HasDispatched, MirrorsOk, OneActive, KeyOk;
    assert RunOk(db, id);
    WaitingRunHasNoDispatch(db, id);
  }

  // What a poll serves

  /**
    A poll delivers a cancellation if one waits, then sends again what was not heard of,
    both whatever the capacity; without capacity nothing new starts, and with it a manual
    run goes before a retry and a retry before a due schedule.
   */
  lemma PollOrder(db: Db, node: Name, now: int, capacity: bool, atomicReady: bool, choice: PollChoice)
    requires PollPicks(db, node, now, capacity, choice)
    ensures var result := Poll(db, node, now, capacity, atomicReady, choice);
            var action := result.action;
            if exists k :: k in db.attempts && CancelCandidate(db, node, k) then
              && action.Some? && action.value.CancelAttempt? && CancelCandidate(db, node, action.value.key)
              && action.value.spec == db.attempts[action.value.key].spec && result.db == db
            else if exists k :: k in db.attempts && RedeliveryCandidate(db, node, k) then
              && action.Some? && action.value.StartAttempt? && RedeliveryCandidate(db, node, action.value.key)
              && action.value.spec == db.attempts[action.value.key].spec && result.db.runs == db.runs
            else if !capacity then action.None? && result.db == db
            else action.Some? ==> action.value.StartAttempt? && action.value.key !in db.attempts
                                  && StartsFirst(db, node, now, action.value.key.run)
  {
    hide PersistDispatch;
  }

  /** Whether the run is of the first kind that has a candidate. */
  ghost predicate StartsFirst(db: Db, node: Name, now: int, id: RunId) {
    if exists j :: j in db.runs && ManualCandidate(db, node, j) then ManualCandidate(db, node, id)
    else if exists j :: j in db.runs && RetryCandidate(db, node, now, j) then RetryCandidate(db, node, now, id)
    else id !in db.runs
  }

  /** What is chosen to start does, unless its document is Atomic and the agent cannot publish it. */
  lemma ChosenRunStarts(db: Db, node: Name, now: int, atomicReady: bool, choice: PollChoice)
    requires RunsInv(db) && PollPicks(db, node, now, true, choice)
    requires choice.StartManual? || choice.StartRetry?
    ensures var result, id := Poll(db, node, now, true, atomicReady, choice), choice.id;
            && RunDocument(db, id).Some?
            && var document, k := RunDocument(db, id).value, Key(id, db.runs[id].attemptCount + 1);
               if document.mode.Direct? || atomicReady then
                 && result.action == Some(StartAttempt(k, db.runs[id].mirror, Spec(k, db.runs[id].mirror, document)))
                 && id in result.db.runs && LatestKey(result.db, id) == k && ViewOf(result.db, id).AttemptOut()
               else result == PollResult(db, None)
  {
    hide MirrorsOk, OneActive, RunOk, KeyOk, AnyCancel, AnyRedelivery, AnyManual, AnyRetry, AnyScheduled;
    RunHasDocument(db, choice.id);
    if choice.StartManual? {
      FirstAttempts(db, node, choice.id);
    } else {
      LaterAttempts(db, node, now, choice.id);
    }
    NextAttemptIsNew(db, choice.id);
  }

  lemma FirstAttempts(db: Db, node: Name, id: RunId)
    requires RunsInv(db) && ManualCandidate(db, node, id)
    ensures db.runs[id].attemptCount == 0
  {
    ManualCandidateAwaitsFirst(db, node, id);
  }

  lemma LaterAttempts(db: Db, node: Name, now: int, id: RunId)
    requires RunsInv(db) && RetryCandidate(db, node, now, id)
    ensures db.runs[id].attemptCount >= 1
  {
    RetryCandidateAwaitsRetry(db, node, now, id);
  }

  lemma RunHasDocument(db: Db, id: RunId)
    requires RunsInv(db) && id in db.runs
    ensures RunDocument(db, id).Some?
  {
    assert RunOk(db, id);
  }

  lemma NextAttemptIsNew(db: Db, id: RunId)
    requires RunsInv(db) && id in db.runs
    ensures Key(id, db.runs[id].attemptCount + 1) !in db.attempts
  {
    var k := Key(id, db.runs[id].attemptCount + 1);
    assert k in db.attempts ==> KeyOk(db, k);
  }

  /** A due mirror's run is created for its intent, under its current document, and starts, or nothing changes. */
  lemma DueRunStarts(db: Db, node: Name, now: int, atomicReady: bool, m: Name, newId: RunId)
    requires RunsInv(db) && PollPicks(db, node, now, true, StartScheduled(m, newId))
    ensures var result := Poll(db, node, now, true, atomicReady, StartScheduled(m, newId));
            && CurrentDocument(db, m).Some?
            && var document, k := CurrentDocument(db, m).value, Key(newId, 1);
               if document.mode.Direct? || atomicReady then
                 && result.action == Some(StartAttempt(k, m, Spec(k, m, document)))
                 && newId in result.db.runs && ViewOf(result.db, newId).AttemptOut()
                 && result.db.runs[newId].scheduledFor == db.schedules[m].runtime.catchUpSince
                 && m in result.db.schedules && !result.db.schedules[m].runtime.catchUpPending
               else result == PollResult(db, None)
  {
    hide OneActive, RunOk, KeyOk, AnyCancel, AnyRedelivery, AnyManual, AnyRetry, AnyScheduled, HasActiveRun;
    ValidCurrentDocument(db, m);
    NewRunHasNoAttempts(db, newId);
  }

  // Requests

  ghost predicate OneRunPerRequest(db: Db) {
    forall i, j | i in db.runs && j in db.runs && db.runs[i].request.Some? ::
      db.runs[i].request == db.runs[j].request ==> i == j
  }

  /** The runs after a transaction that are new carry no request but that of a new manual run. */
  lemma NewRunsOfTxn(db: Db, txn: Txn, calendar: Calendar, id: RunId)
    requires WellPosed(db, txn) && id in Commit(db, txn, calendar).runs && id !in db.runs
    ensures Commit(db, txn, calendar).runs[id].request.Some? ==>
      && txn.ManualTxn? && id == txn.newId && txn.prior.None?
      && Commit(db, txn, calendar).runs[id].request == Some(txn.request)
  {
    hide PollPicks, Poll, AfterEvent, AfterApply, ValidBundle, TickResolves, DueRow, TickedRow, HasDispatched,
         TerminalRearm, ArmWith, Dispatched, CancelUndispatchedAttempts, HasActiveRun;
    match txn
    case PollTxn(node, now, capacity, atomicReady, choice) =>
      PolledRunsCarryNoRequest(db, node, now, capacity, atomicReady, choice, id);
    case EventTxn(key, event, now) => EventedRunKeys(db, key, event, now, calendar);
    case ApplyTxn(bundle, base, now) => AppliedRunKeys(db, bundle, base, now, calendar);
    case _ =>
  }

  lemma PolledRunsCarryNoRequest(
    db: Db, node: Name, now: int, capacity: bool, atomicReady: bool, choice: PollChoice, id: RunId)
    requires PollPicks(db, node, now, capacity, choice)
    ensures var after := Poll(db, node, now, capacity, atomicReady, choice).db;
            id in after.runs && id !in db.runs ==> after.runs[id].request.None?
  {
    hide AnyCancel, AnyRedelivery, AnyManual, AnyRetry, AnyScheduled, HasActiveRun;
  }

  lemma CommitKeepsRequests(db: Db, txn: Txn, calendar: Calendar)
    requires RunsInv(db) && OneRunPerRequest(db) && WellPosed(db, txn)
    ensures OneRunPerRequest(Commit(db, txn, calendar))
  {
    hide RunsInv, Commit, PollPicks, ValidBundle, AttemptsGrow;
    CommitGrows(db, txn, calendar);
    var after := Commit(db, txn, calendar);
    forall i, j | i in after.runs && j in after.runs && after.runs[i].request.Some?
                  && after.runs[i].request == after.runs[j].request
      ensures i == j
    {
      if i !in db.runs {
        NewRunsOfTxn(db, txn, calendar, i);
      }
      if j !in db.runs {
        NewRunsOfTxn(db, txn, calendar, j);
      }
    }
  }

  /**
    A request names one run for ever: whatever happened since it created one, asking again
    for its mirror gives that run, for any other mirror is a conflict, and creates nothing.
   */
  lemma {:induction false} RequestNamesOneRun(
    db: Db, txns: seq<Txn>, after: Db, calendar: Calendar, id: RunId, m: Name, request: string, prior: Option<RunId>,
    newId: RunId, now: int)
    requires RunsInv(db) && OneRunPerRequest(db) && History(db, txns, after, calendar)
    requires IsRunOfRequest(db, request, id) && IsPrior(after, request, prior)
    ensures OneRunPerRequest(after) && id in after.runs && after.runs[id].mirror == db.runs[id].mirror
    ensures ManualResult(after, m, prior, newId) == if m == db.runs[id].mirror then Existing(id) else RequestConflict
    ensures AfterManual(after, m, request, prior, newId, now) == after
    decreases |txns|
  {
    hide RunsInv, Commit, PollPicks, ValidBundle, AttemptsGrow, RepeatsOldOutcome;
    if txns == [] {
      assert IsRunOfRequest(after, request, id);
    } else {
      CommitKeepsRuns(db, txns[0], calendar);
      CommitKeepsRequests(db, txns[0], calendar);
      CommitGrows(db, txns[0], calendar);
      RequestNamesOneRun(Commit(db, txns[0], calendar), txns[1..], after, calendar, id, m, request, prior, newId, now);
    }
  }

  /** A new request creates a run exactly for a managed, enabled mirror without an active one, under its document. */
  lemma NewRequestCreates(db: Db, m: Name, request: string, newId: RunId, now: int)
    requires RunsInv(db) && newId !in db.runs && IsPrior(db, request, None)
    ensures var result, after := ManualResult(db, m, None, newId), AfterManual(db, m, request, None, newId, now);
            && (result == Created(newId) <==> Eligible(db, m) && !HasActiveRun(db, m))
            && (result == MirrorBusy <==> Eligible(db, m) && HasActiveRun(db, m))
            && (result == MirrorNotFound <==> m !in db.mirrors)
            && (result == Created(newId) ==>
                  && IsRunOfRequest(after, request, newId) && ViewOf(after, newId).AwaitsFirstAttempt()
                  && after.runs[newId].mirror == m && RunDocument(after, newId) == CurrentDocument(db, m)
                  && ManualCandidate(after, db.mirrors[m].owner, newId)
                  && (m in after.schedules ==> !after.schedules[m].runtime.catchUpPending))
            && (result != Created(newId) ==> after == db)
  {
    hide OneActive, RunOk, KeyOk;
    if m in db.mirrors {
      ValidCurrentDocument(db, m);
    }
    NewRunHasNoAttempts(db, newId);
  }

  // Cancellation requests

  /** A request ends a waiting run at once, or has the next poll of its owner tell the agent, whatever its capacity. */
  lemma RequestCancels(db: Db, id: RunId, now: int, calendar: Calendar)
    requires RunsInv(db) && id in db.runs && db.runs[id].state.IsActive()
    ensures var after := AfterCancelRequest(db, id, now, calendar);
            && id in after.runs && after.runs[id].cancelAt.Some? && after.runs[id].retryDueAt.None?
            && (ViewOf(db, id).AttemptOut() ==>
                  after.runs[id].state == db.runs[id].state
                  && CancelCandidate(after, db.runs[id].owner, LatestKey(after, id)))
            && (!ViewOf(db, id).AttemptOut() ==> after.runs[id].state.RunCancelled?)
  {
    hide MirrorsOk, OneActive, KeyOk, AfterCancelRequest;
    assert RunOk(db, id);
    CancelledRows(db, id, now, calendar);
    NumbersBeginAtOne(db, id);
  }

  /** From the request on, no poll of any history starts the run, and no retry waits for it. */
  lemma RequestIsFinal(db: Db, id: RunId, now: int, txns: seq<Txn>, after: Db, calendar: Calendar)
    requires RunsInv(db) && id in db.runs && History(AfterCancelRequest(db, id, now, calendar), txns, after, calendar)
    ensures !StartsRun(AfterCancelRequest(db, id, now, calendar), txns, calendar, id)
    ensures id in after.runs && after.runs[id].retryDueAt.None?
  {
    hide RunsInv, History, AfterCancelRequest, StartsRun;
    CancelRequestKeepsRuns(db, id, now, calendar);
    if db.runs[id].state.IsActive() {
      RequestCancels(db, id, now, calendar);
    } else {
      NothingToCancel(db, id, now, calendar);
    }
    CancellationIsFinal(AfterCancelRequest(db, id, now, calendar), txns, after, calendar, id);
  }
}
