/**
  What every transaction keeps about runs and attempts: no active run is orphaned,
  ended runs stay ended, attempt numbers are dense, and a mirror has one active run.
 */
module StoreRuns {
  import opened Common
  import opened Lifecycle
  import opened Schedule
  import opened StoreModel

  predicate IsOut(a: Attempt) {
    a.dispatches > 0 && !a.state.IsTerminal()
  }

  /** Everything a run's phase depends on. */
  datatype RunView = RunView(run: Run, latest: Option<Attempt>, ownerHolds: bool, document: Option<Document>)
  {
    /** Phase (a): created, nothing dispatched, and a poll of its owner will find it. */
    predicate AwaitsFirstAttempt() {
      && run.state.Pending? && run.trigger.Manual? && run.attemptCount == 0
      && run.retryDueAt.None? && run.cancelAt.None? && ownerHolds
    }

    /** Phase (b): the latest attempt is out with an agent; the run is running once the first was heard of. */
    predicate AttemptOut() {
      && run.state.IsActive() && run.attemptCount >= 1 && run.retryDueAt.None?
      && latest.Some? && IsOut(latest.value)
      && (run.state.Pending? <==> run.attemptCount == 1 && latest.value.state.Queued?)
    }

    /** Phase (c): the latest attempt ended and the next one has a deadline. */
    predicate AwaitsRetry() {
      && run.state.RunRunning? && run.attemptCount >= 1 && run.retryDueAt.Some? && run.cancelAt.None?
      && latest.Some? && latest.value.state.IsRetryable()
      && ownerHolds && run.attemptCount < run.maxAttempts
    }

    /** The run ended, and its end says what became of its latest attempt. */
    predicate Ended() {
      run.state.IsTerminal() && run.retryDueAt.None? && TellsOutcome()
    }

    /** A waiting run may be cancelled on request, whatever its last outcome, and a restore closes it as failed. */
    predicate TellsOutcome() {
      match run.state
      case RunSucceeded => latest.Some? && latest.value.state.Succeeded?
      case RunTimedOut => latest.Some? && latest.value.state.TimedOut?
      case RunFailed => latest.Some? && (latest.value.state.IsRetryable() || latest.value.state.Rejected?)
      case RunCancelled =>
        latest.Some? && run.attemptCount >= 1 ==>
          latest.value.state.Cancelled? || (latest.value.state.IsRetryable() && run.cancelAt.Some?)
      case _ => true
    }

    predicate PolicyHolds() {
      && document.Some? && run.maxAttempts >= 1 && run.attemptCount <= run.maxAttempts
      && (run.trigger.Manual? || run.attemptCount >= 1 ==>
            run.maxAttempts == document.value.maxAttempts
            && run.retryDelayMs == document.value.retryDelaySeconds * 1000)
    }

    predicate Ok() {
      PolicyHolds() && (AwaitsFirstAttempt() || AttemptOut() || AwaitsRetry() || Ended())
    }
  }

  function LatestKey(db: Db, id: RunId): Key
    requires id in db.runs
  {
    Key(id, db.runs[id].attemptCount)
  }

  predicate OwnerHolds(db: Db, r: Run) {
    Eligible(db, r.mirror) && db.mirrors[r.mirror].owner == r.owner
  }

  function ViewOf(db: Db, id: RunId): RunView
    requires id in db.runs
  {
    var k := LatestKey(db, id);
    RunView(db.runs[id], if k in db.attempts then Some(db.attempts[k]) else None,
            OwnerHolds(db, db.runs[id]), RunDocument(db, id))
  }

  ghost predicate NumbersDense(keys: set<Key>, id: RunId, count: nat) {
    forall n :: 1 <= n <= count ==> Key(id, n) in keys
  }

  ghost predicate RunOk(db: Db, id: RunId)
    requires id in db.runs
  {
    && db.runs[id].mirror in db.mirrors
    && NumbersDense(db.attempts.Keys, id, db.runs[id].attemptCount)
    && ViewOf(db, id).Ok()
  }

  predicate AttemptShape(k: Key, a: Attempt, r: Run, document: Option<Document>) {
    && 1 <= k.no <= r.attemptCount && a.dispatches > 0
    && (k.no < r.attemptCount ==> a.state.IsRetryable()) && (!r.state.IsActive() ==> a.state.IsTerminal())
    && document == Some(a.spec.document) && a.spec.key == k && a.spec.mirror == r.mirror
  }

  predicate KeyOk(db: Db, k: Key)
    requires k in db.attempts
  {
    k.run in db.runs && AttemptShape(k, db.attempts[k], db.runs[k.run], RunDocument(db, k.run))
  }

  predicate MirrorOk(mirrors: map<Name, Mirror>, generations: map<GenerationKey, Generation>, m: Name)
    requires m in mirrors
  {
    && mirrors[m].generation >= 1
    && GenerationKey(m, mirrors[m].generation) in generations
    && generations[GenerationKey(m, mirrors[m].generation)].owner == mirrors[m].owner
    && generations[GenerationKey(m, mirrors[m].generation)].document.enabled == mirrors[m].enabled
  }

  /** Every mirror has its current generation, and its generations are exactly 1..current. */
  ghost predicate MirrorsOk(mirrors: map<Name, Mirror>, generations: map<GenerationKey, Generation>) {
    && (forall m :: m in mirrors ==> MirrorOk(mirrors, generations, m))
    && (forall g :: g in generations ==>
          g.mirror in mirrors && 1 <= g.generation <= mirrors[g.mirror].generation && generations[g].document.Valid())
    && (forall m, n :: m in mirrors && 1 <= n <= mirrors[m].generation ==> GenerationKey(m, n) in generations)
  }

  ghost predicate OneActive(runs: map<RunId, Run>) {
    forall i, j | i in runs && j in runs && runs[i].mirror == runs[j].mirror ::
      runs[i].state.IsActive() && runs[j].state.IsActive() ==> i == j
  }

  ghost predicate RunsInv(db: Db) {
    && MirrorsOk(db.mirrors, db.generations)
    && (forall id :: id in db.runs ==> RunOk(db, id))
    && (forall k :: k in db.attempts ==> KeyOk(db, k))
    && OneActive(db.runs)
  }

  /** A run is in exactly one phase. */
  lemma PhasesAreExclusive(db: Db, id: RunId)
    requires RunsInv(db) && id in db.runs
    ensures var v := ViewOf(db, id);
            && (v.AwaitsFirstAttempt() ==> !v.AttemptOut() && !v.AwaitsRetry() && !v.Ended())
            && (v.AttemptOut() ==> !v.AwaitsRetry() && !v.Ended())
            && (v.AwaitsRetry() ==> !v.Ended())
            && (v.AwaitsFirstAttempt() || v.AttemptOut() || v.AwaitsRetry() || v.Ended())
  {
    assert RunOk(db, id);
  }

  /** An attempt that is not terminal belongs to the active run of its mirror and is its latest. */
  lemma LiveAttemptIsTheLatest(db: Db, k: Key)
    requires RunsInv(db) && k in db.attempts && !db.attempts[k].state.IsTerminal()
    ensures k.run in db.runs && db.runs[k.run].state.IsActive() && k == LatestKey(db, k.run)
    ensures ViewOf(db, k.run).AttemptOut() && LiveAttempt(db, k)
  {
    assert KeyOk(db, k) && RunOk(db, k.run);
    assert k == Key(k.run, k.no);
  }

  /** At most one attempt of a mirror is live on the server. */
  lemma OneLiveAttemptPerMirror(db: Db, k: Key, l: Key)
    requires RunsInv(db)
    requires k in db.attempts && !db.attempts[k].state.IsTerminal()
    requires l in db.attempts && !db.attempts[l].state.IsTerminal()
    requires db.attempts[k].spec.mirror == db.attempts[l].spec.mirror
    ensures k == l
  {
    LiveAttemptIsTheLatest(db, k);
    LiveAttemptIsTheLatest(db, l);
    assert KeyOk(db, k) && KeyOk(db, l);
  }

  // One transaction touches one run

  ghost predicate OnlyRunChanges(db: Db, after: Db, id: RunId) {
    && after.mirrors == db.mirrors && after.generations == db.generations
    && after.runs.Keys == db.runs.Keys + {id}
    && (forall j :: j in db.runs && j != id ==> after.runs[j] == db.runs[j])
    && (forall k: Key :: k.run != id ==> (k in after.attempts <==> k in db.attempts))
    && (forall k: Key :: k.run != id && k in db.attempts ==> after.attempts[k] == db.attempts[k])
  }

  lemma OtherRunsUnchanged(db: Db, after: Db, id: RunId, j: RunId)
    requires OnlyRunChanges(db, after, id) && j in db.runs && j != id && RunOk(db, j)
    ensures RunOk(after, j)
  {
    forall n | 1 <= n <= db.runs[j].attemptCount ensures Key(j, n) in after.attempts.Keys {
      assert Key(j, n) in db.attempts.Keys;
    }
    assert LatestKey(after, j) == LatestKey(db, j);
    assert ViewOf(after, j) == ViewOf(db, j);
  }

  lemma OtherKeysUnchanged(db: Db, after: Db, id: RunId, k: Key)
    requires OnlyRunChanges(db, after, id) && k in db.attempts && k.run != id && KeyOk(db, k)
    ensures k in after.attempts && KeyOk(after, k)
  {
    assert RunDocument(after, k.run) == RunDocument(db, k.run);
  }

  lemma StillOneActive(runs: map<RunId, Run>, id: RunId, r: Run)
    requires OneActive(runs)
    requires r.state.IsActive() ==>
      forall j :: j in runs && j != id && runs[j].mirror == r.mirror ==> !runs[j].state.IsActive()
    ensures OneActive(runs[id := r])
  {
  }

  lemma OneRunKeepsInv(db: Db, after: Db, id: RunId)
    requires RunsInv(db) && OnlyRunChanges(db, after, id)
    requires RunOk(after, id)
    requires forall k :: k in after.attempts && k.run == id ==> KeyOk(after, k)
    requires after.runs[id].state.IsActive() ==>
      forall j :: j in db.runs && j != id && db.runs[j].mirror == after.runs[id].mirror ==> !db.runs[j].state.IsActive()
    ensures RunsInv(after)
  {
    hide RunOk, KeyOk, MirrorsOk, OneActive;
    forall j | j in after.runs ensures RunOk(after, j) {
      if j != id {
        OtherRunsUnchanged(db, after, id, j);
      }
    }
    forall k | k in after.attempts ensures KeyOk(after, k) {
      if k.run != id {
        OtherKeysUnchanged(db, after, id, k);
      }
    }
    StillOneActive(db.runs, id, after.runs[id]);
    assert after.runs == db.runs[id := after.runs[id]];
  }

  lemma NewRunHasNoAttempts(db: Db, newId: RunId)
    requires RunsInv(db) && newId !in db.runs
    ensures forall k :: k in db.attempts ==> k.run != newId
  {
    forall k | k in db.attempts ensures k.run != newId {
      assert KeyOk(db, k);
    }
  }

  lemma NoActiveRunOf(db: Db, m: Name)
    requires !HasActiveRun(db, m)
    ensures forall j :: j in db.runs && db.runs[j].mirror == m ==> !db.runs[j].state.IsActive()
  {
    forall j | j in db.runs && db.runs[j].mirror == m ensures !db.runs[j].state.IsActive() {
      assert !IsActiveRunOf(db, m, j);
    }
  }

  lemma ManualKeepsRuns(db: Db, m: Name, request: string, prior: Option<RunId>, newId: RunId, now: int)
    requires RunsInv(db) && newId !in db.runs
    ensures RunsInv(AfterManual(db, m, request, prior, newId, now))
  {
    hide KeyOk, MirrorsOk, OneActive;
    var after := AfterManual(db, m, request, prior, newId, now);
    if ManualResult(db, m, prior, newId).Created? {
      NewRunHasNoAttempts(db, newId);
      NoActiveRunOf(db, m);
      ValidCurrentDocument(db, m);
      assert RunOk(after, newId);
      OneRunKeepsInv(db, after, newId);
    }
  }

  lemma ValidCurrentDocument(db: Db, m: Name)
    requires MirrorsOk(db.mirrors, db.generations) && m in db.mirrors
    ensures CurrentDocument(db, m).Some? && CurrentDocument(db, m).value.Valid()
    ensures CurrentDocument(db, m).value.enabled == db.mirrors[m].enabled
  {
    assert MirrorOk(db.mirrors, db.generations, m);
  }

  lemma RedeliveredRows(db: Db, k: Key, a: Attempt)
    requires k in db.attempts && KeyOk(db, k) && RunOk(db, k.run) && k == LatestKey(db, k.run)
    requires !db.attempts[k].state.IsTerminal()
    requires a == db.attempts[k].(dispatches := a.dispatches, lastDispatchAt := a.lastDispatchAt) && a.dispatches > 0
    ensures var after := db.(attempts := db.attempts[k := a]); RunOk(after, k.run) && KeyOk(after, k)
  {
    hide MirrorsOk, OneActive;
    var after := db.(attempts := db.attempts[k := a]);
    assert NumbersDense(after.attempts.Keys, k.run, db.runs[k.run].attemptCount);
    assert ViewOf(after, k.run).AttemptOut();
  }

  lemma RedeliveryKeepsRuns(db: Db, k: Key, a: Attempt)
    requires RunsInv(db) && k in db.attempts && !db.attempts[k].state.IsTerminal()
    requires a == db.attempts[k].(dispatches := a.dispatches, lastDispatchAt := a.lastDispatchAt) && a.dispatches > 0
    ensures RunsInv(db.(attempts := db.attempts[k := a]))
  {
    hide MirrorsOk, OneActive, RunOk, AttemptShape;
    var after := db.(attempts := db.attempts[k := a]);
    LiveAttemptIsTheLatest(db, k);
    assert RunOk(db, k.run) && KeyOk(db, k);
    RedeliveredRows(db, k, a);
    forall l | l in after.attempts && l.run == k.run ensures KeyOk(after, l) {
      assert KeyOk(db, l);
    }
    OthersInactive(db, k.run);
    OneRunKeepsInv(db, after, k.run);
  }

  lemma OthersInactive(db: Db, id: RunId)
    requires OneActive(db.runs) && id in db.runs && db.runs[id].state.IsActive()
    ensures forall j :: j in db.runs && j != id && db.runs[j].mirror == db.runs[id].mirror ==>
                          !db.runs[j].state.IsActive()
  {
  }

  lemma DispatchKeepsKeys(db: Db, id: RunId, document: Document, now: int)
    requires RunsInv(db) && id in db.runs && RunDocument(db, id) == Some(document)
    requires ViewOf(db, id).AwaitsFirstAttempt() || ViewOf(db, id).AwaitsRetry()
    ensures var after := PersistDispatch(db, id, db.runs[id].attemptCount + 1, document, now);
            forall k :: k in after.attempts && k.run == id ==> KeyOk(after, k)
  {
    hide MirrorsOk, OneActive, RunOk;
    var no := db.runs[id].attemptCount + 1;
    var after := PersistDispatch(db, id, no, document, now);
    forall k | k in after.attempts && k.run == id ensures KeyOk(after, k) {
      if k.no != no {
        assert KeyOk(db, k);
        assert k.no < db.runs[id].attemptCount || k == LatestKey(db, id);
      }
    }
  }

  lemma DispatchPutsOut(db: Db, id: RunId, document: Document, now: int)
    requires id in db.runs && RunOk(db, id) && db.runs[id].state.IsActive()
    requires db.runs[id].attemptCount < db.runs[id].maxAttempts
    requires ViewOf(db, id).AwaitsFirstAttempt() || ViewOf(db, id).AwaitsRetry()
    requires RunDocument(db, id) == Some(document)
    ensures RunOk(PersistDispatch(db, id, db.runs[id].attemptCount + 1, document, now), id)
  {
    var no := db.runs[id].attemptCount + 1;
    var after := PersistDispatch(db, id, no, document, now);
    forall n | 1 <= n <= no ensures Key(id, n) in after.attempts.Keys {
      assert n < no ==> Key(id, n) in db.attempts.Keys;
    }
    assert ViewOf(after, id).AttemptOut();
  }

  /** Dispatching the next attempt of a run whose earlier attempts are over puts it out with the agent. */
  lemma DispatchKeepsRuns(db: Db, id: RunId, document: Document, now: int)
    requires RunsInv(db) && id in db.runs && db.runs[id].state.IsActive()
    requires db.runs[id].attemptCount < db.runs[id].maxAttempts
    requires ViewOf(db, id).AwaitsFirstAttempt() || ViewOf(db, id).AwaitsRetry()
    requires RunDocument(db, id) == Some(document)
    ensures RunsInv(PersistDispatch(db, id, db.runs[id].attemptCount + 1, document, now))
  {
    hide MirrorsOk, OneActive, KeyOk, NumbersDense;
    assert RunOk(db, id);
    DispatchKeepsKeys(db, id, document, now);
    DispatchPutsOut(db, id, document, now);
    OthersInactive(db, id);
    OneRunKeepsInv(db, PersistDispatch(db, id, db.runs[id].attemptCount + 1, document, now), id);
  }

  lemma ScheduledDispatchKeepsRuns(db: Db, m: Name, newId: RunId, document: Document, now: int)
    requires RunsInv(db) && newId !in db.runs
    requires m in db.schedules && Eligible(db, m) && !HasActiveRun(db, m)
    requires RunDocument(Materialize(db, m, newId, now), newId) == Some(document)
    ensures RunsInv(PersistDispatch(Materialize(db, m, newId, now), newId, 1, document, now))
  {
    hide MirrorsOk, OneActive;
    var after := PersistDispatch(Materialize(db, m, newId, now), newId, 1, document, now);
    NewRunHasNoAttempts(db, newId);
    NoActiveRunOf(db, m);
    ValidCurrentDocument(db, m);
    assert ViewOf(after, newId).AttemptOut();
    assert RunOk(after, newId);
    forall k | k in after.attempts && k.run == newId ensures KeyOk(after, k) {
      assert k == Key(newId, 1);
    }
    OneRunKeepsInv(db, after, newId);
  }

  lemma CountedAttemptExists(db: Db, id: RunId)
    requires RunsInv(db) && id in db.runs && db.runs[id].attemptCount > 0
    ensures exists k :: k in db.attempts && k.run == id
  {
    assert RunOk(db, id);
    assert Key(id, 1) in db.attempts.Keys;
  }

  lemma ManualCandidateAwaitsFirst(db: Db, node: Name, id: RunId)
    requires RunsInv(db) && ManualCandidate(db, node, id)
    ensures ViewOf(db, id).AwaitsFirstAttempt() && db.runs[id].attemptCount < db.runs[id].maxAttempts
  {
    hide MirrorsOk, OneActive;
    assert RunOk(db, id);
    if db.runs[id].attemptCount > 0 {
      CountedAttemptExists(db, id);
    }
  }

  lemma RetryCandidateAwaitsRetry(db: Db, node: Name, now: int, id: RunId)
    requires RunsInv(db) && RetryCandidate(db, node, now, id)
    ensures ViewOf(db, id).AwaitsRetry()
  {
    assert RunOk(db, id);
  }

  lemma PollKeepsRuns(db: Db, node: Name, now: int, capacity: bool, atomicReady: bool, choice: PollChoice)
    requires RunsInv(db) && PollPicks(db, node, now, capacity, choice)
    ensures RunsInv(Poll(db, node, now, capacity, atomicReady, choice).db)
  {
    hide RunsInv, PersistDispatch;
    match choice
    case Redeliver(k) =>
      var a := db.attempts[k];
      RedeliveryKeepsRuns(db, k, a.(dispatches := a.dispatches + 1, lastDispatchAt := now));
    case StartManual(id) =>
      ManualCandidateAwaitsFirst(db, node, id);
      if Dispatchable(db, id, 1, atomicReady) {
        DispatchKeepsRuns(db, id, RunDocument(db, id).value, now);
      }
    case StartRetry(id) =>
      RetryCandidateAwaitsRetry(db, node, now, id);
      if Dispatchable(db, id, db.runs[id].attemptCount + 1, atomicReady) {
        DispatchKeepsRuns(db, id, RunDocument(db, id).value, now);
      }
    case StartScheduled(m, newId) =>
      var staged := Materialize(db, m, newId, now);
      if Dispatchable(staged, newId, 1, atomicReady) {
        ScheduledDispatchKeepsRuns(db, m, newId, RunDocument(staged, newId).value, now);
      }
    case _ =>
  }

  /**
    No active run is out of the owner's sight: what it waits for is a row some poll
    of its owner selects, or a terminal event of the attempt that is out.
   */
  lemma EveryActiveRunIsInSight(db: Db, id: RunId, now: int)
    requires RunsInv(db) && id in db.runs && db.runs[id].state.IsActive()
    ensures var v := ViewOf(db, id);
            var owner := db.runs[id].owner;
            && (v.AwaitsFirstAttempt() <==> ManualCandidate(db, owner, id))
            && (v.AwaitsRetry() && v.run.retryDueAt.value <= now <==> RetryCandidate(db, owner, now, id))
            && (v.AttemptOut() && v.run.cancelAt.Some? <==> CancelCandidate(db, owner, LatestKey(db, id)))
            && (v.AttemptOut() && v.latest.value.state.Queued? <==> RedeliveryCandidate(db, owner, LatestKey(db, id)))
  {
    hide MirrorsOk, OneActive;
    assert RunOk(db, id);
    if ManualCandidate(db, db.runs[id].owner, id) {
      ManualCandidateAwaitsFirst(db, db.runs[id].owner, id);
    }
    if ViewOf(db, id).AwaitsFirstAttempt() {
      forall k | k in db.attempts ensures k.run != id {
        assert KeyOk(db, k);
      }
    }
  }

  // Cancellation and events

  /** Every attempt has been dispatched, so the statements about undispatched ones change no row. */
  lemma CancelChangesNoAttempt(db: Db, id: RunId)
    requires RunsInv(db)
    ensures CancelUndispatchedAttempts(db.attempts, id) == db.attempts
  {
    hide MirrorsOk, OneActive, RunOk;
    forall k | k in db.attempts ensures db.attempts[k].dispatches > 0 {
      assert KeyOk(db, k);
    }
  }

  /** The rows of a cancellation request, given that every attempt has been dispatched. */
  lemma CancelledRows(db: Db, id: RunId, now: int, calendar: Calendar)
    requires RunsInv(db) && id in db.runs && !db.runs[id].state.IsTerminal()
    ensures var after := AfterCancelRequest(db, id, now, calendar);
            && after.mirrors == db.mirrors && after.generations == db.generations && after.attempts == db.attempts
            && after.runs == db.runs[id := CancelledRun(db, id, now)]
  {
    hide RunsInv, TerminalRearm, ArmWith, Dispatched;
    CancelChangesNoAttempt(db, id);
  }

  function CancelledRun(db: Db, id: RunId, now: int): Run
    requires id in db.runs
  {
    var r := db.runs[id];
    var wanted := r.(cancelAt := Some(if r.cancelAt.Some? then r.cancelAt.value else now));
    if Dispatched(db, id) then wanted else wanted.(state := RunCancelled, retryDueAt := None)
  }

  lemma NumbersBeginAtOne(db: Db, id: RunId)
    requires RunsInv(db)
    ensures Key(id, 0) !in db.attempts
  {
    hide MirrorsOk, OneActive, RunOk;
    assert Key(id, 0) in db.attempts ==> KeyOk(db, Key(id, 0));
  }

  lemma CancelledRunOk(db: Db, after: Db, id: RunId, now: int)
    requires id in db.runs && RunOk(db, id) && db.runs[id].state.IsActive() && Key(id, 0) !in db.attempts
    requires after.mirrors == db.mirrors && after.generations == db.generations && after.attempts == db.attempts
    requires after.runs == db.runs[id := CancelledRun(db, id, now)]
    ensures RunOk(after, id)
  {
    assert LatestKey(after, id) == LatestKey(db, id);
    assert ViewOf(after, id).Ok();
  }

  lemma CancelRequestKeepsRuns(db: Db, id: RunId, now: int, calendar: Calendar)
    requires RunsInv(db)
    ensures RunsInv(AfterCancelRequest(db, id, now, calendar))
  {
    hide MirrorsOk, OneActive, RunOk, AttemptShape, AfterCancelRequest;
    if id in db.runs && !db.runs[id].state.IsTerminal() {
      var after := AfterCancelRequest(db, id, now, calendar);
      CancelledRows(db, id, now, calendar);
      assert RunOk(db, id);
      NumbersBeginAtOne(db, id);
      CancelledRunOk(db, after, id, now);
      forall k | k in after.attempts && k.run == id ensures KeyOk(after, k) {
        CancelledKeyOk(db, after, id, now, k);
      }
      OthersInactive(db, id);
      OneRunKeepsInv(db, after, id);
    } else {
      NothingToCancel(db, id, now, calendar);
    }
  }

  lemma NothingToCancel(db: Db, id: RunId, now: int, calendar: Calendar)
    requires id !in db.runs || db.runs[id].state.IsTerminal()
    ensures AfterCancelRequest(db, id, now, calendar) == db
  {
  }

  lemma CancelledKeyOk(db: Db, after: Db, id: RunId, now: int, k: Key)
    requires RunsInv(db) && id in db.runs && k in db.attempts && k.run == id
    requires after.generations == db.generations && after.attempts == db.attempts
    requires after.runs == db.runs[id := CancelledRun(db, id, now)]
    ensures KeyOk(after, k)
  {
    hide MirrorsOk, OneActive, RunOk;
    assert KeyOk(db, k);
    if !db.attempts[k].state.IsTerminal() {
      LiveAttemptIsTheLatest(db, k);
    }
  }

  /**
    A terminal event that repeats, under a higher sequence number, the end of an
    attempt whose successor is already out.
   */
  predicate RepeatsOldOutcome(db: Db, key: Key, event: AttemptEvent, now: int) {
    && EventResult(db, key, event, now).Applied?
    && db.attempts[key].state.IsTerminal()
    && db.runs[key.run].state.IsActive()
    && key.no < db.runs[key.run].attemptCount
    && LiveAttempt(db, LatestKey(db, key.run))
  }

  /** The run row after an applied event. */
  function RunAfterEvent(db: Db, key: Key, event: AttemptEvent, now: int): Run
    requires EventResult(db, key, event, now).Applied?
  {
    var r := db.runs[key.run];
    match ProjectAttemptEvent(db.attempts[key].state, event)
    case RunStarts => if r.state.Pending? then r.(state := RunRunning) else r
    case RunOutcome(_) => RunAfterOutcome(r, DecideRetry(RetryContextOf(db, key, event.state, now)))
    case _ => r
  }

  lemma AppliedEventRows(db: Db, key: Key, event: AttemptEvent, now: int, calendar: Calendar)
    requires EventResult(db, key, event, now).Applied?
    ensures var after := AfterEvent(db, key, event, now, calendar);
            && after.mirrors == db.mirrors && after.generations == db.generations
            && after.attempts ==
               db.attempts[key := db.attempts[key].(state := event.state, lastSequence := event.sequence)]
            && after.runs == db.runs[key.run := RunAfterEvent(db, key, event, now)]
  {
    hide TerminalRearm, ArmWith, DecideRetry, RunAfterOutcome;
  }

  /** Whether the event's attempt may still be open: then it is the latest one of an active run. */
  lemma EventTarget(db: Db, key: Key)
    requires RunsInv(db) && key in db.attempts
    ensures key.run in db.runs && RunOk(db, key.run) && KeyOk(db, key)
    ensures !db.attempts[key].state.IsTerminal() ==> key == LatestKey(db, key.run) && ViewOf(db, key.run).AttemptOut()
    ensures key.no == db.runs[key.run].attemptCount ==> key == LatestKey(db, key.run)
  {
    assert KeyOk(db, key);
    if !db.attempts[key].state.IsTerminal() {
      LiveAttemptIsTheLatest(db, key);
    }
  }

  lemma OutcomeKeepsView(v: RunView, key: Key, event: AttemptEvent, target: Attempt, context: RetryContext, w: RunView)
    requires v.Ok() && AttemptShape(key, target, v.run, v.document)
    requires ProjectAttemptEvent(target.state, event).RunOutcome?
    requires !target.state.IsTerminal() ==> v.AttemptOut() && key.no == v.run.attemptCount
    requires key.no == v.run.attemptCount ==> v.latest == Some(target)
    requires context.outcome == event.state && context.attemptNo == key.no && context.maxAttempts == v.run.maxAttempts
    requires context.cancelRequested == v.run.cancelAt.Some?
    requires context.mirrorEligible && context.ownerUnchanged <==> v.ownerHolds
    requires target.state.IsTerminal() && v.run.state.IsActive() && key.no < v.run.attemptCount ==>
      v.latest.Some? && !IsOut(v.latest.value)
    requires w.run == RunAfterOutcome(v.run, DecideRetry(context))
    requires w.ownerHolds == v.ownerHolds && w.document == v.document
    requires w.latest ==
      if key.no == v.run.attemptCount
      then Some(target.(state := event.state, lastSequence := event.sequence)) else v.latest
    ensures w.Ok()
  {
  }

  lemma EventKeepsItsRun(db: Db, key: Key, event: AttemptEvent, now: int, calendar: Calendar)
    requires RunsInv(db) && EventResult(db, key, event, now).Applied? && !RepeatsOldOutcome(db, key, event, now)
    ensures RunOk(AfterEvent(db, key, event, now, calendar), key.run)
  {
    hide RunsInv, AfterEvent, DecideRetry;
    AppliedEventRows(db, key, event, now, calendar);
    EventTarget(db, key);
    var after := AfterEvent(db, key, event, now, calendar);
    var v, w := ViewOf(db, key.run), ViewOf(after, key.run);
    assert after.attempts.Keys == db.attempts.Keys;
    if ProjectAttemptEvent(db.attempts[key].state, event).RunOutcome? {
      OutcomeKeepsView(v, key, event, db.attempts[key], RetryContextOf(db, key, event.state, now), w);
    } else {
      assert w.Ok();
    }
  }

  lemma OtherAttemptsAreOver(db: Db, key: Key, event: AttemptEvent, now: int, k: Key)
    requires RunsInv(db) && EventResult(db, key, event, now).Applied? && !RepeatsOldOutcome(db, key, event, now)
    requires k in db.attempts && k != key && k.run == key.run
    ensures db.attempts[k].state.IsTerminal()
  {
    hide RunsInv;
    EventTarget(db, key);
    EventTarget(db, k);
  }

  lemma EventKeepsItsKeys(db: Db, key: Key, event: AttemptEvent, now: int, calendar: Calendar)
    requires RunsInv(db) && EventResult(db, key, event, now).Applied? && !RepeatsOldOutcome(db, key, event, now)
    ensures forall k :: k in AfterEvent(db, key, event, now, calendar).attempts && k.run == key.run ==>
                          KeyOk(AfterEvent(db, key, event, now, calendar), k)
  {
    hide RunsInv, AfterEvent, DecideRetry;
    AppliedEventRows(db, key, event, now, calendar);
    EventTarget(db, key);
    var after := AfterEvent(db, key, event, now, calendar);
    assert RunDocument(after, key.run) == RunDocument(db, key.run);
    forall k | k in after.attempts && k.run == key.run ensures KeyOk(after, k) {
      EventTarget(db, k);
      if k != key {
        OtherAttemptsAreOver(db, key, event, now, k);
      }
    }
  }

  lemma EventKeepsRuns(db: Db, key: Key, event: AttemptEvent, now: int, calendar: Calendar)
    requires RunsInv(db) && !RepeatsOldOutcome(db, key, event, now)
    ensures RunsInv(AfterEvent(db, key, event, now, calendar))
  {
    hide MirrorsOk, TerminalRearm, ArmWith, DecideRetry, RunOk, KeyOk;
    if EventResult(db, key, event, now).Applied? {
      EventKeepsItsKeys(db, key, event, now, calendar);
      EventKeepsItsRun(db, key, event, now, calendar);
      OneRunKeepsInv(db, AfterEvent(db, key, event, now, calendar), key.run);
    }
  }

  lemma RepeatedOutcomeRun(db: Db, key: Key, event: AttemptEvent, now: int)
    requires RunsInv(db) && RepeatsOldOutcome(db, key, event, now)
    ensures var next := RunAfterEvent(db, key, event, now);
            && next.attemptCount == db.runs[key.run].attemptCount && (next.state.IsTerminal() || next.retryDueAt.Some?)
    ensures event.state.IsTerminal()
  {
    hide MirrorsOk, OneActive, RetryContextOf;
    assert KeyOk(db, key);
  }

  lemma RepeatedOutcomeOrphansRun(db: Db, key: Key, event: AttemptEvent, now: int, calendar: Calendar)
    requires RunsInv(db) && RepeatsOldOutcome(db, key, event, now)
    ensures !RunsInv(AfterEvent(db, key, event, now, calendar))
  {
    hide MirrorsOk, OneActive, AfterEvent, RunAfterEvent;
    var after := AfterEvent(db, key, event, now, calendar);
    var latest := LatestKey(db, key.run);
    AppliedEventRows(db, key, event, now, calendar);
    RepeatedOutcomeRun(db, key, event, now);
    assert after.attempts[latest] == db.attempts[latest] && LatestKey(after, key.run) == latest;
    if after.runs[key.run].state.IsTerminal() {
      assert !KeyOk(after, latest);
    } else {
      assert !RunOk(after, key.run);
    }
  }

  /** `apply_event` keeps the run invariant exactly when it does not repeat an old outcome under a new number. */
  lemma EventKeepsRunsExactly(db: Db, key: Key, event: AttemptEvent, now: int, calendar: Calendar)
    requires RunsInv(db)
    ensures RunsInv(AfterEvent(db, key, event, now, calendar)) <==> !RepeatsOldOutcome(db, key, event, now)
  {
    hide RunsInv;
    if RepeatsOldOutcome(db, key, event, now) {
      RepeatedOutcomeOrphansRun(db, key, event, now, calendar);
    } else {
      EventKeepsRuns(db, key, event, now, calendar);
    }
  }

  lemma SchedulesDoNotMatter(db: Db, schedules: map<Name, ScheduleRow>)
    requires RunsInv(db)
    ensures RunsInv(db.(schedules := schedules))
  {
    hide MirrorsOk, OneActive;
    var after := db.(schedules := schedules);
    forall id | id in after.runs ensures RunOk(after, id) {
      assert RunOk(db, id);
      assert ViewOf(after, id) == ViewOf(db, id);
    }
    forall k | k in after.attempts ensures KeyOk(after, k) {
      assert KeyOk(db, k);
    }
  }

  lemma TickKeepsRuns(db: Db, now: int, calendar: Calendar)
    requires RunsInv(db)
    ensures RunsInv(AfterTick(db, now, calendar))
  {
    SchedulesDoNotMatter(db, AfterTick(db, now, calendar).schedules);
  }

  lemma RestoredRun(db: Db, id: RunId)
    requires RunsInv(db) && id in db.runs
    ensures id in AfterRestore(db).runs && RunOk(AfterRestore(db), id)
    ensures AfterRestore(db).runs[id].state.IsTerminal()
  {
    hide HasDispatched, MirrorsOk, OneActive, KeyOk;
    var after := AfterRestore(db);
    assert RunOk(db, id);
    WaitingRunHasNoDispatch(db, id);
    assert after.attempts.Keys == db.attempts.Keys;
    assert ViewOf(after, id).Ended();
    assert ViewOf(after, id).PolicyHolds();
  }

  lemma RestoredKey(db: Db, k: Key)
    requires k in db.attempts && KeyOk(db, k)
    ensures k in AfterRestore(db).attempts && KeyOk(AfterRestore(db), k)
    ensures AfterRestore(db).attempts[k].state.IsTerminal()
  {
    hide HasDispatched;
  }

  /** An offline restore closes every run and attempt, and orphans none. */
  lemma RestoreKeepsRuns(db: Db)
    requires RunsInv(db)
    ensures RunsInv(AfterRestore(db))
    ensures forall id :: id in db.runs ==> AfterRestore(db).runs[id].state.IsTerminal()
    ensures forall k :: k in db.attempts ==> AfterRestore(db).attempts[k].state.IsTerminal()
  {
    hide MirrorsOk, HasDispatched, RunOk, KeyOk;
    var after := AfterRestore(db);
    assert after.runs.Keys == db.runs.Keys && after.attempts.Keys == db.attempts.Keys;
    forall id | id in db.runs ensures RunOk(after, id) && after.runs[id].state.IsTerminal() {
      RestoredRun(db, id);
    }
    forall k | k in db.attempts ensures KeyOk(after, k) && after.attempts[k].state.IsTerminal() {
      RestoredKey(db, k);
    }
  }

  // Configuration changes

  lemma ActiveRunIsNotMoved(db: Db, bundle: Bundle, id: RunId)
    requires id in db.runs && db.runs[id].state.IsActive() && !Blocked(db, bundle)
    ensures PlannedChange(db, bundle, db.runs[id].mirror) != Some(Move)
  {
    var m := db.runs[id].mirror;
    if PlannedChange(db, bundle, m) == Some(Move) {
      assert IsActiveRunOf(db, m, id);
      assert m in Plan(db, bundle) && HighImpact(db, bundle, m);
    }
  }

  ghost function Reconfigured(db: Db, bundle: Bundle, now: int, calendar: Calendar): Db {
    ApplyChanges(db, bundle, Plan(db, bundle).Keys, now, calendar)
  }

  lemma ReconfiguredMirror(db: Db, bundle: Bundle, m: Name, now: int, calendar: Calendar)
    requires m in db.mirrors
    ensures m in Reconfigured(db, bundle, now, calendar).mirrors
    ensures var after := Reconfigured(db, bundle, now, calendar).mirrors[m];
            match PlannedChange(db, bundle, m)
            case None => after == db.mirrors[m]
            case Some(change) =>
              if m in bundle
              then after == Mirror(true, bundle[m].document.enabled, bundle[m].owner, db.mirrors[m].generation + 1)
              else after == db.mirrors[m].(managed := false)
  {
  }

  lemma ReconfiguredGenerations(db: Db, bundle: Bundle, now: int, calendar: Calendar)
    requires MirrorsOk(db.mirrors, db.generations)
    ensures forall g :: g in db.generations ==>
      g in Reconfigured(db, bundle, now, calendar).generations &&
      Reconfigured(db, bundle, now, calendar).generations[g] == db.generations[g]
  {
    hide PlannedChange, ScheduleIn;
  }

  lemma ReconfiguredAttempts(db: Db, bundle: Bundle, now: int, calendar: Calendar)
    requires RunsInv(db)
    ensures Reconfigured(db, bundle, now, calendar).attempts == db.attempts
  {
    hide PlannedChange, ScheduleIn, MirrorsOk, OneActive;
    forall k | k in db.attempts ensures db.attempts[k].dispatches > 0 {
      assert KeyOk(db, k);
    }
  }

  lemma ReconfiguredRun(db: Db, bundle: Bundle, id: RunId, now: int, calendar: Calendar)
    requires id in db.runs
    ensures id in Reconfigured(db, bundle, now, calendar).runs
    ensures var change := PlannedChange(db, bundle, db.runs[id].mirror);
            Reconfigured(db, bundle, now, calendar).runs[id] ==
            if change.Some? then RunAfterChange(db, bundle, id, change.value) else db.runs[id]
  {
    hide ScheduleIn, RunAfterChange;
    var m := db.runs[id].mirror;
    assert PlannedChange(db, bundle, m).Some? <==> m in Plan(db, bundle).Keys;
  }

  lemma WaitingRunHasNoDispatch(db: Db, id: RunId)
    requires RunsInv(db) && id in db.runs
    ensures ViewOf(db, id).AwaitsFirstAttempt() ==> !HasDispatched(db, id)
    ensures ViewOf(db, id).AttemptOut() ==> HasDispatched(db, id)
  {
    if ViewOf(db, id).AwaitsFirstAttempt() {
      forall k | k in db.attempts ensures k.run != id {
        assert KeyOk(db, k);
      }
    }
    if ViewOf(db, id).AttemptOut() {
      assert LatestKey(db, id) in db.attempts;
    }
  }

  lemma ApplyKeepsOneRun(db: Db, bundle: Bundle, id: RunId, now: int, calendar: Calendar)
    requires RunsInv(db) && ValidBundle(bundle) && !Blocked(db, bundle) && id in db.runs
    ensures id in Reconfigured(db, bundle, now, calendar).runs
    ensures RunOk(Reconfigured(db, bundle, now, calendar), id)
    ensures Reconfigured(db, bundle, now, calendar).runs[id].state.IsActive() ==> db.runs[id].state.IsActive()
    ensures Reconfigured(db, bundle, now, calendar).runs[id].mirror == db.runs[id].mirror
    ensures Reconfigured(db, bundle, now, calendar).runs[id].attemptCount == db.runs[id].attemptCount
    ensures RunDocument(Reconfigured(db, bundle, now, calendar), id) == RunDocument(db, id)
  {
    hide OneActive, Reconfigured, HasDispatched, HighImpact, MirrorsOk;
    var after := Reconfigured(db, bundle, now, calendar);
    var m := db.runs[id].mirror;
    assert RunOk(db, id);
    ReconfiguredAttempts(db, bundle, now, calendar);
    ReconfiguredGenerations(db, bundle, now, calendar);
    ReconfiguredMirror(db, bundle, m, now, calendar);
    ReconfiguredRun(db, bundle, id, now, calendar);
    WaitingRunHasNoDispatch(db, id);
    if db.runs[id].state.IsActive() {
      ActiveRunIsNotMoved(db, bundle, id);
    }
    assert ViewOf(after, id).Ok();
  }
}
