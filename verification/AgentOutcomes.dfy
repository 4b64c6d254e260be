/**
  What a caller of one agent may rely on: which starts it accepts and how many it runs,
  how an execution ends and what each end was earned by, that a cancellation takes hold,
  and that no record leaves before its log.
 */
module AgentOutcomes {
  import opened Common
  import opened Lifecycle
  import opened StoreModel
  import opened Spool
  import opened AgentModel
  import opened AgentHistories

  // Starts

  /** Whether a record bars a start that names the mirror: a fence, or for an atomic one a publication to recover. */
  ghost predicate Barred(spool: map<Key, SpoolRecord>, mirror: Name, atomic: bool) {
    exists k :: k in spool && spool[k].publication.Some? && spool[k].publication.value.mirror == mirror
                && (spool[k].InPhase(AbandonedFenced) || (atomic && spool[k].RequiresPublicationRecovery()))
  }

  /** What the namespace allows: an atomic start for its own mirror, within the bound, and nothing barred. */
  ghost predicate Admits(spool: map<Key, SpoolRecord>, spec: Spec, identity: Option<Name>, generationsPass: bool) {
    && (spec.document.mode.Atomic? ==>
          generationsPass && (identity.Some? ==> identity.value == spec.mirror) && !Barred(spool, spec.mirror, true))
    && (spec.document.mode.Direct? && identity.Some? ==> !Barred(spool, identity.value, false))
  }

  lemma AdmitsExactly(spool: map<Key, SpoolRecord>, spec: Spec, identity: Option<Name>, generationsPass: bool)
    ensures AdmissionRefuses(spool, identity, spec, generationsPass) <==>
            !Admits(spool, spec, identity, generationsPass)
  {
    var mirror, atomic := NamedMirror(identity, spec), spec.document.mode.Atomic?;
    if mirror.Some? {
      assert Barred(spool, mirror.value, atomic) <==>
             exists k :: k in spool && Blocks(spool[k], mirror.value, atomic) by {
        if Barred(spool, mirror.value, atomic) {
          var k :| k in spool && spool[k].publication.Some? && spool[k].publication.value.mirror == mirror.value
                   && (spool[k].InPhase(AbandonedFenced) || (atomic && spool[k].RequiresPublicationRecovery()));
          assert Blocks(spool[k], mirror.value, atomic);
        }
      }
    }
  }

  /**
    The answer to a start: known exactly with the spec and identity on record, without room at
    the bound, and otherwise decided by policy and namespace; only acceptance begins a task.
   */
  lemma AcceptExactly(a: Agent, k: Key, spec: Spec, identity: Option<Name>, admission: Admission)
    ensures var result := AcceptResult(a, k, spec, identity, admission);
            var after := AfterAccept(a, k, spec, identity, admission);
            var welcome := admission.policyAllows && Admits(a.spool, spec, identity, admission.generationsPass);
            && (result.Known? <==> k in a.spool && a.spool[k].spec == spec && a.spool[k].identity == identity)
            && (result.Conflicting? <==> k in a.spool && (a.spool[k].spec != spec || a.spool[k].identity != identity))
            && (result.NoRoom? <==> k !in a.spool && (k in a.tasks || |a.tasks| >= admission.maxConcurrent))
            && (k !in a.spool && !result.NoRoom? ==>
                  && (result.RejectedHere? <==> !welcome)
                  && (result.AcceptedHere? <==> welcome && admission.written.Stored?))
            && (result.Known? || result.Conflicting? || result.NoRoom? ==> after == a)
            && (result.AcceptedHere? ==>
                  Live(after, k) && after.tasks.Keys == a.tasks.Keys + {k} && |after.tasks| <= admission.maxConcurrent)
            && (result.AcceptedHere? ==> k in after.spool && after.spool[k] == after.tasks[k].memory
                                         && after.spool[k].state.Accepted? && after.spool[k].failure.None?)
            && (result.RejectedHere? && admission.written.Stored? ==>
                  && k in after.spool && after.spool[k].state.Rejected?
                  && after.spool[k].failure == Some(RejectedFailure))
            && (!result.AcceptedHere? ==> after.tasks == a.tasks)
  {
    hide AdmissionRefuses, Admits;
    AdmitsExactly(a.spool, spec, identity, admission.generationsPass);
  }

  /** Hearing an accepted start again changes nothing, whatever policy, room and namespace say by then. */
  lemma AcceptIsIdempotent(
    a: Agent, k: Key, spec: Spec, identity: Option<Name>, admission: Admission, again: Admission)
    requires var result := AcceptResult(a, k, spec, identity, admission); result.AcceptedHere? || result.Known?
    ensures var after := AfterAccept(a, k, spec, identity, admission);
            && AcceptResult(after, k, spec, identity, again).Known?
            && AfterAccept(after, k, spec, identity, again) == after
  {
    hide AdmissionRefuses;
  }

  /** Once a fence is cleared, nothing but another fence keeps its mirror from publishing. */
  lemma ClearedMirrorIsFree(a: Agent, k: Key, mirror: Name, spec: Spec, verified: bool)
    requires Enabled(a, ClearFenceStep(k, mirror, spec, verified))
    ensures var after := After(a, ClearFenceStep(k, mirror, spec, verified));
            && k !in after.spool && after.tasks == a.tasks && verified
            && (Barred(after.spool, mirror, true) ==>
                  exists j ::
                    j in a.spool && j != k && a.spool[j].IsFence() && a.spool[j].publication.value.mirror == mirror)
  {
    var after := After(a, ClearFenceStep(k, mirror, spec, verified));
    if Barred(after.spool, mirror, true) {
      var j :| j in after.spool && after.spool[j].publication.Some? && after.spool[j].publication.value.mirror == mirror
               && (after.spool[j].InPhase(AbandonedFenced) || after.spool[j].RequiresPublicationRecovery());
      assert j in a.spool && j != k && a.spool[j] == after.spool[j];
    }
  }

  function Working(a: Agent): set<Key> {
    set k | k in a.tasks && AtWork(a, k)
  }

  lemma StepKeepsConcurrency(a: Agent, step: AgentStep, bound: nat)
    requires Enabled(a, step) && |Working(a)| <= bound
    requires step.AcceptStep? ==> step.admission.maxConcurrent <= bound
    ensures |Working(After(a, step))| <= bound
  {
    hide AdmissionRefuses, AnyProtected, OtherRecoverable, PublicationEnds, PublicationMoves;
    var after := After(a, step);
    if step.AcceptStep? && AcceptResult(a, step.key, step.spec, step.identity, step.admission).AcceptedHere? {
      AcceptExactly(a, step.key, step.spec, step.identity, step.admission);
      assert |after.tasks.Keys| == |after.tasks|;
      SubsetIsSmaller(Working(after), after.tasks.Keys);
    } else {
      assert forall k :: k in Working(after) ==> k in Working(a);
      SubsetIsSmaller(Working(after), Working(a));
    }
  }

  lemma SubsetIsSmaller(small: set<Key>, big: set<Key>)
    requires small <= big
    ensures |small| <= |big|
  {
    assert big == small + (big - small);
  }

  /** Over every history no more attempts are at work than the bound any start was accepted under. */
  lemma {:induction false} ConcurrencyIsBounded(a: Agent, steps: seq<AgentStep>, after: Agent, bound: nat)
    requires AgentHistory(a, steps, after) && |Working(a)| <= bound
    requires forall i :: 0 <= i < |steps| && steps[i].AcceptStep? ==> steps[i].admission.maxConcurrent <= bound
    ensures |Working(after)| <= bound
    decreases |steps|
  {
    hide After, Enabled, Working;
    if steps != [] {
      StepKeepsConcurrency(a, steps[0], bound);
      assert forall i :: 0 <= i < |steps[1..]| ==> steps[1..][i] == steps[i + 1];
      ConcurrencyIsBounded(After(a, steps[0]), steps[1..], after, bound);
    }
  }

  // Ends

  /** The end of an execution with nothing to publish, whatever becomes of its write. */
  lemma ExitDecidesTheEnd(a: Agent, k: Key, outcome: Outcome, written: WriteResult)
    requires AgentInv(a) && Enabled(a, FinishStep(k, outcome, written))
    ensures k in a.spool
    ensures var after, cancelled := After(a, FinishStep(k, outcome, written)), a.spool[k].cancelRequested;
            && InStage(after, k, Ended)
            && var end := after.tasks[k].memory;
               && end.sequence == a.tasks[k].memory.sequence + 1
               && (end.state.Cancelled? <==> cancelled || outcome.CancelSignalled?)
               && (end.state.Succeeded? <==> !cancelled && outcome == Exited(true))
               && (end.state.Failed? <==> !cancelled && outcome == Exited(false))
               && (end.state.TimedOut? <==> !cancelled && outcome.OutOfTime?)
               && (end.state.Interrupted? <==> !cancelled && (outcome.WaitFailed? || outcome.Shutdown?))
               && end.failure == (if end.state.Failed? then Some(ProcessFailure)
                                  else if end.state.TimedOut? then Some(TimeoutFailure)
                                  else if end.state.Interrupted? then Some(InterruptedFailure) else None)
               && k in after.spool && after.spool[k] == if written.NotStored? then a.spool[k] else end
  {
    MergedOk(a, k);
  }

  /** An attempt without a process ends cancelled if that is wanted, else as failed, or interrupted by a restart. */
  lemma UnlaunchedEnds(a: Agent, k: Key, kind: FailureKind, written: WriteResult)
    requires AgentInv(a) && k in a.spool
    ensures Enabled(a, LaunchFailsStep(k, kind, written)) ==>
      var after := After(a, LaunchFailsStep(k, kind, written));
      && InStage(after, k, Ended) && after.tasks[k].memory.sequence == a.tasks[k].memory.sequence + 1
      && (if a.spool[k].cancelRequested
          then after.tasks[k].memory.state.Cancelled? && after.tasks[k].memory.failure.None?
          else after.tasks[k].memory.state.Failed? && after.tasks[k].memory.failure == Some(kind))
    ensures Enabled(a, NormalizeStep(k, written)) ==>
      var after := After(a, NormalizeStep(k, written));
      && InStage(after, k, Ended) && after.tasks[k].memory.sequence == a.spool[k].sequence + 1
      && (if a.spool[k].cancelRequested
          then after.tasks[k].memory.state.Cancelled? && after.tasks[k].memory.failure.None?
          else after.tasks[k].memory.state.Interrupted? && after.tasks[k].memory.failure == Some(InterruptedFailure))
  {
    if Live(a, k) {
      MergedOk(a, k);
    }
  }

  predicate HasEnd(r: SpoolRecord, state: AttemptState) {
    r.publication.None? && (r.state == state || (state.Cancelled? && r.cancelRequested))
  }

  /** Some copy of the Direct attempt's record has the end, or for a cancellation is bound to it. */
  predicate Shows(a: Agent, k: Key, state: AttemptState) {
    (k in a.spool && HasEnd(a.spool[k], state)) || (k in a.tasks && HasEnd(a.tasks[k].memory, state))
  }

  /** The only steps that bring a Direct attempt to the end. */
  predicate Earns(step: AgentStep, k: Key, state: AttemptState) {
    match state
    case Succeeded => step.FinishStep? && step.key == k && step.outcome == Exited(true)
    case Failed =>
      || (step.FinishStep? && step.key == k && step.outcome == Exited(false))
      || (step.LaunchFailsStep? && step.key == k)
    case TimedOut => step.FinishStep? && step.key == k && step.outcome.OutOfTime?
    case Interrupted =>
      || (step.FinishStep? && step.key == k && (step.outcome.WaitFailed? || step.outcome.Shutdown?))
      || (step.NormalizeStep? && step.key == k)
    case Cancelled =>
      (step.FinishStep? && step.key == k && step.outcome.CancelSignalled?) || (step.CancelStep? && step.key == k)
    case Rejected => step.AcceptStep? && step.key == k
    case _ => true
  }

  /** Steps of an execution up to its end. */
  predicate Executes(step: AgentStep) {
    step.SpawnStep? || step.FinishStep? || step.LaunchFailsStep? || step.CommitStep?
  }

  lemma FinishEarnsTheEnd(a: Agent, step: AgentStep, k: Key, state: AttemptState)
    requires AgentInv(a) && Enabled(a, step) && state.IsTerminal() && step.FinishStep?
    requires !Shows(a, k, state) && Shows(After(a, step), k, state)
    ensures Earns(step, k, state)
  {
    hide AgentInv;
    MergedOk(a, step.key);
  }

  lemma LaunchEarnsTheEnd(a: Agent, step: AgentStep, k: Key, state: AttemptState)
    requires AgentInv(a) && Enabled(a, step) && state.IsTerminal() && Executes(step) && !step.FinishStep?
    requires !Shows(a, k, state) && Shows(After(a, step), k, state)
    ensures Earns(step, k, state)
  {
    hide AgentInv;
    MergedOk(a, step.key);
  }

  /** Steps that leave a publication in every record they write. */
  predicate Publishes(step: AgentStep) {
    step.PersistStep? || step.PublishStep? || step.RecoverStep? || step.AbandonStep?
  }

  lemma PublicationEarnsNothing(a: Agent, step: AgentStep, k: Key, state: AttemptState)
    requires AgentInv(a) && Enabled(a, step) && Publishes(step) && !Shows(a, k, state)
    ensures !Shows(After(a, step), k, state)
  {
    hide AgentInv, PublicationEnds, PublicationMoves;
    if step.PersistStep? || step.PublishStep? {
      PublicationStays(a, step);
    } else if step.RecoverStep? {
      RecoveryStays(a, step);
    }
  }

  lemma StepEarnsTheEnd(a: Agent, step: AgentStep, k: Key, state: AttemptState)
    requires AgentInv(a) && Enabled(a, step) && state.IsTerminal()
    requires !Shows(a, k, state) && Shows(After(a, step), k, state)
    ensures Earns(step, k, state)
  {
    hide AgentInv, AdmissionRefuses, AnyProtected, OtherRecoverable, PublicationEnds, PublicationMoves;
    if step.FinishStep? {
      FinishEarnsTheEnd(a, step, k, state);
    } else if Executes(step) {
      LaunchEarnsTheEnd(a, step, k, state);
    } else if Publishes(step) {
      PublicationEarnsNothing(a, step, k, state);
    }
  }

  lemma PublicationStays(a: Agent, step: AgentStep)
    requires AgentInv(a) && Enabled(a, step) && (step.PersistStep? || step.PublishStep?)
    ensures if step.PersistStep? then step.record.publication.Some? else step.ended.publication.Some?
  {
    assert PublishingOk(a.tasks[step.key].memory, a.spool[step.key]);
  }

  lemma RecoveryStays(a: Agent, step: AgentStep)
    requires Enabled(a, step) && step.RecoverStep?
    ensures step.recovered.publication.Some?
  {
  }

  /** Over every history an attempt that is Direct ends only as some step earned it. */
  lemma {:induction false} EndIsEarned(a: Agent, steps: seq<AgentStep>, after: Agent, k: Key, state: AttemptState)
    requires AgentInv(a) && AgentHistory(a, steps, after) && state.IsTerminal()
    requires !Shows(a, k, state) && Shows(after, k, state)
    ensures exists i :: 0 <= i < |steps| && Earns(steps[i], k, state)
    decreases |steps|
  {
    hide AgentInv, After, Enabled, Shows, Earns;
    if steps != [] {
      StepKeepsInv(a, steps[0]);
      if Shows(After(a, steps[0]), k, state) {
        StepEarnsTheEnd(a, steps[0], k, state);
      } else {
        EndIsEarned(After(a, steps[0]), steps[1..], after, k, state);
        var i :| 0 <= i < |steps[1..]| && Earns(steps[1..][i], k, state);
        assert steps[i + 1] == steps[1..][i];
      }
    }
  }

  /** Nothing on disk or in memory says that the attempt's process exited well. */
  predicate Unproven(a: Agent, k: Key) {
    && (k in a.spool ==> !a.spool[k].state.Succeeded? && !a.spool[k].RequiresPublicationRecovery())
    && (k in a.tasks ==> !a.tasks[k].memory.state.Succeeded? && !InStage(a, k, Publishing))
  }

  predicate ExitsWell(step: AgentStep, k: Key) {
    (step.FinishStep? || step.CommitStep?) && step.key == k && step.outcome == Exited(true)
  }

  lemma ExecutionProvesNothing(a: Agent, step: AgentStep, k: Key)
    requires AgentInv(a) && Enabled(a, step) && Unproven(a, k) && !ExitsWell(step, k) && Executes(step)
    ensures Unproven(After(a, step), k)
  {
    hide AgentInv;
    MergedOk(a, step.key);
  }

  lemma StepProvesNothing(a: Agent, step: AgentStep, k: Key)
    requires AgentInv(a) && Enabled(a, step) && Unproven(a, k) && !ExitsWell(step, k)
    ensures Unproven(After(a, step), k)
  {
    hide AgentInv, AdmissionRefuses, AnyProtected, OtherRecoverable, PublicationEnds, PublicationMoves;
    if Executes(step) {
      ExecutionProvesNothing(a, step, k);
    }
  }

  /** Over every history no attempt, Direct or Atomic, succeeds or publishes whose process did not exit well. */
  lemma {:induction false} SuccessNeedsAnExit(a: Agent, steps: seq<AgentStep>, after: Agent, k: Key)
    requires AgentInv(a) && AgentHistory(a, steps, after)
    requires Unproven(a, k) && forall i :: 0 <= i < |steps| ==> !ExitsWell(steps[i], k)
    ensures Unproven(after, k)
    decreases |steps|
  {
    hide AgentInv, After, Enabled, Unproven, ExitsWell;
    if steps != [] {
      StepKeepsInv(a, steps[0]);
      StepProvesNothing(a, steps[0], k);
      assert forall i :: 0 <= i < |steps[1..]| ==> steps[1..][i] == steps[i + 1];
      SuccessNeedsAnExit(After(a, steps[0]), steps[1..], after, k);
    }
  }

  // Cancellation

  /** The answer to a cancellation and what is durable once it is given. */
  lemma CancelTakesHold(a: Agent, k: Key, spec: Spec, written: WriteResult)
    ensures var result, after := CancelResult(a, k, spec, written), AfterCancel(a, k, spec, written);
            && (result.CancelConflict? <==> k in a.spool && a.spool[k].spec != spec)
            && (result.IntentPersisted? ==>
                  && k in after.spool && after.spool[k].cancelRequested && after.spool[k].spec == spec
                  && (after.spool[k].publication.None? ==> BoundToCancel(after.spool[k])))
            && (result.AlreadyEnded? ==> k in after.spool && after.spool[k].state.IsTerminal())
            && (k !in a.spool && written.Stored? ==>
                  result.AlreadyEnded? && after.spool[k].state.Cancelled? && BoundToCancel(after.spool[k]))
            && (k in a.spool && a.spool[k].spec == spec && !a.spool[k].state.IsTerminal() && written.Stored? ==>
                  result.IntentPersisted?)
            && (k in a.spool && (a.spool[k].spec != spec || a.spool[k].state.IsTerminal()) ==> after == a)
            && after.tasks == a.tasks
  {
  }

  /** A Direct attempt whose cancellation was persisted ends cancelled in every history, however it comes to end. */
  lemma PersistedCancellationEnds(
    a: Agent, k: Key, spec: Spec, written: WriteResult, steps: seq<AgentStep>, after: Agent)
    requires AgentInv(a) && CancelResult(a, k, spec, written).IntentPersisted?
    requires k in a.spool && a.spool[k].publication.None?
    requires AgentHistory(AfterCancel(a, k, spec, written), steps, after)
    requires forall i :: 0 <= i < |steps| ==> !steps[i].ResetStep?
    ensures (k in after.spool && BoundToCancel(after.spool[k]))
            || LeavesAs(AfterCancel(a, k, spec, written), steps, k, Cancelled)
  {
    hide AgentInv, AgentHistory, LeavesAs;
    CancelKeepsInv(a, k, spec, written);
    CancelTakesHold(a, k, spec, written);
    CancelledAttemptEndsCancelled(AfterCancel(a, k, spec, written), steps, after, k);
  }

  // What stays on disk

  /** No copy of the record says that the server has the whole log. */
  predicate Unlogged(a: Agent, k: Key) {
    k in a.spool && !a.spool[k].logComplete && (k in a.tasks ==> !a.tasks[k].memory.logComplete)
  }

  predicate CompletesLog(step: AgentStep, k: Key) {
    step.LogStep? && step.key == k && step.complete
  }

  lemma StepKeepsUnlogged(a: Agent, step: AgentStep, k: Key)
    requires AgentInv(a) && Enabled(a, step) && Unlogged(a, k) && !step.ResetStep? && !CompletesLog(step, k)
    ensures Unlogged(After(a, step), k)
  {
    hide AgentInv, AdmissionRefuses, AnyProtected, OtherRecoverable;
    if step.PersistStep? || step.PublishStep? {
      PublicationStays(a, step);
    }
  }

  /** Over every history without a reset, a record stays until the server has acknowledged the whole log. */
  lemma {:induction false} NoRecordLeavesBeforeItsLog(a: Agent, steps: seq<AgentStep>, after: Agent, k: Key)
    requires AgentInv(a) && AgentHistory(a, steps, after) && Unlogged(a, k)
    requires forall i :: 0 <= i < |steps| ==> !steps[i].ResetStep? && !CompletesLog(steps[i], k)
    ensures Unlogged(after, k)
    decreases |steps|
  {
    hide AgentInv, After, Enabled, Unlogged, CompletesLog;
    if steps != [] {
      StepKeepsInv(a, steps[0]);
      StepKeepsUnlogged(a, steps[0], k);
      assert forall i :: 0 <= i < |steps[1..]| ==> steps[1..][i] == steps[i + 1];
      NoRecordLeavesBeforeItsLog(After(a, steps[0]), steps[1..], after, k);
    }
  }

  /** Without a task at work on it, what the server acknowledged of a record is never lowered. */
  lemma AcknowledgementStays(a: Agent, step: AgentStep, k: Key)
    requires AgentInv(a) && Enabled(a, step) && !AtWork(a, k)
    requires k in a.spool && k in After(a, step).spool
    ensures var r, next := a.spool[k], After(a, step).spool[k];
            && r.acknowledged <= next.acknowledged && r.logOffset <= next.logOffset
            && (r.logComplete ==> next.logComplete)
            && (step == AcknowledgeStep(k, next.acknowledged) || r.acknowledged == next.acknowledged)
  {
    hide AgentInv, AdmissionRefuses, AnyProtected, OtherRecoverable;
  }

  /** A reset empties the spool exactly if every publication is over: none begun, undone, or reported to the end. */
  lemma ResetExactly(a: Agent)
    ensures AfterReset(a).spool == map[] <==>
            a.spool == map[] || forall k :: k in a.spool ==>
              var r := a.spool[k];
              || r.publication.None? || r.InPhase(Executing)
              || (&& r.InPhase(CommittedPendingReport) && r.state.Succeeded? && r.acknowledged >= r.sequence
                  && r.logComplete)
    ensures AfterReset(a).spool == map[] || AfterReset(a) == a
  {
    if !AnyProtected(a.spool) {
      forall k | k in a.spool
        ensures var r := a.spool[k];
                r.publication.None? || r.InPhase(Executing) ||
                (r.InPhase(CommittedPendingReport) && r.state.Succeeded? && r.acknowledged >= r.sequence
                 && r.logComplete)
      {
        assert !a.spool[k].HasProtectedPublicationEvidence();
      }
    }
  }
}
