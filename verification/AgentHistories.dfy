/**
  What one agent keeps over every sequence of starts, cancellations, executions,
  restarts, recoveries, reconciliations and operator commands.
 */
module AgentHistories {
  import opened Common
  import opened Lifecycle
  import opened StoreModel
  import opened Spool
  import opened AgentModel

  lemma RecordChange(a: Agent, k: Key, r: SpoolRecord)
    requires AgentInv(a) && RecordOk(r) && k in a.spool
    requires Live(a, k) ==> TaskOk(a.tasks[k], r)
    requires InStage(a, k, Publishing) ==> PublishingOk(a.tasks[k].memory, r)
    ensures AgentInv(a.(spool := a.spool[k := r]))
  {
  }

  lemma NewRecord(a: Agent, k: Key, r: SpoolRecord)
    requires AgentInv(a) && RecordOk(r) && k !in a.spool
    ensures AgentInv(a.(spool := a.spool[k := r]))
  {
  }

  lemma AcceptKeepsInv(a: Agent, k: Key, spec: Spec, identity: Option<Name>, admission: Admission)
    requires AgentInv(a)
    ensures AgentInv(AfterAccept(a, k, spec, identity, admission))
  {
    hide AdmissionRefuses;
    assert RecordOk(AcceptedRecord(spec, identity)) && RecordOk(RejectedRecord(spec, identity));
    match AcceptResult(a, k, spec, identity, admission)
    case RejectedHere => NewRecord(a, k, RejectedRecord(spec, identity));
    case NotPersisted => NewRecord(a, k, AcceptedRecord(spec, identity));
    case _ =>
  }

  lemma SpawnKeepsInv(a: Agent, k: Key, written: WriteResult)
    requires AgentInv(a) && Enabled(a, SpawnStep(k, written))
    ensures AgentInv(AfterSpawn(a, k, written))
  {
    assert TaskOk(a.tasks[k], a.spool[k]) && RecordOk(a.spool[k]);
  }

  lemma TaskEndKeepsInv(a: Agent, k: Key, ended: SpoolRecord, written: WriteResult)
    requires AgentInv(a) && RecordOk(ended)
    ensures AgentInv(AfterTask(a, k, ended, written))
  {
  }

  lemma MergedOk(a: Agent, k: Key)
    requires AgentInv(a) && Live(a, k)
    ensures k in a.spool
    ensures RecordOk(Merged(a, k)) && !Merged(a, k).state.IsTerminal() && Merged(a, k).spec == a.spool[k].spec
    ensures Merged(a, k).cancelRequested == a.spool[k].cancelRequested
    ensures Merged(a, k).publication == a.spool[k].publication
    ensures Merged(a, k).publication.Some? ==> Merged(a, k).InPhase(Executing)
  {
    assert TaskOk(a.tasks[k], a.spool[k]) && RecordOk(a.spool[k]);
  }

  lemma RemovalKeepsInv(a: Agent, k: Key)
    requires AgentInv(a) && !AtWork(a, k)
    ensures AgentInv(a.(spool := Without(a.spool, k)))
  {
  }

  lemma CommitKeepsInv(a: Agent, k: Key, outcome: Outcome)
    requires AgentInv(a) && Enabled(a, CommitStep(k, outcome))
    ensures AgentInv(After(a, CommitStep(k, outcome)))
  {
    assert TaskOk(a.tasks[k], a.spool[k]) && RecordOk(a.spool[k]);
  }

  lemma PersistKeepsInv(a: Agent, k: Key, record: SpoolRecord)
    requires AgentInv(a) && Enabled(a, PersistStep(k, record))
    ensures AgentInv(After(a, PersistStep(k, record)))
  {
    var m := a.tasks[k].memory;
    assert PublishingOk(m, a.spool[k]) && RecordOk(a.spool[k]);
    PersistedOk(m, a.spool[k], record);
    RecordChange(a, k, record);
  }

  lemma PersistedOk(m: SpoolRecord, r: SpoolRecord, record: SpoolRecord)
    requires PublishingOk(m, r) && PublicationEnds(m, record) && !record.IsFence()
    ensures PublishingOk(m, record) && RecordOk(record)
  {
  }

  lemma ExecutionKeepsInv(a: Agent, step: AgentStep)
    requires AgentInv(a) && Enabled(a, step)
    requires step.LaunchFailsStep? || step.FinishStep?
    ensures AgentInv(After(a, step))
  {
    hide AgentInv;
    MergedOk(a, step.key);
    match step
    case LaunchFailsStep(k, kind, written) => TaskEndKeepsInv(a, k, LaunchFailure(Merged(a, k), kind), written);
    case FinishStep(k, outcome, written) => TaskEndKeepsInv(a, k, FinalRecord(Merged(a, k), outcome), written);
  }

  lemma BookkeepingKeepsInv(a: Agent, step: AgentStep)
    requires AgentInv(a) && Enabled(a, step)
    requires step.AcknowledgeStep? || step.LogStep? || step.RecoverStep? || step.AbandonStep?
    ensures AgentInv(After(a, step))
  {
    var k := step.key;
    assert RecordOk(a.spool[k]);
    if Live(a, k) {
      assert TaskOk(a.tasks[k], a.spool[k]);
    }
    if InStage(a, k, Publishing) {
      assert PublishingOk(a.tasks[k].memory, a.spool[k]);
    }
    RecordChange(a, k, After(a, step).spool[k]);
  }

  lemma NormalizeKeepsInv(a: Agent, k: Key, written: WriteResult)
    requires AgentInv(a) && Enabled(a, NormalizeStep(k, written))
    ensures AgentInv(After(a, NormalizeStep(k, written)))
  {
    assert RecordOk(a.spool[k]);
    TaskEndKeepsInv(a, k, RecoveredRecord(a.spool[k]), written);
  }

  lemma CancelKeepsInv(a: Agent, k: Key, spec: Spec, written: WriteResult)
    requires AgentInv(a)
    ensures AgentInv(AfterCancel(a, k, spec, written))
  {
    if !written.NotStored? && k !in a.spool {
      NewRecord(a, k, CancellationTombstone(spec));
    } else if !written.NotStored? && a.spool[k].spec == spec && !a.spool[k].state.IsTerminal() {
      assert RecordOk(a.spool[k]);
      if Live(a, k) {
        assert TaskOk(a.tasks[k], a.spool[k]);
      }
      if InStage(a, k, Publishing) {
        assert PublishingOk(a.tasks[k].memory, a.spool[k]);
      }
      RecordChange(a, k, a.spool[k].(cancelRequested := true));
    }
  }

  lemma EndedIsNotLive(a: Agent, k: Key)
    requires AgentInv(a) && k in a.spool && a.spool[k].state.IsTerminal()
    ensures !Live(a, k)
  {
  }

  lemma SyncKeepsInv(a: Agent, k: Key)
    requires AgentInv(a) && Enabled(a, SyncStep(k))
    ensures AgentInv(After(a, SyncStep(k)))
  {
    assert TaskOk(a.tasks[k], a.spool[k]);
  }

  lemma StepKeepsInv(a: Agent, step: AgentStep)
    requires AgentInv(a) && Enabled(a, step)
    ensures AgentInv(After(a, step))
  {
    hide AgentInv;
    match step
    case AcceptStep(k, spec, identity, admission) => AcceptKeepsInv(a, k, spec, identity, admission);
    case CancelStep(k, spec, written) => CancelKeepsInv(a, k, spec, written);
    case SyncStep(k) => SyncKeepsInv(a, k);
    case SpawnStep(k, written) => SpawnKeepsInv(a, k, written);
    case RestartStep => EmptyKeepsInv(a);
    case RetireStep(k) =>
      RemovableIsFree(a, k);
      RemovalKeepsInv(a, k);
    case ClearFenceStep(k, _, _, _) =>
      RemovableIsFree(a, k);
      RemovalKeepsInv(a, k);
    case ResetStep => EmptyKeepsInv(a);
    case AcknowledgeStep(_, _) => BookkeepingKeepsInv(a, step);
    case LogStep(_, _, _) => BookkeepingKeepsInv(a, step);
    case NormalizeStep(k, written) => NormalizeKeepsInv(a, k, written);
    case DropStep(k) => DropKeepsInv(a, k);
    case CommitStep(k, outcome) => CommitKeepsInv(a, k, outcome);
    case PersistStep(k, record) => PersistKeepsInv(a, k, record);
    case PublishStep(k, ended) => LeaveKeepsInv(a, k, Task(ended, Ended));
    case RecoverStep(_, _) => BookkeepingKeepsInv(a, step);
    case AbandonStep(_, _, _, _) => BookkeepingKeepsInv(a, step);
    case _ => ExecutionKeepsInv(a, step);
  }

  lemma DropKeepsInv(a: Agent, k: Key)
    requires AgentInv(a) && InStage(a, k, Ended)
    ensures AgentInv(a.(tasks := Without(a.tasks, k)))
  {
    var b := a.(tasks := Without(a.tasks, k));
    forall j | Live(b, j) ensures j in a.spool && TaskOk(a.tasks[j], a.spool[j]) {
      assert Live(a, j);
    }
    forall j | InStage(b, j, Publishing) ensures j in a.spool && PublishingOk(a.tasks[j].memory, a.spool[j]) {
      assert InStage(a, j, Publishing);
    }
  }

  lemma LeaveKeepsInv(a: Agent, k: Key, task: Task)
    requires AgentInv(a) && task.stage.Ended?
    ensures AgentInv(a.(tasks := a.tasks[k := task]))
  {
  }

  /** A record that may be removed, or has no publication, is not being published. */
  lemma PublishingIsKept(a: Agent, k: Key)
    requires AgentInv(a) && InStage(a, k, Publishing)
    ensures k in a.spool && !a.spool[k].ReadyForCleanup() && !a.spool[k].IsFence() && a.spool[k].publication.Some?
  {
    assert PublishingOk(a.tasks[k].memory, a.spool[k]);
  }

  /** No task is at work on a record that may be removed. */
  lemma RemovableIsFree(a: Agent, k: Key)
    requires AgentInv(a) && k in a.spool && (a.spool[k].ReadyForCleanup() || a.spool[k].IsFence())
    ensures !AtWork(a, k) && a.spool[k].state.IsTerminal()
  {
    hide AgentInv;
    if a.spool[k].IsFence() {
      FenceHasEnded(a, k);
    }
    EndedIsNotLive(a, k);
    if InStage(a, k, Publishing) {
      PublishingIsKept(a, k);
    }
  }

  lemma FenceHasEnded(a: Agent, k: Key)
    requires AgentInv(a) && k in a.spool && a.spool[k].IsFence()
    ensures a.spool[k].state.IsTerminal()
  {
    assert RecordOk(a.spool[k]);
  }

  lemma EmptyKeepsInv(a: Agent)
    requires AgentInv(a)
    ensures AgentInv(a.(tasks := map[])) && (a.tasks == map[] ==> AgentInv(a.(spool := map[])))
  {
  }

  // Fences

  predicate Fences(a: Agent, k: Key, mirror: Name, spec: Spec) {
    k in a.spool && a.spool[k].IsFence() && IsExactly(a.spool[k], mirror, spec)
  }

  /** The only step that removes a fence: `clear_fence` on its exact identity. */
  predicate ClearsExactly(step: AgentStep, k: Key, mirror: Name, spec: Spec) {
    step.ClearFenceStep? && step.key == k && step.mirror == mirror && step.spec == spec
  }

  lemma FenceSurvivesStep(a: Agent, step: AgentStep, k: Key, mirror: Name, spec: Spec)
    requires AgentInv(a) && Enabled(a, step) && Fences(a, k, mirror, spec)
    requires !ClearsExactly(step, k, mirror, spec)
    ensures Fences(After(a, step), k, mirror, spec)
    ensures After(a, step).spool[k].state == a.spool[k].state && After(a, step).spool[k].sequence == a.spool[k].sequence
  {
    hide AgentInv, AdmissionRefuses;
    RemovableIsFree(a, k);
    if step.ResetStep? {
      assert a.spool[k].HasProtectedPublicationEvidence();
    }
  }

  /** A start that names a fenced mirror, by identity or by its publication, is not accepted and runs nothing. */
  lemma FencedMirrorIsNotStarted(
    a: Agent, k: Key, mirror: Name, spec: Spec, other: Key, started: Spec, identity: Option<Name>, admission: Admission)
    requires Fences(a, k, mirror, spec)
    requires identity == Some(mirror) || PublicationMirror(started) == Some(mirror)
    ensures var result := AcceptResult(a, other, started, identity, admission);
            !result.AcceptedHere? && !result.NotPersisted?
    ensures AfterAccept(a, other, started, identity, admission).tasks == a.tasks
  {
    if NamedMirror(identity, started) == Some(mirror) {
      assert Blocks(a.spool[k], mirror, PublicationMirror(started).Some?);
    }
  }

  ghost predicate NeverCleared(steps: seq<AgentStep>, k: Key, mirror: Name, spec: Spec) {
    forall i :: 0 <= i < |steps| ==> !ClearsExactly(steps[i], k, mirror, spec)
  }

  /** Whether some step of the history begins a task under a start naming the mirror. */
  ghost predicate StartsWriter(a: Agent, steps: seq<AgentStep>, mirror: Name)
    decreases |steps|
  {
    && steps != [] && Enabled(a, steps[0])
    && ((steps[0].AcceptStep?
         && (steps[0].identity == Some(mirror) || PublicationMirror(steps[0].spec) == Some(mirror))
         && After(a, steps[0]).tasks != a.tasks)
        || StartsWriter(After(a, steps[0]), steps[1..], mirror))
  }

  /** From abandonment to clearing, the fence outlives every step and no writer of the mirror starts. */
  lemma {:induction false} FencePersists(
    a: Agent, steps: seq<AgentStep>, after: Agent, k: Key, mirror: Name, spec: Spec)
    requires AgentInv(a) && AgentHistory(a, steps, after)
    requires Fences(a, k, mirror, spec) && NeverCleared(steps, k, mirror, spec)
    ensures Fences(after, k, mirror, spec) && !StartsWriter(a, steps, mirror)
    decreases |steps|
  {
    hide AgentInv, After, Enabled;
    if steps != [] {
      var step := steps[0];
      StepKeepsInv(a, step);
      FenceSurvivesStep(a, step, k, mirror, spec);
      if step.AcceptStep? {
        StartIsAccept(a, step);
        if step.identity == Some(mirror) || PublicationMirror(step.spec) == Some(mirror) {
          FencedMirrorIsNotStarted(a, k, mirror, spec, step.key, step.spec, step.identity, step.admission);
        }
      }
      assert forall i :: 0 <= i < |steps[1..]| ==> steps[1..][i] == steps[i + 1];
      FencePersists(After(a, step), steps[1..], after, k, mirror, spec);
    }
  }

  lemma StartIsAccept(a: Agent, step: AgentStep)
    requires step.AcceptStep? && Enabled(a, step)
    ensures After(a, step) == AfterAccept(a, step.key, step.spec, step.identity, step.admission)
  {
  }

  /** Abandoning is what makes a fence: of the exact attempt, visible but not durable, and it reports a failure. */
  lemma AbandonFences(a: Agent, k: Key, mirror: Name, spec: Spec)
    requires Enabled(a, AbandonStep(k, mirror, spec, Stored))
    ensures var after := After(a, AbandonStep(k, mirror, spec, Stored));
            && Fences(after, k, mirror, spec) && after.spool[k].state.Failed?
            && after.spool[k].failure == Some(PublicationDurability)
            && after.spool[k].sequence == a.spool[k].sequence + 1
            && !after.spool[k].ReadyForCleanup() && AnyProtected(after.spool)
  {
  }

  // Cancellation

  /** A Direct attempt whose cancellation is durable: not ended, or ended as cancelled. */
  predicate BoundToCancel(r: SpoolRecord) {
    r.publication.None? && r.cancelRequested && (!r.state.IsTerminal() || r.state.Cancelled?)
  }

  /**
    Exit, timeout, spawn failure, restart or anything else: the only end is Cancelled, and
    only an ended record goes.
   */
  lemma CancellationSurvivesStep(a: Agent, step: AgentStep, k: Key)
    requires AgentInv(a) && Enabled(a, step) && !step.ResetStep?
    requires k in a.spool && BoundToCancel(a.spool[k])
    ensures var after := After(a, step);
            if k in after.spool then BoundToCancel(after.spool[k]) else a.spool[k].state.Cancelled?
    ensures a.spool[k].state.Cancelled? && k in After(a, step).spool ==> After(a, step).spool[k].state.Cancelled?
  {
    hide AgentInv, AdmissionRefuses, AnyProtected, OtherRecoverable, PublicationEnds;
    if InStage(a, k, Publishing) {
      PublishingIsKept(a, k);
    }
    if a.spool[k].state.IsTerminal() {
      EndedIsNotLive(a, k);
    }
    if Live(a, k) {
      MergedOk(a, k);
    }
  }

  /** The state in which the record left the spool, if it did. */
  ghost predicate LeavesAs(a: Agent, steps: seq<AgentStep>, k: Key, state: AttemptState)
    decreases |steps|
  {
    && steps != [] && Enabled(a, steps[0]) && k in a.spool
    && ((k !in After(a, steps[0]).spool && a.spool[k].state == state)
        || (k in After(a, steps[0]).spool && LeavesAs(After(a, steps[0]), steps[1..], k, state)))
  }

  /**
    Over every history without a spool reset, a cancelled Direct attempt stays on its way
    to Cancelled until it retires so.
   */
  lemma {:induction false} CancelledAttemptEndsCancelled(a: Agent, steps: seq<AgentStep>, after: Agent, k: Key)
    requires AgentInv(a) && AgentHistory(a, steps, after)
    requires forall i :: 0 <= i < |steps| ==> !steps[i].ResetStep?
    requires k in a.spool && BoundToCancel(a.spool[k])
    ensures (k in after.spool && BoundToCancel(after.spool[k])) || LeavesAs(a, steps, k, Cancelled)
    decreases |steps|
  {
    hide AgentInv, After, Enabled, BoundToCancel;
    if steps != [] {
      StepKeepsInv(a, steps[0]);
      CancellationSurvivesStep(a, steps[0], k);
      if k in After(a, steps[0]).spool {
        assert forall i :: 0 <= i < |steps[1..]| ==> steps[1..][i] == steps[i + 1];
        CancelledAttemptEndsCancelled(After(a, steps[0]), steps[1..], after, k);
      }
    }
  }

  // Numbers

  /** The number under which the record ends its attempt, or will once it ends. */
  function Number(r: SpoolRecord): nat {
    if r.state.IsTerminal() then r.sequence else r.sequence + 1
  }

  /** Whatever of its writes fail, an execution ends, on disk and in memory, under the number its record had. */
  predicate KeepsOneNumber(a: Agent, step: AgentStep) {
    (step.LaunchFailsStep? || step.FinishStep? || step.PersistStep? || step.PublishStep?) && Enabled(a, step) ==>
      EndsUnder(After(a, step), step.key, Number(Merged(a, step.key)))
  }

  predicate EndsUnder(a: Agent, k: Key, number: nat) {
    k in a.spool && Number(a.spool[k]) == number && (InStage(a, k, Ended) ==> Number(a.tasks[k].memory) == number)
  }

  /** Once a publication has persisted anything, its record has the number of the execution it ends. */
  ghost predicate Numbered(a: Agent) {
    forall k :: InStage(a, k, Publishing) && k in a.spool && !a.spool[k].state.Accepted? ==>
      Number(a.spool[k]) == Number(a.tasks[k].memory)
  }

  /** An attempt whose end may still come under another number: it has not persisted that it ran. */
  predicate Undecided(a: Agent, k: Key) {
    Live(a, k) || (InStage(a, k, Publishing) && k in a.spool && a.spool[k].state.Accepted?)
  }

  lemma ArrivalKeepsNumbered(a: Agent, step: AgentStep)
    requires AgentInv(a) && Numbered(a)
    ensures step.AcceptStep? ==> Numbered(AfterAccept(a, step.key, step.spec, step.identity, step.admission))
    ensures step.CancelStep? ==> Numbered(AfterCancel(a, step.key, step.spec, step.written))
  {
    hide AgentInv, Numbered, AfterAccept, AfterCancel;
    if step.AcceptStep? || step.CancelStep? {
      StepKeepsNumbered(a, step);
    }
  }

  lemma EndedIsDecided(a: Agent, k: Key)
    requires AgentInv(a) && k in a.spool && a.spool[k].state.IsTerminal()
    ensures !Undecided(a, k)
  {
    hide AgentInv;
    EndedIsNotLive(a, k);
  }

  lemma CommitKeepsNumbered(a: Agent, k: Key, outcome: Outcome)
    requires AgentInv(a) && Numbered(a) && Enabled(a, CommitStep(k, outcome))
    ensures Numbered(After(a, CommitStep(k, outcome)))
  {
    assert TaskOk(a.tasks[k], a.spool[k]);
  }

  lemma StepKeepsNumbered(a: Agent, step: AgentStep)
    requires AgentInv(a) && Numbered(a) && Enabled(a, step) && KeepsOneNumber(a, step)
    ensures Numbered(After(a, step))
  {
    hide AgentInv, AdmissionRefuses, AnyProtected, OtherRecoverable, PublicationEnds;
    forall k | InStage(a, k, Publishing) ensures k in a.spool {
      PublishingIsKept(a, k);
    }
    if step.CommitStep? {
      CommitKeepsNumbered(a, step.key, step.outcome);
    }
  }
}
