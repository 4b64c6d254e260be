/**
  One agent: its spool, its active attempts as tasks, and what each locked step
  does to them. A task holds its own copy of the record and writes it back, merging
  only the cancellation flag from disk.
 */
module AgentModel {
  import opened Common
  import opened Lifecycle
  import opened StoreModel
  import opened Spool

  /**
    How far a task has come: before its process, with its process, publishing after it,
    or left with an outcome to report.
   */
  datatype Stage = Starting | Launched | Publishing | Ended

  datatype Task = Task(memory: SpoolRecord, stage: Stage)

  datatype Agent = Agent(spool: map<Key, SpoolRecord>, tasks: map<Key, Task>)

  /** A failing write may still have replaced the file. */
  datatype WriteResult = Stored | NotStored | StoredUnreported

  function Replace(spool: map<Key, SpoolRecord>, k: Key, r: SpoolRecord, written: WriteResult): map<Key, SpoolRecord> {
    if written.NotStored? then spool else spool[k := r]
  }

  // Start

  /** What the agent's configuration and namespace say of a Start. */
  datatype Admission = Admission(policyAllows: bool, generationsPass: bool, maxConcurrent: nat, written: WriteResult)

  function NamedMirror(identity: Option<Name>, spec: Spec): Option<Name> {
    if identity.Some? then identity else PublicationMirror(spec)
  }

  predicate Blocks(r: SpoolRecord, mirror: Name, atomic: bool) {
    && r.publication.Some? && r.publication.value.mirror == mirror
    && (r.IsFence() || (atomic && r.RequiresPublicationRecovery()))
  }

  predicate AdmissionRefuses(spool: map<Key, SpoolRecord>, identity: Option<Name>, spec: Spec, generationsPass: bool) {
    var mirror, atomic := NamedMirror(identity, spec), PublicationMirror(spec).Some?;
    || (identity.Some? && atomic && identity != PublicationMirror(spec))
    || (mirror.Some? && exists k :: k in spool && Blocks(spool[k], mirror.value, atomic))
    || (atomic && !generationsPass)
  }

  datatype AcceptOutcome = Known | Conflicting | NoRoom | RejectedHere | NotPersisted | AcceptedHere

  function AcceptResult(a: Agent, k: Key, spec: Spec, identity: Option<Name>, admission: Admission): AcceptOutcome {
    if k in a.spool then
      if a.spool[k].spec != spec || a.spool[k].identity != identity then Conflicting else Known
    else if k in a.tasks || |a.tasks| >= admission.maxConcurrent then NoRoom
    else if !admission.policyAllows then RejectedHere
    else if AdmissionRefuses(a.spool, identity, spec, admission.generationsPass) then RejectedHere
    else if !admission.written.Stored? then NotPersisted
    else AcceptedHere
  }

  function AfterAccept(a: Agent, k: Key, spec: Spec, identity: Option<Name>, admission: Admission): Agent {
    match AcceptResult(a, k, spec, identity, admission)
    case RejectedHere => a.(spool := Replace(a.spool, k, RejectedRecord(spec, identity), admission.written))
    case NotPersisted => a.(spool := Replace(a.spool, k, AcceptedRecord(spec, identity), admission.written))
    case AcceptedHere =>
      Agent(a.spool[k := AcceptedRecord(spec, identity)], a.tasks[k := Task(AcceptedRecord(spec, identity), Starting)])
    case _ => a
  }

  // Cancel

  datatype CancelOutcome = CancelConflict | AlreadyEnded | IntentPersisted | CancelNotPersisted

  function CancelResult(a: Agent, k: Key, spec: Spec, written: WriteResult): CancelOutcome {
    var r := if k in a.spool then a.spool[k] else CancellationTombstone(spec);
    if r.spec != spec then CancelConflict
    else if k in a.spool && r.state.IsTerminal() then AlreadyEnded
    else if !written.Stored? then CancelNotPersisted
    else if r.state.IsTerminal() then AlreadyEnded
    else IntentPersisted
  }

  function AfterCancel(a: Agent, k: Key, spec: Spec, written: WriteResult): Agent {
    if k !in a.spool then a.(spool := Replace(a.spool, k, CancellationTombstone(spec), written))
    else if a.spool[k].spec != spec || a.spool[k].state.IsTerminal() then a
    else a.(spool := Replace(a.spool, k, a.spool[k].(cancelRequested := true), written))
  }

  // Execution

  /** A task whose process is yet to start or may be alive. */
  predicate Live(a: Agent, k: Key) {
    k in a.tasks && (a.tasks[k].stage.Starting? || a.tasks[k].stage.Launched?)
  }

  /** A task that has not left its attempt; publishing, it holds the acceptance lock. */
  predicate AtWork(a: Agent, k: Key) {
    k in a.tasks && !a.tasks[k].stage.Ended?
  }

  predicate InStage(a: Agent, k: Key, stage: Stage) {
    k in a.tasks && a.tasks[k].stage == stage
  }

  /** What is written back: the copy in memory with the cancellation flag found on disk. */
  function Merged(a: Agent, k: Key): SpoolRecord
    requires k in a.tasks
  {
    var memory := a.tasks[k].memory;
    if k in a.spool then memory.(cancelRequested := memory.cancelRequested || a.spool[k].cancelRequested) else memory
  }

  function RunningRecord(r: SpoolRecord): SpoolRecord {
    r.(state := Running, sequence := r.sequence + 1)
  }

  function AfterSpawn(a: Agent, k: Key, written: WriteResult): Agent
    requires k in a.tasks
  {
    var running := RunningRecord(Merged(a, k));
    Agent(Replace(a.spool, k, running, written), a.tasks[k := Task(running, Launched)])
  }

  function LaunchFailure(r: SpoolRecord, kind: FailureKind): SpoolRecord {
    if r.cancelRequested then r.Terminal(Cancelled, None) else r.Terminal(Failed, Some(kind))
  }

  /** The end of a task: its outcome stays in memory to be reported, whether or not the write reached the disk. */
  function AfterTask(a: Agent, k: Key, ended: SpoolRecord, written: WriteResult): Agent {
    Agent(Replace(a.spool, k, ended, written), a.tasks[k := Task(ended, Ended)])
  }

  /** What a publication makes of an execution's record: a move, or a failure that is reported a second time. */
  predicate PublicationEnds(r: SpoolRecord, ended: SpoolRecord) {
    || PublicationMoves(r, ended)
    || (&& ended.InPhase(Executing) && ended.state.Failed? && ended.sequence == r.sequence + 2
        && r.publication.Some? && ended.publication.value.mirror == r.publication.value.mirror
        && ended == r.(state := Failed, sequence := ended.sequence, failure := ended.failure,
                       publication := ended.publication))
  }

  // Restart, reconciliation and retirement

  /** `recover`'s normalization; records in a recovery phase are publication's. */
  function RecoveredRecord(r: SpoolRecord): SpoolRecord {
    if r.RequiresPublicationRecovery() || r.state.IsTerminal() then r
    else if r.cancelRequested then r.Terminal(Cancelled, None)
    else r.Terminal(Interrupted, Some(InterruptedFailure))
  }

  predicate NeedsNormalizing(r: SpoolRecord) {
    !r.RequiresPublicationRecovery() && !r.state.IsTerminal()
  }

  predicate AnyProtected(spool: map<Key, SpoolRecord>) {
    exists k :: k in spool && spool[k].HasProtectedPublicationEvidence()
  }

  function AfterReset(a: Agent): Agent {
    if AnyProtected(a.spool) then a else a.(spool := map[])
  }

  // Operator commands

  predicate IsExactly(r: SpoolRecord, mirror: Name, spec: Spec) {
    r.publication.Some? && r.publication.value.mirror == mirror && r.spec == spec
  }

  predicate MayAbandon(spool: map<Key, SpoolRecord>, k: Key, mirror: Name, spec: Spec) {
    k in spool && IsExactly(spool[k], mirror, spec) && spool[k].InPhase(VisiblePendingDurability)
  }

  predicate OtherRecoverable(spool: map<Key, SpoolRecord>, k: Key, mirror: Name) {
    exists j ::
      j in spool && j != k && spool[j].RequiresPublicationRecovery() && spool[j].publication.value.mirror == mirror
  }

  /** `verified` is the check that the fenced tree is public and its predecessor in the exchange slot. */
  predicate MayClearFence(spool: map<Key, SpoolRecord>, k: Key, mirror: Name, spec: Spec, verified: bool) {
    && k in spool && IsExactly(spool[k], mirror, spec) && spool[k].IsFence()
    && spool[k].acknowledged >= spool[k].sequence && spool[k].logComplete
    && verified && !OtherRecoverable(spool, k, mirror)
  }

  /** What the agent may report of an attempt: its record on disk, or the outcome still in memory. */
  predicate MayReport(a: Agent, k: Key, e: AttemptEvent) {
    || (k in a.spool && EventToSend(a.spool[k]) == Some(e))
    || (InStage(a, k, Ended) && EventToSend(a.tasks[k].memory) == Some(e))
  }

  // Steps and histories

  datatype AgentStep =
    | AcceptStep(key: Key, spec: Spec, identity: Option<Name>, admission: Admission)
    | CancelStep(key: Key, spec: Spec, written: WriteResult)
    | SyncStep(key: Key)
    | SpawnStep(key: Key, written: WriteResult)
    | LaunchFailsStep(key: Key, kind: FailureKind, written: WriteResult)
    | FinishStep(key: Key, outcome: Outcome, written: WriteResult)
    | CommitStep(key: Key, outcome: Outcome)
    | PersistStep(key: Key, record: SpoolRecord)
    | PublishStep(key: Key, ended: SpoolRecord)
    | DropStep(key: Key)
    | RestartStep
    | NormalizeStep(key: Key, written: WriteResult)
    | RecoverStep(key: Key, recovered: SpoolRecord)
    | AcknowledgeStep(key: Key, sequence: nat)
    | LogStep(key: Key, offset: nat, complete: bool)
    | RetireStep(key: Key)
    | AbandonStep(key: Key, mirror: Name, spec: Spec, written: WriteResult)
    | ClearFenceStep(key: Key, mirror: Name, spec: Spec, verified: bool)
    | ResetStep

  /**
    When a step can happen. An execution that goes on to publish commits, persists any
    number of records that readers may see one by one, and ends; the records are any its
    moves allow. Meanwhile it holds the lock that recovery and the operator need.
   */
  predicate Enabled(a: Agent, step: AgentStep) {
    match step
    case AcceptStep(_, _, _, _) => true
    case CancelStep(_, _, _) => true
    case SyncStep(k) => InStage(a, k, Starting) && k in a.spool
    case SpawnStep(k, _) => InStage(a, k, Starting)
    case LaunchFailsStep(k, _, _) => InStage(a, k, Starting)
    case FinishStep(k, outcome, _) => InStage(a, k, Launched) && !GoesOnToPublish(Merged(a, k), outcome)
    case CommitStep(k, outcome) => InStage(a, k, Launched) && GoesOnToPublish(Merged(a, k), outcome)
    case PersistStep(k, record) =>
      InStage(a, k, Publishing) && PublicationEnds(a.tasks[k].memory, record) && !record.IsFence()
    case PublishStep(k, ended) => InStage(a, k, Publishing) && PublicationEnds(a.tasks[k].memory, ended)
    case DropStep(k) => InStage(a, k, Ended)
    case RestartStep => true
    case NormalizeStep(k, _) => k in a.spool && !AtWork(a, k) && NeedsNormalizing(a.spool[k])
    case RecoverStep(k, recovered) =>
      && k in a.spool && !AtWork(a, k) && a.spool[k].RequiresPublicationRecovery()
      && PublicationMoves(a.spool[k], recovered) && !recovered.IsFence()
    case AcknowledgeStep(k, _) => k in a.spool
    case LogStep(k, _, complete) =>
      && k in a.spool && !InStage(a, k, Publishing)
      && (complete ==> a.spool[k].state.IsTerminal() || (InStage(a, k, Ended) && a.tasks[k].memory.state.IsTerminal()))
    case RetireStep(k) => k in a.spool && a.spool[k].ReadyForCleanup()
    case AbandonStep(k, mirror, spec, _) => !AtWork(a, k) && MayAbandon(a.spool, k, mirror, spec)
    case ClearFenceStep(k, mirror, spec, verified) => MayClearFence(a.spool, k, mirror, spec, verified)
    case ResetStep => a.tasks == map[]
  }

  function After(a: Agent, step: AgentStep): Agent
    requires Enabled(a, step)
  {
    match step
    case AcceptStep(k, spec, identity, admission) => AfterAccept(a, k, spec, identity, admission)
    case CancelStep(k, spec, written) => AfterCancel(a, k, spec, written)
    case SyncStep(k) => a.(tasks := a.tasks[k := Task(a.spool[k], Starting)])
    case SpawnStep(k, written) => AfterSpawn(a, k, written)
    case LaunchFailsStep(k, kind, written) => AfterTask(a, k, LaunchFailure(Merged(a, k), kind), written)
    case FinishStep(k, outcome, written) => AfterTask(a, k, FinalRecord(Merged(a, k), outcome), written)
    case CommitStep(k, _) => a.(tasks := a.tasks[k := Task(Merged(a, k), Publishing)])
    case PersistStep(k, record) => a.(spool := a.spool[k := record])
    case PublishStep(k, ended) => a.(tasks := a.tasks[k := Task(ended, Ended)])
    case DropStep(k) => a.(tasks := Without(a.tasks, k))
    case RestartStep => a.(tasks := map[])
    case NormalizeStep(k, written) => AfterTask(a, k, RecoveredRecord(a.spool[k]), written)
    case RecoverStep(k, recovered) => a.(spool := a.spool[k := recovered])
    case AcknowledgeStep(k, sequence) => a.(spool := a.spool[k := Acknowledge(a.spool[k], sequence)])
    case LogStep(k, offset, complete) => a.(spool := a.spool[k := AcknowledgeLog(a.spool[k], offset, complete)])
    case RetireStep(k) => a.(spool := Without(a.spool, k))
    case AbandonStep(k, _, _, written) => a.(spool := Replace(a.spool, k, FencedRecord(a.spool[k]), written))
    case ClearFenceStep(k, _, _, _) => a.(spool := Without(a.spool, k))
    case ResetStep => AfterReset(a)
  }

  ghost predicate AgentHistory(a: Agent, steps: seq<AgentStep>, after: Agent)
    decreases |steps|
  {
    if steps == [] then after == a
    else Enabled(a, steps[0]) && AgentHistory(After(a, steps[0]), steps[1..], after)
  }

  /** A record whose process may be alive, and the copy of it in memory. */
  predicate TaskOk(task: Task, r: SpoolRecord) {
    var m := task.memory;
    && !r.state.IsTerminal() && (r.publication.Some? ==> r.InPhase(Executing)) && !r.logComplete
    && m == r.(cancelRequested := m.cancelRequested, acknowledged := m.acknowledged, logOffset := m.logOffset,
               logComplete := m.logComplete, state := m.state, sequence := m.sequence)
    && !m.logComplete && (m.cancelRequested ==> r.cancelRequested) && m.acknowledged <= r.acknowledged
    && (if task.stage.Launched? then m.state.Running? && m.sequence == 2 else m.state.Accepted? && m.sequence == 1)
    && ((r.state == m.state && r.sequence == m.sequence)
        || (task.stage.Launched? && r.state.Accepted? && r.sequence == 1))
  }

  /** The record of an attempt that is publishing, and the execution's record it started from. */
  predicate PublishingOk(m: SpoolRecord, r: SpoolRecord) {
    && m.state.Running? && m.sequence == 2 && m.InPhase(Executing) && !m.logComplete && m.acknowledged <= r.acknowledged
    && r.spec == m.spec && r.publication.Some? && r.publication.value.mirror == m.publication.value.mirror
    && m.publication.value.mirror == m.spec.mirror && m.spec.document.mode.Atomic?
    && !r.IsFence() && !r.logComplete
    && (if r.state.IsTerminal() then 3 <= r.sequence <= 4
        else r == r.(state := Running, sequence := 2) || r == r.(state := Accepted, sequence := 1))
  }

  predicate RecordOk(r: SpoolRecord) {
    && (r.IsFence() ==> r.state.Failed?)
    && (r.publication.Some? && r.state.IsTerminal() ==>
          r.InPhase(Executing) || r.InPhase(CommittedPendingReport) || r.IsFence())
    && (!r.state.IsTerminal() ==> !r.state.Queued?)
    && (r.publication.Some? ==> r.publication.value.mirror == r.spec.mirror && r.spec.document.mode.Atomic?)
  }

  ghost predicate AgentInv(a: Agent) {
    && (forall k :: k in a.spool ==> RecordOk(a.spool[k]))
    && (forall k :: Live(a, k) ==> k in a.spool && TaskOk(a.tasks[k], a.spool[k]))
    && (forall k :: InStage(a, k, Publishing) ==> k in a.spool && PublishingOk(a.tasks[k].memory, a.spool[k]))
  }
}
