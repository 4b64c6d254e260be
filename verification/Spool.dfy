/**
  The agent's durable spool record: one per attempt, replaced atomically on disk.

  Paths are functions of the mirror or of the attempt, so a record stores only
  whether it rotates a previous generation. Message texts and timestamps are absent.
 */
module Spool {
  import opened Common
  import opened Lifecycle
  import opened StoreModel

  /** A directory's device and inode. */
  type Identity = nat

  datatype Phase =
    | Executing
    | PreparingExchange
    | ReadyToCommit
    | PreVisibilityRecovery
    | VisiblePendingDurability
    | CommittedPendingReport
    | AbandonedFenced
  {
    predicate IsProtected() {
      !Executing?
    }

    predicate RequiresNamespaceRecovery() {
      PreparingExchange? || ReadyToCommit? || PreVisibilityRecovery? || VisiblePendingDurability?
      || CommittedPendingReport?
    }
  }

  datatype PublicationState = PublicationState(
    phase: Phase, mirror: Name,
    candidate: Option<Identity>, published: Option<Identity>, previous: Option<Identity>, rotates: bool,
    outcome: Option<AttemptState>, outcomeFailure: Option<FailureKind>)

  /** The spec stands for its hash; `identity` is the execution identity's mirror, `hasSpec` false on a tombstone. */
  datatype SpoolRecord = SpoolRecord(
    spec: Spec, identity: Option<Name>, hasSpec: bool, cancelRequested: bool,
    state: AttemptState, sequence: nat, acknowledged: nat, failure: Option<FailureKind>,
    logOffset: nat, logComplete: bool, publication: Option<PublicationState>)
  {
    function Terminal(outcome: AttemptState, kind: Option<FailureKind>): SpoolRecord {
      this.(state := outcome, sequence := sequence + 1, failure := kind)
    }

    predicate HasProtectedPublicationEvidence() {
      && publication.Some?
      && publication.value.phase.IsProtected()
      && !(publication.value.phase.CommittedPendingReport? && state.Succeeded?
           && acknowledged >= sequence && logComplete)
    }

    predicate ReadyForCleanup() {
      !HasProtectedPublicationEvidence() && state.IsTerminal() && acknowledged >= sequence && logComplete
    }

    predicate RequiresPublicationRecovery() {
      publication.Some? && publication.value.phase.RequiresNamespaceRecovery()
    }

    predicate InPhase(phase: Phase) {
      publication.Some? && publication.value.phase == phase
    }

    predicate IsFence() {
      InPhase(AbandonedFenced)
    }
  }

  function PublicationMirror(spec: Spec): Option<Name> {
    if spec.document.mode.Atomic? then Some(spec.mirror) else None
  }

  function AcceptedRecord(spec: Spec, identity: Option<Name>): SpoolRecord {
    var publication :=
      if PublicationMirror(spec).Some?
      then Some(PublicationState(Executing, spec.mirror, None, None, None, false, None, None))
      else None;
    SpoolRecord(spec, identity, true, false, Accepted, 1, 0, None, 0, false, publication)
  }

  function RejectedRecord(spec: Spec, identity: Option<Name>): SpoolRecord {
    AcceptedRecord(spec, identity).Terminal(Rejected, Some(RejectedFailure))
  }

  function CancellationTombstone(spec: Spec): SpoolRecord {
    SpoolRecord(spec, None, false, true, Cancelled, 1, 0, None, 0, false, None)
  }

  /** The next event `reconcile` reports, if the record is ahead of its acknowledgement: Accepted always goes first. */
  function EventToSend(r: SpoolRecord): Option<AttemptEvent> {
    if r.acknowledged >= r.sequence then None
    else if r.acknowledged == 0 && r.sequence > 1 then Some(AttemptEvent(1, Accepted))
    else Some(AttemptEvent(r.sequence, r.state))
  }

  function FencedRecord(r: SpoolRecord): SpoolRecord
    requires r.publication.Some?
  {
    r.(publication := Some(r.publication.value.(phase := AbandonedFenced)))
     .Terminal(Failed, Some(PublicationDurability))
  }

  function Acknowledge(r: SpoolRecord, sequence: nat): SpoolRecord {
    r.(acknowledged := Max(r.acknowledged, sequence))
  }

  function AcknowledgeLog(r: SpoolRecord, offset: nat, complete: bool): SpoolRecord {
    r.(logOffset := Max(r.logOffset, offset), logComplete := r.logComplete || complete)
  }

  /**
    What publication may do to a record whose process is gone: move its phase, or end
    it once under the next sequence number. Fences and ended records do not move.
   */
  predicate PublicationMoves(before: SpoolRecord, after: SpoolRecord) {
    || after == before
    || (&& before.publication.Some? && after.publication.Some?
        && !before.IsFence() && !before.state.IsTerminal()
        && after.publication.value.mirror == before.publication.value.mirror
        && (after.IsFence() ==> after.state.Failed?)
        && (after.state.IsTerminal() ==>
            after.InPhase(Executing) || after.InPhase(CommittedPendingReport) || after.IsFence())
        && (|| (after.state == before.state && after.sequence == before.sequence && !after.IsFence())
            || (after.state.IsTerminal() && !after.state.Rejected? && after.sequence == before.sequence + 1))
        && after == before.(state := after.state, sequence := after.sequence, failure := after.failure,
                            publication := after.publication))
  }

  /** How an execution ended, before the record is consulted. */
  datatype Outcome = Exited(success: bool) | WaitFailed | Shutdown | OutOfTime | CancelSignalled

  /** The record of an ended execution that has nothing to publish; a durable cancellation outranks every outcome. */
  function FinalRecord(r: SpoolRecord, outcome: Outcome): SpoolRecord {
    if r.cancelRequested then r.Terminal(Cancelled, None)
    else match outcome
      case Exited(true) => r.Terminal(Succeeded, None)
      case Exited(false) => r.Terminal(Failed, Some(ProcessFailure))
      case WaitFailed => r.Terminal(Interrupted, Some(InterruptedFailure))
      case Shutdown => r.Terminal(Interrupted, Some(InterruptedFailure))
      case OutOfTime => r.Terminal(TimedOut, Some(TimeoutFailure))
      case CancelSignalled => r.Terminal(Cancelled, None)
  }

  /** Only an atomic attempt that succeeded uncancelled goes on to publish. */
  predicate GoesOnToPublish(r: SpoolRecord, outcome: Outcome) {
    !r.cancelRequested && outcome == Exited(true) && r.publication.Some?
  }
}
