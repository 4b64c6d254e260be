/**
  Atomic publication: the durable phases of one attempt driving renames among the
  candidate, exchange, published and rotated-previous slots, with a crash or a failing
  call possible at every primitive.

  `healthy` says that no primitive fails for reasons of its own. A `Died` status is a
  process crash; the contract then speaks of what the next process finds.
 */
module Publication {
  import opened Common
  import opened Lifecycle
  import opened StoreModel
  import opened Spool
  import opened AgentModel
  import opened Namespace

  datatype Status = Completed | Errored | Died

  datatype Fault = NoFault | CallFails | DiesBefore | DiesAfter

  lemma RotationStep(fs: Fs, k: Key, p: PublicationState)
    requires Planned(p) && Untouched(fs, k, p) && p.previous.Some?
    ensures Exchange in fs && Previous(k) !in fs && Rotated(Moved(fs, Exchange, Previous(k)), k, p)
    ensures OnlySlotsOf(k, fs, Moved(fs, Exchange, Previous(k)))
  {
  }

  lemma StagingStep(fs: Fs, k: Key, p: PublicationState)
    requires Planned(p) && (Rotated(fs, k, p) || (Untouched(fs, k, p) && p.previous.None?))
    ensures Candidate(k) in fs && Exchange !in fs && Staged(Moved(fs, Candidate(k), Exchange), k, p)
    ensures OnlySlotsOf(k, fs, Moved(fs, Candidate(k), Exchange))
  {
  }

  lemma VisibilityStep(fs: Fs, k: Key, p: PublicationState)
    requires Planned(p) && Staged(fs, k, p)
    ensures Exchange in fs && (p.published.Some? <==> Published in fs)
    ensures p.published.Some? ==>
      Visible(Swapped(fs, Exchange, Published), k, p) && OnlySlotsOf(k, fs, Swapped(fs, Exchange, Published))
    ensures p.published.None? ==>
      Visible(Moved(fs, Exchange, Published), k, p) && OnlySlotsOf(k, fs, Moved(fs, Exchange, Published))
  {
  }

  lemma UnstagingStep(fs: Fs, k: Key, p: PublicationState)
    requires Planned(p) && Staged(fs, k, p)
    ensures Exchange in fs && Candidate(k) !in fs
    ensures var after := Moved(fs, Exchange, Candidate(k));
            OnlySlotsOf(k, fs, after) && if p.previous.Some? then Rotated(after, k, p) else Untouched(after, k, p)
  {
  }

  lemma UnrotationStep(fs: Fs, k: Key, p: PublicationState)
    requires Planned(p) && Rotated(fs, k, p)
    ensures Previous(k) in fs && Exchange !in fs && Untouched(Moved(fs, Previous(k), Exchange), k, p)
    ensures OnlySlotsOf(k, fs, Moved(fs, Previous(k), Exchange))
  {
  }

  /** Nothing but the attempt's slots and its record changed, and no identity was lost or duplicated. */
  ghost predicate Confined(k: Key, before: Fs, after: Fs) {
    OnlySlotsOf(k, before, after) && Conserves(before, after) && (Published in before ==> Published in after)
  }

  ghost predicate OnlyRecordOf(k: Key, before: map<Key, SpoolRecord>, after: map<Key, SpoolRecord>) {
    k in before && k in after && after == before[k := after[k]]
  }

  /** The outcome a pre-visibility recovery reports: the one first persisted. */
  function PersistedOutcome(p: PublicationState): AttemptState {
    if p.outcome.Some? then p.outcome.value else Failed
  }

  function PersistedFailure(p: PublicationState): Option<FailureKind> {
    if p.outcomeFailure.Some? then p.outcomeFailure else Some(InvalidResult)
  }

  /** The record that persists the intent to undo; an earlier intent stands. */
  function Recovering(r: SpoolRecord, outcome: AttemptState, kind: Option<FailureKind>): SpoolRecord
    requires r.publication.Some?
  {
    if r.InPhase(PreVisibilityRecovery) then r
    else
      r.(publication := Some(r.publication.value.(
        phase := PreVisibilityRecovery, outcome := Some(outcome), outcomeFailure := kind)))
  }

  function AbortedRecord(r: SpoolRecord, outcome: AttemptState, kind: Option<FailureKind>): SpoolRecord
    requires r.publication.Some?
  {
    r.(publication := Some(r.publication.value.(phase := Executing, outcome := None, outcomeFailure := None)))
     .Terminal(outcome, kind)
  }

  function CommittedRecord(r: SpoolRecord): SpoolRecord
    requires r.publication.Some?
  {
    InPhaseOf(r, CommittedPendingReport).Terminal(Succeeded, None)
  }

  function InPhaseOf(r: SpoolRecord, phase: Phase): SpoolRecord
    requires r.publication.Some?
  {
    r.(publication := Some(r.publication.value.(phase := phase)))
  }

  predicate OfMirror(r: SpoolRecord, mirror: Name) {
    r.publication.Some? && r.publication.value.mirror == mirror
  }

  /** No other attempt of this mirror holds evidence in the namespace. */
  ghost predicate Alone(mirror: Name, fs: Fs, spool: map<Key, SpoolRecord>, k: Key) {
    forall j :: j in spool && j != k && OfMirror(spool[j], mirror) ==>
      spool[j].InPhase(Executing) && At(fs, Previous(j)) == None
  }

  ghost predicate SiteOk(mirror: Name, fs: Fs, spool: map<Key, SpoolRecord>, k: Key) {
    && Injective(fs) && Alone(mirror, fs, spool, k)
    && k in spool && OfMirror(spool[k], mirror) && RecordFits(fs, k, spool[k])
  }

  lemma ConfinedComposes(k: Key, a: Fs, b: Fs, c: Fs)
    requires Confined(k, a, b) && Confined(k, b, c)
    ensures Confined(k, a, c)
  {
  }

  lemma ConfinedKeepsPublished(k: Key, before: Fs, after: Fs)
    requires Confined(k, before, after)
    ensures Published in before ==> Published in after
  {
  }

  lemma NothingIsConfined(k: Key, fs: Fs)
    ensures Confined(k, fs, fs)
  {
  }

  /** A change confined to the attempt keeps the site sound as soon as its own record fits again. */
  lemma ConfinedKeepsSite(
    mirror: Name, fs: Fs, spool: map<Key, SpoolRecord>, fs': Fs, spool': map<Key, SpoolRecord>, k: Key)
    requires SiteOk(mirror, fs, spool, k) && Confined(k, fs, fs') && OnlyRecordOf(k, spool, spool')
    requires OfMirror(spool'[k], mirror) && RecordFits(fs', k, spool'[k])
    ensures SiteOk(mirror, fs', spool', k)
  {
    hide RecordFits;
  }

  /** The trees ever made public, after one more look at the public path. */
  function Shown(shown: seq<Identity>, before: Fs, after: Fs): seq<Identity> {
    if Published !in after || At(after, Published) == At(before, Published) then shown else shown + [after[Published]]
  }

  lemma NotVisibleIsUnshown(before: Fs, after: Fs, k: Key, p: PublicationState)
    requires NotVisible(before, k, p) && NotVisible(after, k, p)
    ensures At(after, Published) == At(before, Published)
  {
  }

  lemma ShownComposes(shown: seq<Identity>, a: Fs, b: Fs, c: Fs)
    requires At(a, Published) == At(b, Published) || At(b, Published) == At(c, Published)
    requires Published in b ==> Published in c
    ensures Shown(Shown(shown, a, b), b, c) == Shown(shown, a, c)
  {
  }

  /** What a locked section may do to an attempt's record. */
  datatype Move =
    | Stay
    | ToReady
    | ToIntent(outcome: AttemptState, kind: Option<FailureKind>)
    | ToAborted(outcome: AttemptState, kind: Option<FailureKind>)
    | ToVisiblePending
    | ToCommitted

  function Apply(r: SpoolRecord, move: Move): SpoolRecord
    requires r.publication.Some?
  {
    match move
    case Stay => r
    case ToReady => InPhaseOf(r, ReadyToCommit)
    case ToIntent(outcome, kind) => Recovering(r, outcome, kind)
    case ToAborted(outcome, kind) => AbortedRecord(r, outcome, kind)
    case ToVisiblePending => InPhaseOf(r, VisiblePendingDurability)
    case ToCommitted => CommittedRecord(r)
  }

  lemma UndoneRecordsDiffer(r: SpoolRecord, outcome: AttemptState, kind: Option<FailureKind>)
    requires r.publication.Some?
    ensures AbortedRecord(r, outcome, kind) != r
    ensures AbortedRecord(r, outcome, kind) != Recovering(r, outcome, kind)
  {
    assert AbortedRecord(r, outcome, kind).sequence == r.sequence + 1;
    assert Recovering(r, outcome, kind).sequence == r.sequence;
  }

  /** Why a commit that has not become visible is undone. */
  function AbortReason(r: SpoolRecord): (AttemptState, Option<FailureKind>) {
    if r.cancelRequested then (Cancelled, None) else (Failed, Some(InvalidResult))
  }

  /** What the memory of an unfinished commit may hold. */
  predicate MemoryAfter(r: SpoolRecord, next: SpoolRecord)
    requires r.publication.Some?
  {
    next == r || next == Recovering(r, AbortReason(r).0, AbortReason(r).1) || next == Apply(r, ToVisiblePending)
  }

  predicate UndoMove(r: SpoolRecord, move: Move) {
    move.Stay? || move.ToReady? || ((move.ToIntent? || move.ToAborted?) && move.outcome.Failed?)
  }

  predicate ReadyMove(r: SpoolRecord, move: Move) {
    || move.Stay? || move.ToVisiblePending? || move.ToCommitted?
    || ((move.ToIntent? || move.ToAborted?) && (move.outcome, move.kind) == AbortReason(r))
  }

  ghost function MoveTo(r: SpoolRecord, disk: SpoolRecord, outcome: AttemptState, kind: Option<FailureKind>): Move
    requires r.publication.Some?
  {
    if disk == r then Stay
    else if disk == InPhaseOf(r, ReadyToCommit) then ToReady
    else if disk == Recovering(r, outcome, kind) then ToIntent(outcome, kind)
    else ToAborted(outcome, kind)
  }

  /** Which moves a commit attempt may have made, and the layout each leaves behind. */
  predicate CommitMove(fs: Fs, k: Key, r: SpoolRecord, move: Move)
    requires r.publication.Some?
  {
    match move
    case Stay => r.InPhase(ReadyToCommit) && r.cancelRequested ==> NotVisible(fs, k, r.publication.value)
    case ToReady => false
    case ToIntent(outcome, kind) => (outcome, kind) == AbortReason(r) && NotVisible(fs, k, r.publication.value)
    case ToAborted(outcome, kind) => (outcome, kind) == AbortReason(r) && Untouched(fs, k, r.publication.value)
    case ToVisiblePending => !r.cancelRequested && Visible(fs, k, r.publication.value)
    case ToCommitted => !r.cancelRequested && Visible(fs, k, r.publication.value)
  }

  /** The layout each move leaves behind; a process that dies in `ready_to_commit` may leave either one. */
  predicate MoveFits(fs: Fs, k: Key, r: SpoolRecord, move: Move)
    requires r.publication.Some?
  {
    match move
    case Stay => true
    case ToReady => NotVisible(fs, k, r.publication.value) || Visible(fs, k, r.publication.value)
    case ToIntent(_, _) => NotVisible(fs, k, r.publication.value)
    case ToAborted(_, _) => Untouched(fs, k, r.publication.value)
    case _ => Visible(fs, k, r.publication.value)
  }

  predicate Undoable(fs: Fs, k: Key, r: SpoolRecord) {
    && (r.InPhase(PreparingExchange) || r.InPhase(ReadyToCommit) || r.InPhase(PreVisibilityRecovery))
    && !r.state.IsTerminal()
    && Planned(r.publication.value) && NotVisible(fs, k, r.publication.value)
  }

  /** What memory and disk may disagree on after a failing write: whether `ready_to_commit` was reached. */
  predicate LagsBehind(memory: SpoolRecord, disk: SpoolRecord) {
    disk == memory || (memory.InPhase(PreparingExchange) && disk == InPhaseOf(memory, ReadyToCommit))
  }

  lemma RecoveringFits(fs: Fs, k: Key, r: SpoolRecord, outcome: AttemptState, kind: Option<FailureKind>)
    requires Undoable(fs, k, r)
    requires outcome.Failed? || outcome.Cancelled?
    ensures RecordFits(fs, k, Recovering(r, outcome, kind)) && Undoable(fs, k, Recovering(r, outcome, kind))
    ensures Recovering(r, outcome, kind).InPhase(PreVisibilityRecovery)
    ensures NotVisible(fs, k, Recovering(r, outcome, kind).publication.value)
    ensures r.publication.Some? && NotVisible(fs, k, r.publication.value)
  {
  }

  lemma RecoveringIsAlike(fs: Fs, k: Key, r: SpoolRecord, outcome: AttemptState, kind: Option<FailureKind>)
    requires r.publication.Some?
    ensures AbortedRecord(Recovering(r, outcome, kind), outcome, kind) == AbortedRecord(r, outcome, kind)
    ensures var p, q := r.publication.value, Recovering(r, outcome, kind).publication.value;
            && (Untouched(fs, k, p) <==> Untouched(fs, k, q))
            && (NotVisible(fs, k, p) <==> NotVisible(fs, k, q))
  {
  }

  lemma AbortedFits(fs: Fs, k: Key, r: SpoolRecord, outcome: AttemptState, kind: Option<FailureKind>)
    requires r.publication.Some? && Untouched(fs, k, r.publication.value)
    requires outcome.Failed? || outcome.Cancelled?
    ensures RecordFits(fs, k, AbortedRecord(r, outcome, kind))
  {
  }

  lemma ReadyFits(fs: Fs, k: Key, r: SpoolRecord)
    requires r.InPhase(PreparingExchange) && Planned(r.publication.value) && Staged(fs, k, r.publication.value)
    requires !r.state.IsTerminal()
    ensures RecordFits(fs, k, InPhaseOf(r, ReadyToCommit))
    ensures Staged(fs, k, InPhaseOf(r, ReadyToCommit).publication.value)
  {
  }

  lemma VisibleFits(fs: Fs, k: Key, r: SpoolRecord)
    requires r.InPhase(ReadyToCommit) || r.InPhase(VisiblePendingDurability)
    requires RecordFits(fs, k, r) && At(fs, Published) == r.publication.value.candidate
    ensures Visible(fs, k, r.publication.value)
    ensures RecordFits(fs, k, InPhaseOf(r, VisiblePendingDurability)) && RecordFits(fs, k, CommittedRecord(r))
  {
  }

  /** A commit attempt from `ready_to_commit`, seen from the `preparing_exchange` record before it. */
  lemma MovesCompose(fs: Fs, k: Key, r: SpoolRecord, move: Move)
    requires r.InPhase(PreparingExchange)
    requires CommitMove(fs, k, InPhaseOf(r, ReadyToCommit), move)
    ensures Apply(InPhaseOf(r, ReadyToCommit), move) == Apply(r, if move.Stay? then ToReady else move)
    ensures !move.Stay? ==> MoveFits(fs, k, r, move) && ReadyMove(r, move)
    ensures Fits(fs, k, InPhaseOf(r, ReadyToCommit).publication.value) ==> MoveFits(fs, k, r, ToReady)
    ensures move.ToVisiblePending? || move.ToCommitted? ==> !r.cancelRequested
    ensures r.cancelRequested ==> NotVisible(fs, k, r.publication.value)
  {
  }

  /** A record recovery leaves alone. */
  predicate Quiescent(r: SpoolRecord) {
    !r.RequiresPublicationRecovery() || (r.InPhase(CommittedPendingReport) && r.state.IsTerminal())
  }

  /** An attempt on its way to visibility that has not become visible. */
  predicate StillUnpublished(fs: Fs, k: Key, r: SpoolRecord) {
    && (r.InPhase(PreparingExchange) || r.InPhase(ReadyToCommit) || r.InPhase(PreVisibilityRecovery))
    && NotVisible(fs, k, r.publication.value)
  }

  /** The moves recovery may make from each phase, whatever fails. */
  predicate RecoveryMove(r: SpoolRecord, move: Move)
    requires r.publication.Some?
  {
    match r.publication.value.phase
    case PreparingExchange =>
      UndoMove(r, move) || (ReadyMove(r, move) && (move.ToVisiblePending? || move.ToCommitted? ==> !r.cancelRequested))
    case ReadyToCommit => ReadyMove(r, move)
    case PreVisibilityRecovery =>
      move.Stay? || move == ToAborted(PersistedOutcome(r.publication.value), PersistedFailure(r.publication.value))
    case VisiblePendingDurability => move.Stay? || move.ToVisiblePending? || move.ToCommitted?
    case CommittedPendingReport => move.Stay? || (move.ToCommitted? && !r.state.IsTerminal())
    case _ => move.Stay?
  }

  /** Recovery, finished or not, is one of the moves publication may make to a record. */
  lemma RecoveryIsAllowed(fs: Fs, k: Key, r: SpoolRecord, move: Move)
    requires RecordFits(fs, k, r) && RecoveryMove(r, move)
    ensures PublicationMoves(r, Apply(r, move))
    ensures r.RequiresPublicationRecovery() ==> !Apply(r, move).IsFence()
  {
    hide NotVisible, Visible, Staged;
  }

  /**
    The failure kind of a persisted intent is the one reported after a restart exactly
    when there is one: a cancellation, undone without a kind, is reported with
    `InvalidResult` if a crash comes between intent and report.
   */
  lemma PersistedKindIsReportedExactly(r: SpoolRecord)
    requires r.InPhase(ReadyToCommit)
    ensures var reason := AbortReason(r);
            var p := Recovering(r, reason.0, reason.1).publication.value;
            PersistedOutcome(p) == reason.0 && (PersistedFailure(p) == reason.1 <==> !r.cancelRequested)
  {
  }

  /** Such a cancellation: the slots and the record as a cancel before visibility finds them. */
  lemma CancelledKindIsLost(spec: Spec) returns (fs: Fs, k: Key, r: SpoolRecord)
    requires spec.document.mode.Atomic?
    ensures RecordFits(fs, k, r) && StillUnpublished(fs, k, r) && r.InPhase(ReadyToCommit) && r.cancelRequested
    ensures AbortReason(r) == (Cancelled, None)
    ensures PersistedFailure(Recovering(r, Cancelled, None).publication.value) == Some(InvalidResult)
  {
    k := spec.key;
    fs := map[Exchange := 1];
    var plan := PublicationState(ReadyToCommit, spec.mirror, Some(1), None, None, false, None, None);
    r := AcceptedRecord(spec, None).(state := Running, sequence := 2, cancelRequested := true,
                                     publication := Some(plan));
  }

  /** The one call that fails in a run in which no other does, if any. */
  datatype Trouble = Nowhere | AtPreparation | AtVerification | AtDurability

  /** How a recovery ends in which no call fails but the one named. */
  predicate RecoveryEnds(trouble: Trouble, fs: Fs, k: Key, r: SpoolRecord, move: Move)
    requires r.publication.Some?
  {
    match r.publication.value.phase
    case PreparingExchange =>
      if trouble.AtPreparation? then move == ToAborted(Failed, Some(InvalidResult)) else CommitEnds(trouble, r, move)
    case ReadyToCommit =>
      if Staged(fs, k, r.publication.value) then CommitEnds(trouble, r, move) else SyncEnds(trouble, move)
    case PreVisibilityRecovery =>
      move == ToAborted(PersistedOutcome(r.publication.value), PersistedFailure(r.publication.value))
    case VisiblePendingDurability => SyncEnds(trouble, move)
    case CommittedPendingReport => move.ToCommitted? || (move.Stay? && r.state.Succeeded?)
    case _ => move.Stay?
  }

  /** The commit of a staged candidate: cancelled, undone for what it could not verify, or made visible. */
  predicate CommitEnds(trouble: Trouble, r: SpoolRecord, move: Move) {
    if r.cancelRequested then move == ToAborted(Cancelled, None)
    else if trouble.AtVerification? then move == ToAborted(Failed, Some(InvalidResult))
    else SyncEnds(trouble, move)
  }

  /** The sync of a visible candidate: a success, or pending if it fails. */
  predicate SyncEnds(trouble: Trouble, move: Move) {
    if trouble.AtDurability? then move.ToVisiblePending? else move.ToCommitted?
  }

  /** How a recovery before the control plane is heard ends if no call fails: it prepares, undoes and finishes. */
  predicate EarlyRecoveryEnds(r: SpoolRecord, move: Move)
    requires r.publication.Some?
  {
    match r.publication.value.phase
    case PreparingExchange => move.ToReady?
    case PreVisibilityRecovery =>
      move == ToAborted(PersistedOutcome(r.publication.value), PersistedFailure(r.publication.value))
    case VisiblePendingDurability => move.ToCommitted?
    case CommittedPendingReport => move.ToCommitted? || (move.Stay? && r.state.Succeeded?)
    case _ => move.Stay?
  }

  /** A record, in memory or on disk, of an attempt whose process has not been reported on. */
  predicate Executes(r: SpoolRecord, mirror: Name) {
    OfMirror(r, mirror) && r.InPhase(Executing) && !r.state.IsTerminal()
  }

  /** The slots `persist_preparing` accepts: a candidate, and no stable previous without a published tree. */
  predicate Plannable(fs: Fs, k: Key) {
    Candidate(k) in fs && (Exchange in fs ==> Published in fs)
  }

  function Prepared(fs: Fs, k: Key, r: SpoolRecord): SpoolRecord
    requires r.publication.Some?
  {
    r.(publication := Some(PublicationState(
         PreparingExchange, r.publication.value.mirror, At(fs, Candidate(k)), At(fs, Published), At(fs, Exchange),
         At(fs, Exchange).Some?, None, None)))
  }

  lemma PreparedFits(fs: Fs, k: Key, r: SpoolRecord)
    requires Injective(fs) && Plannable(fs, k) && r.publication.Some? && !r.state.IsTerminal()
    requires At(fs, Previous(k)) == None
    ensures RecordFits(fs, k, Prepared(fs, k, r)) && Untouched(fs, k, Prepared(fs, k, r).publication.value)
  {
  }

  /** What a committed attempt left in the slots, in terms of what it found there. */
  lemma CommittedSlots(before: Fs, fs: Fs, k: Key, r: SpoolRecord)
    requires r.publication.Some? && RecordFits(fs, k, CommittedRecord(Prepared(before, k, r)))
    ensures At(fs, Published) == At(before, Candidate(k)) && At(fs, Candidate(k)) == None
    ensures At(fs, Exchange) == At(before, Published) && At(fs, Previous(k)) == At(before, Exchange)
  {
  }

  /** The same record, with a publication plan of its own. */
  predicate Replanned(r: SpoolRecord, planned: SpoolRecord) {
    && r.publication.Some? && planned.publication.Some?
    && planned.publication.value.mirror == r.publication.value.mirror
    && planned.RequiresPublicationRecovery()
    && planned == r.(publication := planned.publication)
  }

  lemma ReplannedMoves(r: SpoolRecord, planned: SpoolRecord, move: Move)
    requires Replanned(r, planned) && !r.IsFence() && !r.state.IsTerminal()
    requires move.ToIntent? || move.ToAborted? ==> move.outcome.Failed? || move.outcome.Cancelled?
    ensures PublicationMoves(r, Apply(planned, move))
    ensures Apply(planned, move).publication.Some?
    ensures Apply(planned, move).publication.value.mirror == r.publication.value.mirror
    ensures !r.state.Cancelled? && Apply(planned, move).state.Cancelled? ==> move.ToAborted? && move.outcome.Cancelled?
    ensures Apply(planned, move).InPhase(Executing) <==> move.ToAborted?
    ensures Apply(planned, move).state.IsTerminal() ==> move.ToAborted? || move.ToCommitted?
    ensures move.ToAborted? ==> Apply(planned, move).state == move.outcome
    ensures Apply(planned, ToReady).publication.Some? && Replanned(r, Apply(planned, ToReady))
  {
  }

  /** An ended attempt and the namespace agree: published with every slot moved on, or every slot as before it. */
  predicate Reported(fs: Fs, k: Key, after: SpoolRecord) {
    && after.publication.Some?
    && (|| (after.state.Succeeded? && after.InPhase(CommittedPendingReport) && Visible(fs, k, after.publication.value))
        || ((after.state.Failed? || after.state.Cancelled?) && after.InPhase(Executing)
            && Untouched(fs, k, after.publication.value)))
  }

  /** The record kept the plan, and if it ended, the namespace agrees. */
  predicate Accounted(fs: Fs, k: Key, planned: SpoolRecord, r: SpoolRecord) {
    && r.publication.Some? && planned.publication.Some?
    && SamePlan(planned.publication.value, r.publication.value)
    && (r.state.IsTerminal() ==> Reported(fs, k, r)) && (r.InPhase(Executing) ==> r.state.IsTerminal())
  }

  /** What a commit leaves of a record: untouched slots without a phase, or a record that accounts for the slots. */
  predicate CommitLeaves(before: Fs, fs: Fs, k: Key, executing: SpoolRecord, r: SpoolRecord) {
    || (fs == before && r.InPhase(Executing))
    || (executing.publication.Some? && Accounted(fs, k, Prepared(before, k, executing), r))
  }

  lemma MoveAccounted(fs: Fs, k: Key, r: SpoolRecord, move: Move)
    requires r.RequiresPublicationRecovery() && !r.state.IsTerminal() && MoveFits(fs, k, r, move)
    requires move.ToAborted? ==> move.outcome.Failed? || move.outcome.Cancelled?
    ensures Accounted(fs, k, r, Apply(r, move))
  {
  }

  lemma UnendedAccounted(fs: Fs, k: Key, r: SpoolRecord, move: Move)
    requires r.RequiresPublicationRecovery() && !r.state.IsTerminal() && (move.ToIntent? || move.ToVisiblePending?)
    ensures Accounted(fs, k, r, Apply(r, move))
  {
  }

  lemma CommitAccounted(fs: Fs, k: Key, r: SpoolRecord, move: Move)
    requires r.RequiresPublicationRecovery() && !r.state.IsTerminal() && CommitMove(fs, k, r, move)
    ensures Accounted(fs, k, r, Apply(r, move))
  {
  }

  lemma AccountedFromReady(fs: Fs, k: Key, prepared: SpoolRecord, r: SpoolRecord)
    requires prepared.publication.Some? && Accounted(fs, k, InPhaseOf(prepared, ReadyToCommit), r)
    ensures Accounted(fs, k, prepared, r)
  {
  }

  /** Ending a record that is back in its executing phase as a failure, whether or not it ended before. */
  lemma FailedAgain(before: Fs, fs: Fs, k: Key, executing: SpoolRecord, r: SpoolRecord)
    requires r.InPhase(Executing) && RecordFits(fs, k, r) && CommitLeaves(before, fs, k, executing, r)
    requires (r == executing && fs == before) || r.state.Failed?
    requires PublicationMoves(executing, r) && !executing.state.IsTerminal()
    ensures var again := r.Terminal(Failed, Some(InvalidResult));
            && RecordFits(fs, k, again) && again.InPhase(Executing) && again.state.Failed?
            && again.publication == r.publication
            && (r == executing ==> PublicationMoves(executing, again) && again.sequence == executing.sequence + 1)
            && (r != executing && r.state.IsTerminal() ==> again.sequence == executing.sequence + 2)
            && CommitLeaves(before, fs, k, executing, again)
  {
  }

  /** The report of a preparation that failed and was undone. */
  function UndoneRecord(prepared: SpoolRecord): SpoolRecord
    requires prepared.publication.Some?
  {
    AbortedRecord(prepared, Failed, Some(InvalidResult))
  }

  /** What a publication without another failure leaves of its plan on disk. */
  function Ending(trouble: Trouble, prepared: SpoolRecord): SpoolRecord
    requires prepared.publication.Some?
  {
    match trouble
    case Nowhere => CommittedRecord(prepared)
    case AtDurability => InPhaseOf(prepared, VisiblePendingDurability)
    case _ => UndoneRecord(prepared)
  }

  /** The same from the phase before visibility. */
  predicate CommitLeft(trouble: Trouble, ready: SpoolRecord, next: SpoolRecord)
    requires ready.publication.Some?
  {
    next == match trouble
            case AtVerification => UndoneRecord(ready)
            case AtDurability => InPhaseOf(ready, VisiblePendingDurability)
            case _ => CommittedRecord(ready)
  }

  lemma CommittedHasEnded(fs: Fs, k: Key, r: SpoolRecord)
    requires r.publication.Some?
    ensures var prepared := Prepared(fs, k, r);
            && prepared.publication.Some? && CommittedRecord(prepared).state.IsTerminal()
            && !CommittedRecord(prepared).InPhase(Executing)
  {
  }

  lemma LeftIsEnding(trouble: Trouble, prepared: SpoolRecord, next: SpoolRecord)
    requires prepared.InPhase(PreparingExchange) && !trouble.AtPreparation?
    requires CommitLeft(trouble, InPhaseOf(prepared, ReadyToCommit), next)
    ensures next == Ending(trouble, prepared)
  {
  }

  /** Reported as failed, and then as failed again; the disk may still have the first report. */
  predicate EndedTwice(first: SpoolRecord, second: SpoolRecord, disk: SpoolRecord) {
    && first.state.Failed? && first.InPhase(Executing) && second == first.Terminal(Failed, Some(InvalidResult))
    && (disk == first || disk == second)
  }

  lemma MovesEnd(r: SpoolRecord, next: SpoolRecord)
    ensures PublicationMoves(r, next) ==> PublicationEnds(r, next)
  {
  }

  lemma UndoneAgainEnds(fs: Fs, k: Key, r: SpoolRecord)
    requires r.InPhase(Executing)
    ensures PublicationEnds(r, UndoneRecord(Prepared(fs, k, r)).Terminal(Failed, Some(InvalidResult)))
  {
  }

  lemma ExecutingFits(fs: Fs, k: Key, r: SpoolRecord, disk: SpoolRecord)
    requires r.InPhase(Executing) && disk.InPhase(Executing) && RecordFits(fs, k, disk)
    ensures RecordFits(fs, k, r)
  {
  }

  /**
    What recovery may make of an attempt, whenever its cancellation became durable: an
    outcome once persisted is the one reported, and an ended attempt matches the
    namespace.
   */
  predicate Outcomes(fs: Fs, k: Key, first: SpoolRecord, after: SpoolRecord) {
    var origin := first.(cancelRequested := after.cancelRequested);
    && (first.cancelRequested ==> after.cancelRequested) && PublicationMoves(origin, after) && !first.state.IsTerminal()
    && (after == origin || (first.publication.Some? && after.publication.Some?
                            && SamePlan(first.publication.value, after.publication.value)))
    && (after.state.IsTerminal() ==> Reported(fs, k, after))
    && (!after.state.IsTerminal() && first.RequiresPublicationRecovery() ==> after.RequiresPublicationRecovery())
    && (first.InPhase(PreVisibilityRecovery) ==>
          || after == origin
          || after == AbortedRecord(origin, PersistedOutcome(first.publication.value),
                                    PersistedFailure(first.publication.value)))
  }

  lemma OutcomesContinue(fs: Fs, fs': Fs, k: Key, first: SpoolRecord, r: SpoolRecord, move: Move)
    requires Outcomes(fs, k, first, r) && RecordFits(fs, k, r)
    requires RecoveryMove(r, move) && MoveFits(fs', k, r, move)
    requires Quiescent(r) ==> fs' == fs
    ensures Outcomes(fs', k, first, Apply(r, move))
  {
    hide NotVisible;
  }

  lemma HealthyRecoveryReports(fs: Fs, k: Key, first: SpoolRecord, r: SpoolRecord, move: Move)
    requires Outcomes(fs, k, first, r) && first.RequiresPublicationRecovery()
    requires RecordFits(fs, k, r) && RecoveryEnds(Nowhere, fs, k, r, move)
    ensures Apply(r, move).state.IsTerminal()
  {
    hide Visible, Untouched, Staged;
  }

  /** The exact identity an operator command must name, in the one phase it applies to. */
  predicate Addresses(r: SpoolRecord, mirror: Name, spec: Spec) {
    OfMirror(r, mirror) && r.spec == spec && r.InPhase(VisiblePendingDurability)
  }

  /** The agent abandons what the operator addresses, in no other phase. */
  lemma AbandonIsAddressed(spool: map<Key, SpoolRecord>, k: Key, mirror: Name, spec: Spec)
    ensures MayAbandon(spool, k, mirror, spec) <==> k in spool && Addresses(spool[k], mirror, spec)
  {
  }

  /** A fenced tree is public and its predecessor in the exchange slot. */
  predicate NamespaceVerified(fs: Fs, p: PublicationState) {
    p.candidate.Some? && At(fs, Published) == p.candidate && At(fs, Exchange) == p.published
  }

  /**
    A call of `recover`, before or after the control plane was heard, or a cancellation
    becoming durable in between.
   */
  datatype RecoveryCall = Recovery(synchronized: bool, healthy: bool) | CancelArrives(healthy: bool)

  predicate CancelledFirst(r: SpoolRecord, calls: seq<RecoveryCall>) {
    r.cancelRequested || (calls != [] && calls[0] == CancelArrives(true))
  }

  /** A cancelled attempt that will never be visible: still private, or ended with its slots as before it. */
  predicate Stopped(fs: Fs, k: Key, r: SpoolRecord) {
    && r.publication.Some? && r.cancelRequested
    && (|| (StillUnpublished(fs, k, r) && !r.state.IsTerminal())
        || ((r.state.Cancelled? || r.state.Failed?) && r.InPhase(Executing) && Untouched(fs, k, r.publication.value)))
  }

  /** A stopped attempt whose only end is Cancelled. */
  predicate EndsCancelled(fs: Fs, k: Key, r: SpoolRecord) {
    && Stopped(fs, k, r)
    && (|| r.InPhase(ReadyToCommit) || r.state.Cancelled?
        || (r.InPhase(PreVisibilityRecovery) && PersistedOutcome(r.publication.value).Cancelled?))
  }

  /** What one call does to the attempt. */
  ghost predicate Served(fs: Fs, after: Fs, k: Key, r: SpoolRecord, next: SpoolRecord, call: RecoveryCall, move: Move) {
    match call
    case CancelArrives(healthy) =>
      && after == fs && (next == r || (!r.state.IsTerminal() && next == r.(cancelRequested := true)))
      && (healthy && !r.state.IsTerminal() ==> next.cancelRequested)
    case Recovery(synchronized, healthy) =>
      && r.publication.Some? && next == Apply(r, move) && RecoveryMove(r, move) && MoveFits(after, k, r, move)
      && (Quiescent(r) ==> after == fs && next == r)
      && (!StillUnpublished(fs, k, r) ==> after == fs)
      && ((r.cancelRequested || !synchronized) && StillUnpublished(fs, k, r) ==>
          NotVisible(after, k, r.publication.value))
      && (!synchronized ==> At(after, Published) == At(fs, Published))
      && (synchronized && healthy ==> RecoveryEnds(Nowhere, fs, k, r, move))
      && (!synchronized && healthy ==> EarlyRecoveryEnds(r, move))
  }

  lemma ServedOutcomes(
    fs: Fs, after: Fs, k: Key, first: SpoolRecord, r: SpoolRecord, next: SpoolRecord, call: RecoveryCall, move: Move)
    requires Outcomes(fs, k, first, r) && RecordFits(fs, k, r) && Served(fs, after, k, r, next, call, move)
    ensures Outcomes(after, k, first, next)
    ensures call == Recovery(true, true) && first.RequiresPublicationRecovery() ==> next.state.IsTerminal()
  {
    hide NotVisible, Visible, Untouched, Staged, RecoveryEnds, RecoveryMove, MoveFits, Apply, Fits, StillUnpublished;
    hide PublicationMoves, Outcomes;
    match call
    case CancelArrives(_) => OutcomesCancel(fs, k, first, r);
    case Recovery(synchronized, healthy) =>
      OutcomesContinue(fs, after, k, first, r, move);
      if synchronized && healthy && first.RequiresPublicationRecovery() {
        HealthyRecoveryReports(fs, k, first, r, move);
      }
  }

  lemma OutcomesCancel(fs: Fs, k: Key, first: SpoolRecord, r: SpoolRecord)
    requires Outcomes(fs, k, first, r)
    ensures !r.state.IsTerminal() ==> Outcomes(fs, k, first, r.(cancelRequested := true))
  {
  }

  lemma ServedStops(
    fs: Fs, after: Fs, k: Key, r: SpoolRecord, next: SpoolRecord, call: RecoveryCall, move: Move)
    requires Stopped(fs, k, r) && Served(fs, after, k, r, next, call, move)
    requires RecordFits(fs, k, r) && RecordFits(after, k, next)
    ensures Stopped(after, k, next) && At(after, Published) == At(fs, Published)
    ensures EndsCancelled(fs, k, r) ==> EndsCancelled(after, k, next)
  {
  }

  /** The public path has moved on at most once, and then for good. */
  predicate ShownOnce(first: Fs, fs: Fs, k: Key, r: SpoolRecord) {
    At(fs, Published) == At(first, Published) || !StillUnpublished(fs, k, r)
  }

  lemma ServedShows(
    shown: seq<Identity>, first: Fs, fs: Fs, after: Fs, k: Key, r: SpoolRecord, next: SpoolRecord, call: RecoveryCall,
    move: Move)
    requires ShownOnce(first, fs, k, r) && Served(fs, after, k, r, next, call, move)
    requires RecordFits(fs, k, r) && RecordFits(after, k, next) && (Published in fs ==> Published in after)
    ensures ShownOnce(first, after, k, next)
    ensures Shown(Shown(shown, first, fs), fs, after) == Shown(shown, first, after)
  {
    if StillUnpublished(fs, k, r) && At(after, Published) != At(fs, Published) {
      assert !StillUnpublished(after, k, next);
    }
  }

  lemma ServedPublic(fs: Fs, after: Fs, k: Key, r: SpoolRecord, next: SpoolRecord, call: RecoveryCall, move: Move)
    requires Served(fs, after, k, r, next, call, move)
    ensures call.CancelArrives? || !call.synchronized ==> At(after, Published) == At(fs, Published)
  {
  }

  lemma CancelServed(fs: Fs, after: Fs, k: Key, r: SpoolRecord, next: SpoolRecord, call: RecoveryCall, move: Move)
    requires Served(fs, after, k, r, next, call, move) && call == CancelArrives(true)
    requires StillUnpublished(fs, k, r) && !r.state.IsTerminal()
    ensures Stopped(after, k, next) && after == fs && (r.InPhase(ReadyToCommit) ==> EndsCancelled(after, k, next))
  {
    hide NotVisible;
  }

  lemma RecoveryBegins(shown: seq<Identity>, fs: Fs, k: Key, r: SpoolRecord)
    requires !r.state.IsTerminal()
    ensures Outcomes(fs, k, r, r) && ShownOnce(fs, fs, k, r) && Shown(shown, fs, fs) == shown
    ensures r.cancelRequested && StillUnpublished(fs, k, r) ==>
      Stopped(fs, k, r) && (r.InPhase(ReadyToCommit) ==> EndsCancelled(fs, k, r))
  {
  }

  lemma FirstPhases(fs: Fs, k: Key, r: SpoolRecord)
    requires RecordFits(fs, k, r)
    ensures r.InPhase(PreparingExchange) || r.InPhase(PreVisibilityRecovery) ==> StillUnpublished(fs, k, r)
    ensures r.InPhase(ReadyToCommit) ==> (StillUnpublished(fs, k, r) <==> NotVisible(fs, k, r.publication.value))
    ensures Quiescent(r) ==> !StillUnpublished(fs, k, r)
  {
    hide NotVisible;
  }

  lemma PendingIsAddressed(mirror: Name, fs: Fs, spool: map<Key, SpoolRecord>, k: Key, r: SpoolRecord, move: Move)
    requires SiteOk(mirror, fs, spool, k) && r.publication.Some? && move.ToVisiblePending? && spool[k] == Apply(r, move)
    ensures Addresses(spool[k], mirror, spool[k].spec)
  {
    hide RecordFits;
  }

  lemma SettledIsVisible(mirror: Name, fs: Fs, spool: map<Key, SpoolRecord>, k: Key)
    requires SiteOk(mirror, fs, spool, k) && (spool[k].InPhase(CommittedPendingReport) || spool[k].IsFence())
    ensures Visible(fs, k, spool[k].publication.value)
  {
  }

  class Site {
    const mirror: Name
    var fs: Fs
    var spool: map<Key, SpoolRecord>

    /** Every tree that was ever public, oldest first. */
    ghost var shown: seq<Identity>

    /** A rename that no completed directory sync has followed yet. */
    ghost var unsynced: bool

    constructor (mirror: Name)
      ensures this.mirror == mirror && fs == map[] && spool == map[] && shown == [] && !unsynced
    {
      this.mirror := mirror;
      fs := map[];
      spool := map[];
      shown := [];
      unsynced := false;
    }

    ghost predicate Valid(k: Key)
      reads this
    {
      SiteOk(mirror, fs, spool, k)
    }

    // Primitives

    method Environment(healthy: bool) returns (fault: Fault)
      ensures healthy ==> fault.NoFault?
    {
      fault := *;
      if healthy {
        fault := NoFault;
      }
    }

    method Rename(from: Path, to: Path, healthy: bool) returns (s: Status)
      modifies `fs, `shown, `unsynced
      ensures fs == old(fs) || (from in old(fs) && to !in old(fs) && fs == Moved(old(fs), from, to) && unsynced)
      ensures s.Completed? ==> from in old(fs) && to !in old(fs) && fs == Moved(old(fs), from, to)
      ensures s.Errored? ==> fs == old(fs)
      ensures Conserves(old(fs), fs) && shown == Shown(old(shown), old(fs), fs)
      ensures healthy && from in old(fs) && to !in old(fs) ==> s.Completed?
      ensures healthy ==> !s.Died?
    {
      var fault := Environment(healthy);
      if from !in fs || to in fs || fault.CallFails? {
        return Errored;
      }
      if fault.DiesBefore? {
        return Died;
      }
      MoveConserves(fs, from, to);
      shown := Shown(shown, fs, Moved(fs, from, to));
      fs, unsynced := Moved(fs, from, to), true;
      s := if fault.DiesAfter? then Died else Completed;
    }

    method ExchangePaths(a: Path, b: Path, healthy: bool) returns (s: Status)
      requires a != b
      modifies `fs, `shown, `unsynced
      ensures fs == old(fs) || (a in old(fs) && b in old(fs) && fs == Swapped(old(fs), a, b) && unsynced)
      ensures s.Completed? ==> a in old(fs) && b in old(fs) && fs == Swapped(old(fs), a, b)
      ensures s.Errored? ==> fs == old(fs)
      ensures Conserves(old(fs), fs) && shown == Shown(old(shown), old(fs), fs)
      ensures healthy && a in old(fs) && b in old(fs) ==> s.Completed?
      ensures healthy ==> !s.Died?
    {
      var fault := Environment(healthy);
      if a !in fs || b !in fs || fault.CallFails? {
        return Errored;
      }
      if fault.DiesBefore? {
        return Died;
      }
      SwapConserves(fs, a, b);
      shown := Shown(shown, fs, Swapped(fs, a, b));
      fs, unsynced := Swapped(fs, a, b), true;
      s := if fault.DiesAfter? then Died else Completed;
    }

    method Probe(p: Path, healthy: bool) returns (s: Status, id: Option<Identity>)
      ensures s.Completed? ==> id == At(fs, p)
      ensures healthy ==> s.Completed?
      ensures !s.Died?
    {
      var fault := Environment(healthy);
      s, id := if fault.NoFault? then Completed else Errored, At(fs, p);
    }

    /** Any other call: it may fail or be the last thing the process does. */
    method Call(healthy: bool) returns (s: Status)
      ensures healthy ==> s.Completed?
    {
      var fault := Environment(healthy);
      s := match fault case NoFault => Completed case CallFails => Errored case _ => Died;
    }

    /** `sync_namespace`: the renames so far are durable once it completes. */
    method Sync(healthy: bool) returns (s: Status)
      modifies `unsynced
      ensures s.Completed? ==> !unsynced
      ensures !s.Completed? ==> unsynced == old(unsynced)
      ensures healthy ==> s.Completed?
    {
      s := Call(healthy);
      if s.Completed? {
        unsynced := false;
      }
    }

    /** The atomic replacement of a spool record; a failing write may still have replaced it. */
    method Write(k: Key, r: SpoolRecord, healthy: bool) returns (s: Status)
      modifies `spool
      ensures spool == old(spool) || spool == old(spool)[k := r]
      ensures s.Completed? ==> spool == old(spool)[k := r]
      ensures healthy ==> s.Completed?
    {
      var fault := Environment(healthy);
      var applied := *;
      if fault.NoFault? || applied {
        spool := spool[k := r];
      }
      s := match fault case NoFault => Completed case CallFails => Errored case _ => Died;
    }

    // Preparation: rotate the stable previous away, stage the candidate, persist ready_to_commit

    method RotatePrevious(k: Key, p: PublicationState, healthy: bool) returns (s: Status)
      requires Planned(p) && NotVisible(fs, k, p)
      modifies `fs, `shown, `unsynced
      ensures NotVisible(fs, k, p) && Confined(k, old(fs), fs) && shown == old(shown)
      ensures s.Completed? && Untouched(fs, k, p) ==> p.previous.None?
      ensures healthy ==> s.Completed?
    {
      var exchange: Option<Identity>;
      s, exchange := Probe(Exchange, healthy);
      if !s.Completed? {
        return;
      }
      if p.previous.None? {
        return if exchange.Some? && exchange != p.candidate then Errored else Completed;
      }
      var rotated: Option<Identity>;
      s, rotated := Probe(Previous(k), healthy);
      if !s.Completed? {
        return;
      }
      if exchange == p.previous && rotated.None? {
        RotationStep(fs, k, p);
        s := Rename(Exchange, Previous(k), healthy);
      } else if exchange.None? && rotated == p.previous {
      } else if exchange == p.candidate {
      } else {
        s := Errored;
      }
    }

    method StageCandidate(k: Key, p: PublicationState, healthy: bool) returns (s: Status)
      requires Planned(p) && NotVisible(fs, k, p) && (Untouched(fs, k, p) ==> p.previous.None?)
      modifies `fs, `shown, `unsynced
      ensures NotVisible(fs, k, p) && Confined(k, old(fs), fs) && shown == old(shown)
      ensures s.Completed? ==> Staged(fs, k, p)
      ensures healthy ==> s.Completed?
    {
      var candidate: Option<Identity>, exchange: Option<Identity>;
      s, candidate := Probe(Candidate(k), healthy);
      if !s.Completed? {
        return;
      }
      s, exchange := Probe(Exchange, healthy);
      if !s.Completed? {
        return;
      }
      if candidate == p.candidate && exchange.None? {
        StagingStep(fs, k, p);
        s := Rename(Candidate(k), Exchange, healthy);
      } else if candidate.None? && exchange == p.candidate {
      } else {
        s := Errored;
      }
    }

    /** `refused` says that its first call, the creation of a directory, fails. */
    method StagePrivately(k: Key, p: PublicationState, healthy: bool, refused: bool) returns (s: Status)
      requires Planned(p) && NotVisible(fs, k, p)
      modifies `fs, `shown, `unsynced
      ensures NotVisible(fs, k, p) && Confined(k, old(fs), fs) && shown == old(shown)
      ensures s.Completed? ==> Staged(fs, k, p)
      ensures refused ==> s.Errored? && fs == old(fs)
      ensures healthy && !refused ==> s.Completed?
    {
      hide Planned, NotVisible;
      if refused {
        return Errored;
      }
      s := Call(healthy);
      if !s.Completed? {
        return;
      }
      s := RotatePrevious(k, p, healthy);
      if !s.Completed? {
        return;
      }
      s := StageCandidate(k, p, healthy);
      if !s.Completed? {
        return;
      }
      s := Sync(healthy);
    }

    method PrepareNamespace(k: Key, record: SpoolRecord, healthy: bool, refused: bool)
      returns (s: Status, next: SpoolRecord)
      requires Valid(k) && spool[k] == record
      modifies this
      ensures Valid(k) && Confined(k, old(fs), fs) && OnlyRecordOf(k, old(spool), spool)
      ensures shown == old(shown)
      ensures !record.InPhase(PreparingExchange) ==> s.Errored? && fs == old(fs) && spool == old(spool)
      ensures spool[k] == record || spool[k] == InPhaseOf(record, ReadyToCommit)
      ensures record.InPhase(PreparingExchange) ==> NotVisible(fs, k, record.publication.value)
      ensures next == if s.Completed? then InPhaseOf(record, ReadyToCommit) else record
      ensures s.Completed? ==> spool[k] == next && Staged(fs, k, next.publication.value)
      ensures refused ==> s.Errored? && fs == old(fs) && spool == old(spool)
      ensures healthy && !refused && record.InPhase(PreparingExchange) ==> s.Completed?
    {
      hide Planned, Conserves, OnlySlotsOf, Alone, Injective, Rotated, Untouched, Visible, Staged;
      next := record;
      NothingIsConfined(k, fs);
      if !record.InPhase(PreparingExchange) {
        return Errored, next;
      }
      s := StagePrivately(k, record.publication.value, healthy, refused);
      if s.Completed? {
        ReadyFits(fs, k, record);
        s := Write(k, InPhaseOf(record, ReadyToCommit), healthy);
        if s.Completed? {
          next := InPhaseOf(record, ReadyToCommit);
        }
      }
      ConfinedKeepsSite(mirror, old(fs), old(spool), fs, spool, k);
    }

    // Undoing before visibility

    method UndoNamespace(k: Key, p: PublicationState, healthy: bool) returns (s: Status)
      requires Planned(p) && NotVisible(fs, k, p)
      modifies `fs, `shown, `unsynced
      ensures NotVisible(fs, k, p) && Confined(k, old(fs), fs) && shown == old(shown)
      ensures s.Completed? ==> Untouched(fs, k, p)
      ensures healthy ==> s.Completed?
    {
      s := UnstageCandidate(k, p, healthy);
      if s.Completed? && p.previous.Some? {
        s := UnrotatePrevious(k, p, healthy);
      }
      if s.Completed? {
        s := Sync(healthy);
      }
    }

    method UnstageCandidate(k: Key, p: PublicationState, healthy: bool) returns (s: Status)
      requires Planned(p) && NotVisible(fs, k, p)
      modifies `fs, `shown, `unsynced
      ensures NotVisible(fs, k, p) && Confined(k, old(fs), fs) && shown == old(shown)
      ensures s.Completed? ==> !Staged(fs, k, p)
      ensures healthy ==> s.Completed?
    {
      var exchange: Option<Identity>, candidate: Option<Identity>;
      s, exchange := Probe(Exchange, healthy);
      if !s.Completed? || exchange != p.candidate {
        return;
      }
      s, candidate := Probe(Candidate(k), healthy);
      if !s.Completed? {
        return;
      }
      if candidate.Some? {
        return Errored;
      }
      UnstagingStep(fs, k, p);
      s := Rename(Exchange, Candidate(k), healthy);
    }

    method UnrotatePrevious(k: Key, p: PublicationState, healthy: bool) returns (s: Status)
      requires Planned(p) && p.previous.Some? && (Untouched(fs, k, p) || Rotated(fs, k, p))
      modifies `fs, `shown, `unsynced
      ensures NotVisible(fs, k, p) && Confined(k, old(fs), fs) && shown == old(shown)
      ensures s.Completed? ==> Untouched(fs, k, p)
      ensures healthy ==> s.Completed?
    {
      var exchange: Option<Identity>, rotated: Option<Identity>;
      s, exchange := Probe(Exchange, healthy);
      if !s.Completed? {
        return;
      }
      s, rotated := Probe(Previous(k), healthy);
      if !s.Completed? {
        return;
      }
      if exchange.None? && rotated == p.previous {
        UnrotationStep(fs, k, p);
        s := Rename(Previous(k), Exchange, healthy);
      } else if exchange == p.previous {
      } else {
        s := Errored;
      }
    }

    method PersistIntent(
      k: Key, record: SpoolRecord, outcome: AttemptState, kind: Option<FailureKind>, healthy: bool)
      returns (s: Status, next: SpoolRecord)
      requires Valid(k) && Undoable(fs, k, record) && LagsBehind(record, spool[k])
      requires outcome.Failed? || outcome.Cancelled?
      modifies `spool
      ensures Valid(k) && OnlyRecordOf(k, old(spool), spool)
      ensures spool[k] == old(spool[k]) || spool[k] == Recovering(record, outcome, kind)
      ensures s.Completed? ==> spool[k] == next == Recovering(record, outcome, kind)
      ensures !s.Completed? ==> next == record
      ensures healthy ==> s.Completed?
    {
      hide Planned, Conserves, OnlySlotsOf, Alone, Injective, NotVisible, Visible, Staged;
      next := record;
      s := Completed;
      if !record.InPhase(PreVisibilityRecovery) {
        NothingIsConfined(k, fs);
        RecoveringFits(fs, k, record, outcome, kind);
        s := Write(k, Recovering(record, outcome, kind), healthy);
        ConfinedKeepsSite(mirror, old(fs), old(spool), fs, spool, k);
        if s.Completed? {
          next := Recovering(record, outcome, kind);
        }
      }
    }

    method UndoAndReport(
      k: Key, record: SpoolRecord, outcome: AttemptState, kind: Option<FailureKind>, healthy: bool)
      returns (s: Status, next: SpoolRecord)
      requires Valid(k) && spool[k] == record && Undoable(fs, k, record) && record.InPhase(PreVisibilityRecovery)
      requires outcome.Failed? || outcome.Cancelled?
      modifies this
      ensures Valid(k) && Confined(k, old(fs), fs) && OnlyRecordOf(k, old(spool), spool)
      ensures shown == old(shown)
      ensures NotVisible(fs, k, record.publication.value)
      ensures || spool[k] == record
              || (spool[k] == AbortedRecord(record, outcome, kind) && Untouched(fs, k, record.publication.value))
      ensures s.Completed? ==> spool[k] == next == AbortedRecord(record, outcome, kind)
      ensures s.Completed? ==> Untouched(fs, k, record.publication.value)
      ensures !s.Completed? ==> next == record
      ensures healthy ==> s.Completed?
    {
      hide Planned, Conserves, OnlySlotsOf, Alone, Injective, Rotated, Untouched, Visible, Staged, RecordFits;
      next := record;
      s := UndoNamespace(k, record.publication.value, healthy);
      RecoveringFits(fs, k, record, outcome, kind);
      if s.Completed? {
        AbortedFits(fs, k, record, outcome, kind);
        s := Write(k, AbortedRecord(record, outcome, kind), healthy);
        if s.Completed? {
          next := AbortedRecord(record, outcome, kind);
        }
      }
      ConfinedKeepsSite(mirror, old(fs), old(spool), fs, spool, k);
    }

    /**
      Persists the intent, undoes every rename and reports the outcome. The record in
      memory may lag behind one on disk whose write failed after replacing the file.
     */
    method RestoreThenTerminal(
      k: Key, record: SpoolRecord, outcome: AttemptState, kind: Option<FailureKind>, healthy: bool)
      returns (s: Status, next: SpoolRecord)
      requires Valid(k) && Undoable(fs, k, record) && LagsBehind(record, spool[k])
      requires outcome.Failed? || outcome.Cancelled?
      modifies this
      ensures Valid(k) && Confined(k, old(fs), fs) && OnlyRecordOf(k, old(spool), spool)
      ensures shown == old(shown)
      ensures NotVisible(fs, k, record.publication.value)
      ensures || spool[k] == old(spool[k])
              || spool[k] == Recovering(record, outcome, kind)
              || (spool[k] == AbortedRecord(record, outcome, kind) && Untouched(fs, k, record.publication.value))
      ensures s.Completed? ==> spool[k] == next == AbortedRecord(record, outcome, kind)
      ensures s.Completed? ==> Untouched(fs, k, record.publication.value)
      ensures !s.Completed? ==> (next == record && fs == old(fs)) || next == Recovering(record, outcome, kind)
      ensures fs != old(fs) ==>
        spool[k] == Recovering(record, outcome, kind) || spool[k] == AbortedRecord(record, outcome, kind)
      ensures healthy ==> s.Completed?
    {
      hide Planned, Conserves, OnlySlotsOf, SiteOk, Untouched, Rotated, Staged, Recovering, AbortedRecord, Undoable,
           LagsBehind;
      NothingIsConfined(k, fs);
      RecoveringFits(fs, k, record, outcome, kind);
      s, next := PersistIntent(k, record, outcome, kind, healthy);
      if s.Completed? {
        s, next := UndoAndReport(k, next, outcome, kind, healthy);
        RecoveringIsAlike(fs, k, record, outcome, kind);
      }
    }

    // From visibility to the report

    method SyncVisible(healthy: bool, syncFails: bool) returns (s: Status)
      modifies `unsynced
      ensures s.Completed? ==> !unsynced
      ensures !s.Completed? ==> unsynced == old(unsynced)
      ensures syncFails ==> s.Errored?
      ensures healthy && !syncFails ==> s.Completed?
    {
      s := Errored;
      if !syncFails {
        s := Sync(healthy);
      }
    }

    /** `syncFails` makes the sync of its directories fail, after which the publication is durable only as pending. */
    method FinishVisible(k: Key, record: SpoolRecord, healthy: bool, syncFails: bool)
      returns (s: Status, next: SpoolRecord, ghost move: Move)
      requires Valid(k) && spool[k] == record
      requires record.InPhase(ReadyToCommit) || record.InPhase(VisiblePendingDurability)
      modifies `spool, `unsynced
      ensures Valid(k) && OnlyRecordOf(k, old(spool), spool)
      ensures spool[k] == Apply(record, move) && (move.Stay? || move.ToVisiblePending? || move.ToCommitted?)
      ensures !move.Stay? ==> Visible(fs, k, record.publication.value)
      ensures s.Completed? ==> next == spool[k] && move.ToCommitted?
      ensures move.ToCommitted? ==> !unsynced
      ensures move.ToVisiblePending? ==> unsynced == old(unsynced) && !s.Completed?
      ensures !s.Completed? ==> next == record || (next == Apply(record, ToVisiblePending) && spool[k] == next)
      ensures healthy && Visible(fs, k, record.publication.value) ==>
        if syncFails then s.Errored? && move.ToVisiblePending? && next == spool[k] else s.Completed?
    {
      hide Conserves, OnlySlotsOf, Alone, Injective;
      next, move := record, Stay;
      NothingIsConfined(k, fs);
      var published: Option<Identity>;
      s, published := Probe(Published, healthy);
      if !s.Completed? {
        return;
      }
      if published != record.publication.value.candidate {
        return Errored, next, move;
      }
      VisibleFits(fs, k, record);
      s := SyncVisible(healthy, syncFails);
      if s.Errored? {
        var pending := InPhaseOf(record, VisiblePendingDurability);
        var written := Write(k, pending, healthy);
        move := if spool[k] == pending then ToVisiblePending else Stay;
        ConfinedKeepsSite(mirror, old(fs), old(spool), fs, spool, k);
        if written.Completed? {
          next := pending;
        } else if written.Died? {
          s := Died;
        }
      } else if s.Completed? {
        s := Write(k, CommittedRecord(record), healthy);
        move := if spool[k] == CommittedRecord(record) then ToCommitted else Stay;
        ConfinedKeepsSite(mirror, old(fs), old(spool), fs, spool, k);
        if s.Completed? {
          next := CommittedRecord(record);
        }
      }
    }

    method EnsureCommittedTerminal(k: Key, record: SpoolRecord, healthy: bool)
      returns (s: Status, next: SpoolRecord, ghost move: Move)
      requires Valid(k) && spool[k] == record && record.InPhase(CommittedPendingReport)
      modifies `spool
      ensures Valid(k) && OnlyRecordOf(k, old(spool), spool)
      ensures spool[k] == Apply(record, move)
      ensures move.Stay? || (move.ToCommitted? && !record.state.IsTerminal())
      ensures s.Completed? ==> next == spool[k] && next.state.Succeeded?
      ensures !s.Completed? ==> next == record
      ensures healthy ==> s.Completed?
    {
      hide Conserves, OnlySlotsOf, Alone, Injective, Visible;
      next, move, s := record, Stay, Completed;
      if record.state.Succeeded? {
        return;
      }
      NothingIsConfined(k, fs);
      s := Write(k, CommittedRecord(record), healthy);
      move := if spool[k] == CommittedRecord(record) then ToCommitted else Stay;
      ConfinedKeepsSite(mirror, old(fs), old(spool), fs, spool, k);
      if s.Completed? {
        next := CommittedRecord(record);
      }
    }

    // The visibility commit

    /** `unreadable` makes its first look at the slots fail. */
    method VerifyReady(k: Key, p: PublicationState, healthy: bool, unreadable: bool) returns (s: Status)
      ensures s.Completed? ==> At(fs, Exchange) == p.candidate && At(fs, Published) == p.published
      ensures s.Completed? && p.previous.Some? ==> At(fs, Previous(k)) == p.previous
      ensures healthy && Staged(fs, k, p) ==> (s.Completed? <==> !unreadable)
      ensures !s.Died?
    {
      if unreadable {
        return Errored;
      }
      var found: Option<Identity>;
      s, found := Probe(Exchange, healthy);
      if !s.Completed? || found != p.candidate {
        return Errored;
      }
      s, found := Probe(Published, healthy);
      if !s.Completed? || found != p.published {
        return Errored;
      }
      if p.previous.Some? {
        s, found := Probe(Previous(k), healthy);
        if !s.Completed? || found != p.previous {
          return Errored;
        }
      }
    }

    method MakeVisible(k: Key, p: PublicationState, healthy: bool) returns (s: Status)
      requires Planned(p) && Staged(fs, k, p)
      modifies `fs, `shown, `unsynced
      ensures (Staged(fs, k, p) || Visible(fs, k, p)) && Confined(k, old(fs), fs)
      ensures shown == Shown(old(shown), old(fs), fs)
      ensures s.Completed? ==> Visible(fs, k, p)
      ensures s.Errored? ==> fs == old(fs)
      ensures healthy ==> s.Completed?
    {
      VisibilityStep(fs, k, p);
      if p.published.Some? {
        s := ExchangePaths(Exchange, Published, healthy);
      } else {
        s := Rename(Exchange, Published, healthy);
      }
    }

    /** `restore_then_terminal` of a staged commit, for the reason its record gives. */
    method UndoCommit(k: Key, record: SpoolRecord, healthy: bool)
      returns (s: Status, next: SpoolRecord, ghost move: Move)
      requires Valid(k) && spool[k] == record && Undoable(fs, k, record)
      modifies this
      ensures Valid(k) && Confined(k, old(fs), fs) && OnlyRecordOf(k, old(spool), spool)
      ensures shown == old(shown) && At(fs, Published) == At(old(fs), Published)
      ensures spool[k] == Apply(record, move) && CommitMove(fs, k, record, move)
      ensures move.Stay? || move.ToIntent? || move.ToAborted?
      ensures s.Completed? ==> next == spool[k] && move.ToAborted?
      ensures !s.Completed? ==> RecordFits(fs, k, next) && MemoryAfter(record, next)
      ensures healthy ==> s.Completed?
    {
      hide Planned, Conserves, OnlySlotsOf, Untouched, Rotated, Staged, Recovering, AbortedRecord, Fits, Alone,
           Injective;
      var reason := AbortReason(record);
      s, next := RestoreThenTerminal(k, record, reason.0, reason.1, healthy);
      var aborted := s.Completed? || spool[k] == AbortedRecord(record, reason.0, reason.1);
      move := if aborted then ToAborted(reason.0, reason.1)
        else if spool[k] == record then Stay
        else ToIntent(reason.0, reason.1);
      NotVisibleIsUnshown(old(fs), fs, k, record.publication.value);
      UndoneRecordsDiffer(record, reason.0, reason.1);
      RecoveringFits(fs, k, record, reason.0, reason.1);
    }

    method CommitReady(k: Key, record: SpoolRecord, healthy: bool, trouble: Trouble)
      returns (s: Status, next: SpoolRecord, ghost move: Move)
      requires Valid(k) && spool[k] == record
      requires record.InPhase(ReadyToCommit) ==> Staged(fs, k, record.publication.value)
      modifies this
      ensures Valid(k) && Confined(k, old(fs), fs) && OnlyRecordOf(k, old(spool), spool)
      ensures shown == Shown(old(shown), old(fs), fs)
      ensures move.ToCommitted? ==> !unsynced
      ensures !record.InPhase(ReadyToCommit) ==> s.Errored? && move.Stay? && fs == old(fs) && next == record
      ensures spool[k] == Apply(record, move) && CommitMove(fs, k, record, move)
      ensures s.Completed? ==> next == spool[k] && (move.ToAborted? || move.ToCommitted?)
      ensures !s.Completed? ==> RecordFits(fs, k, next) && MemoryAfter(record, next)
      ensures healthy && record.InPhase(ReadyToCommit) ==>
        CommitEnds(trouble, record, move) && (s.Completed? <==> !move.ToVisiblePending?) && next == spool[k]
    {
      hide Planned, Conserves, OnlySlotsOf, Alone, Injective, Visible, Staged, Untouched, Rotated;
      next, move := record, Stay;
      NothingIsConfined(k, fs);
      if !record.InPhase(ReadyToCommit) {
        return Errored, next, move;
      }
      if record.cancelRequested {
        s, next, move := UndoCommit(k, record, healthy);
        return;
      }
      s := VerifyReady(k, record.publication.value, healthy, trouble.AtVerification?);
      if !s.Completed? {
        s, next, move := UndoCommit(k, record, healthy);
        return;
      }
      s := MakeVisible(k, record.publication.value, healthy);
      ConfinedKeepsSite(mirror, old(fs), old(spool), fs, spool, k);
      if s.Completed? {
        s, next, move := FinishVisible(k, record, healthy, trouble.AtDurability?);
      }
    }

    // Recovery

    /** `prepare_namespace`, undone at once if it fails; `undone` tells which way it ended. */
    method PrepareOrUndo(k: Key, record: SpoolRecord, healthy: bool, refused: bool)
      returns (s: Status, next: SpoolRecord, undone: bool, ghost move: Move)
      requires Valid(k) && spool[k] == record && record.InPhase(PreparingExchange)
      modifies this
      ensures Valid(k) && Confined(k, old(fs), fs) && OnlyRecordOf(k, old(spool), spool)
      ensures shown == old(shown) && At(fs, Published) == At(old(fs), Published)
      ensures spool[k] == Apply(record, move) && UndoMove(record, move) && MoveFits(fs, k, record, move)
      ensures NotVisible(fs, k, record.publication.value)
      ensures s.Completed? ==> next == spool[k]
      ensures s.Completed? && !undone ==> move.ToReady? && Staged(fs, k, next.publication.value)
      ensures s.Completed? && undone ==> move == ToAborted(Failed, Some(InvalidResult))
      ensures !s.Completed? ==> next == record || next == Recovering(record, Failed, Some(InvalidResult))
      ensures !s.Completed? ==> RecordFits(fs, k, next)
      ensures refused ==> undone
      ensures healthy ==> s.Completed? && (!refused ==> !undone)
    {
      hide Conserves, OnlySlotsOf, Alone, Injective, Staged, Untouched, Rotated, Visible, Planned;
      undone := false;
      s, next := PrepareNamespace(k, record, healthy, refused);
      NotVisibleIsUnshown(old(fs), fs, k, record.publication.value);
      move := if spool[k] == record then Stay else ToReady;
      if s.Errored? {
        undone := true;
        ghost var between := fs;
        s, next := RestoreThenTerminal(k, record, Failed, Some(InvalidResult), healthy);
        ConfinedComposes(k, old(fs), between, fs);
        NotVisibleIsUnshown(old(fs), fs, k, record.publication.value);
        move := MoveTo(record, spool[k], Failed, Some(InvalidResult));
        RecoveringFits(fs, k, record, Failed, Some(InvalidResult));
      }
    }

    method RecoverReady(k: Key, record: SpoolRecord, healthy: bool, trouble: Trouble)
      returns (s: Status, next: SpoolRecord, ghost move: Move)
      requires Valid(k) && spool[k] == record && record.InPhase(ReadyToCommit)
      modifies this
      ensures Valid(k) && Confined(k, old(fs), fs) && OnlyRecordOf(k, old(spool), spool)
      ensures shown == Shown(old(shown), old(fs), fs)
      ensures move.ToCommitted? ==> !unsynced
      ensures spool[k] == Apply(record, move) && ReadyMove(record, move) && MoveFits(fs, k, record, move)
      ensures !NotVisible(old(fs), k, record.publication.value) ==> fs == old(fs)
      ensures record.cancelRequested && Staged(old(fs), k, record.publication.value) ==>
        NotVisible(fs, k, record.publication.value)
      ensures s.Completed? ==> next == spool[k] && (move.ToAborted? || move.ToCommitted?)
      ensures healthy ==> RecoveryEnds(trouble, old(fs), k, record, move) && (s.Completed? <==> !move.ToVisiblePending?)
    {
      hide Conserves, OnlySlotsOf, Alone, Injective;
      next, move := record, Stay;
      NothingIsConfined(k, fs);
      PublishedIsOldOrNew(fs, k, record.publication.value);
      var published: Option<Identity>, exchange: Option<Identity>;
      s, published := Probe(Published, healthy);
      if !s.Completed? {
        return;
      }
      s, exchange := Probe(Exchange, healthy);
      if !s.Completed? {
        return;
      }
      if published == record.publication.value.candidate {
        s, next, move := FinishVisible(k, record, healthy, trouble.AtDurability?);
      } else if exchange == record.publication.value.candidate && published == record.publication.value.published {
        s, next, move := CommitReady(k, record, healthy, trouble);
      } else {
        // Inconsistent identities would be undone as a failure; a sound site never has them.
        assert false;
      }
    }

    method RecoverPreparing(k: Key, record: SpoolRecord, healthy: bool, trouble: Trouble)
      returns (s: Status, ghost move: Move)
      requires Valid(k) && spool[k] == record && record.InPhase(PreparingExchange)
      modifies this
      ensures Valid(k) && Confined(k, old(fs), fs) && OnlyRecordOf(k, old(spool), spool)
      ensures shown == Shown(old(shown), old(fs), fs)
      ensures move.ToCommitted? ==> !unsynced
      ensures spool[k] == Apply(record, move) && RecoveryMove(record, move) && MoveFits(fs, k, record, move)
      ensures record.cancelRequested ==> NotVisible(fs, k, record.publication.value)
      ensures healthy ==> RecoveryEnds(trouble, old(fs), k, record, move) && (s.Completed? <==> !move.ToVisiblePending?)
    {
      hide Conserves, OnlySlotsOf, Alone, Injective, Untouched, Rotated, Visible, Planned, Staged, Fits;
      var next: SpoolRecord, undone: bool;
      s, next, undone, move := PrepareOrUndo(k, record, healthy, trouble.AtPreparation?);
      if s.Completed? && !undone {
        ghost var between, first := fs, move;
        s, next, move := CommitReady(k, next, healthy, trouble);
        ConfinedComposes(k, old(fs), between, fs);
        ShownComposes(old(shown), old(fs), between, fs);
        MovesCompose(fs, k, record, move);
        move := if move.Stay? then ToReady else move;
      }
    }

    method RecoverPreVisibility(k: Key, record: SpoolRecord, healthy: bool) returns (s: Status, ghost move: Move)
      requires Valid(k) && spool[k] == record && record.InPhase(PreVisibilityRecovery)
      modifies this
      ensures Valid(k) && Confined(k, old(fs), fs) && OnlyRecordOf(k, old(spool), spool)
      ensures shown == old(shown) && At(fs, Published) == At(old(fs), Published)
      ensures spool[k] == Apply(record, move) && RecoveryMove(record, move) && MoveFits(fs, k, record, move)
      ensures NotVisible(fs, k, record.publication.value)
      ensures healthy ==> s.Completed? && RecoveryEnds(Nowhere, old(fs), k, record, move)
    {
      hide Conserves, OnlySlotsOf, Alone, Injective, Untouched, Rotated, Visible, Staged;
      var p := record.publication.value;
      var next: SpoolRecord;
      s, next := RestoreThenTerminal(k, record, PersistedOutcome(p), PersistedFailure(p), healthy);
      NotVisibleIsUnshown(old(fs), fs, k, p);
      UndoneRecordsDiffer(record, PersistedOutcome(p), PersistedFailure(p));
      move := if spool[k] == record then Stay else ToAborted(PersistedOutcome(p), PersistedFailure(p));
    }

    method RecoverReadyRecord(k: Key, record: SpoolRecord, healthy: bool, trouble: Trouble)
      returns (s: Status, ghost move: Move)
      requires Valid(k) && spool[k] == record && record.InPhase(ReadyToCommit)
      modifies this
      ensures Valid(k) && Confined(k, old(fs), fs) && OnlyRecordOf(k, old(spool), spool)
      ensures shown == Shown(old(shown), old(fs), fs)
      ensures move.ToCommitted? ==> !unsynced
      ensures spool[k] == Apply(record, move) && RecoveryMove(record, move) && MoveFits(fs, k, record, move)
      ensures !NotVisible(old(fs), k, record.publication.value) ==> fs == old(fs)
      ensures record.cancelRequested && StillUnpublished(old(fs), k, record) ==>
        NotVisible(fs, k, record.publication.value)
      ensures healthy ==> RecoveryEnds(trouble, old(fs), k, record, move) && (s.Completed? <==> !move.ToVisiblePending?)
    {
      hide Conserves, OnlySlotsOf, Alone, Injective, Untouched, Rotated, Planned, MoveFits;
      PublishedIsOldOrNew(fs, k, record.publication.value);
      var next: SpoolRecord;
      s, next, move := RecoverReady(k, record, healthy, trouble);
    }

    method RecoverVisible(k: Key, record: SpoolRecord, healthy: bool, trouble: Trouble)
      returns (s: Status, ghost move: Move)
      requires Valid(k) && spool[k] == record
      requires record.InPhase(VisiblePendingDurability) || record.InPhase(CommittedPendingReport)
      modifies this
      ensures Valid(k) && OnlyRecordOf(k, old(spool), spool) && fs == old(fs) && shown == old(shown)
      ensures spool[k] == Apply(record, move) && RecoveryMove(record, move) && MoveFits(fs, k, record, move)
      ensures move.ToCommitted? && record.InPhase(VisiblePendingDurability) ==> !unsynced
      ensures healthy ==> RecoveryEnds(trouble, old(fs), k, record, move) && (s.Completed? <==> !move.ToVisiblePending?)
    {
      hide Conserves, OnlySlotsOf, Alone, Injective, Untouched, Rotated, Planned;
      var next: SpoolRecord;
      if record.InPhase(VisiblePendingDurability) {
        s, next, move := FinishVisible(k, record, healthy, trouble.AtDurability?);
      } else {
        s, next, move := EnsureCommittedTerminal(k, record, healthy);
      }
    }

    /** `recover`, on the record that is on disk while the lock is held. */
    method Recover(k: Key, healthy: bool, trouble: Trouble) returns (s: Status, ghost move: Move)
      requires Valid(k)
      modifies this
      ensures Valid(k) && Confined(k, old(fs), fs) && OnlyRecordOf(k, old(spool), spool)
      ensures shown == Shown(old(shown), old(fs), fs)
      ensures spool[k] == Apply(old(spool[k]), move) && RecoveryMove(old(spool[k]), move)
      ensures MoveFits(fs, k, old(spool[k]), move)
      ensures old(spool[k]).cancelRequested && StillUnpublished(old(fs), k, old(spool[k])) ==>
        NotVisible(fs, k, old(spool[k]).publication.value)
      ensures healthy ==> RecoveryEnds(trouble, old(fs), k, old(spool[k]), move)
      ensures healthy ==> (s.Completed? <==> !move.ToVisiblePending?)
      ensures move.ToCommitted? && !old(spool[k]).InPhase(CommittedPendingReport) ==> !unsynced
      ensures !StillUnpublished(old(fs), k, old(spool[k])) ==> fs == old(fs)
      ensures Quiescent(old(spool[k])) ==> fs == old(fs) && spool == old(spool)
    {
      hide Conserves, OnlySlotsOf, Alone, Injective, NotVisible, RecordFits, Confined;
      var record := spool[k];
      NothingIsConfined(k, fs);
      FirstPhases(fs, k, record);
      match record.publication.value.phase {
        case PreparingExchange => s, move := RecoverPreparing(k, record, healthy, trouble);
        case ReadyToCommit => s, move := RecoverReadyRecord(k, record, healthy, trouble);
        case PreVisibilityRecovery => s, move := RecoverPreVisibility(k, record, healthy);
        case VisiblePendingDurability => s, move := RecoverVisible(k, record, healthy, trouble);
        case CommittedPendingReport => s, move := RecoverVisible(k, record, healthy, trouble);
        case _ => s, move := Completed, Stay;
      }
    }

    /** `recover_before_control_plane`: finishes what is visible, prepares or undoes the rest, publishes nothing. */
    method RecoverBeforeControlPlane(k: Key, healthy: bool) returns (s: Status, ghost move: Move)
      requires Valid(k)
      modifies this
      ensures Valid(k) && Confined(k, old(fs), fs) && OnlyRecordOf(k, old(spool), spool)
      ensures shown == old(shown)
      ensures spool[k] == Apply(old(spool[k]), move) && RecoveryMove(old(spool[k]), move)
      ensures MoveFits(fs, k, old(spool[k]), move)
      ensures At(fs, Published) == At(old(fs), Published)
      ensures StillUnpublished(old(fs), k, old(spool[k])) ==> NotVisible(fs, k, old(spool[k]).publication.value)
      ensures !StillUnpublished(old(fs), k, old(spool[k])) ==> fs == old(fs)
      ensures Quiescent(old(spool[k])) ==> fs == old(fs) && spool == old(spool)
      ensures healthy ==> s.Completed? && EarlyRecoveryEnds(old(spool[k]), move)
    {
      hide Conserves, OnlySlotsOf, Alone, Injective, Confined, Planned;
      var record := spool[k];
      var next: SpoolRecord, undone: bool;
      NothingIsConfined(k, fs);
      FirstPhases(fs, k, record);
      match record.publication.value.phase {
        case PreparingExchange => s, next, undone, move := PrepareOrUndo(k, record, healthy, false);
        case PreVisibilityRecovery => s, move := RecoverPreVisibility(k, record, healthy);
        case VisiblePendingDurability => s, move := RecoverVisible(k, record, healthy, Nowhere);
        case CommittedPendingReport => s, move := RecoverVisible(k, record, healthy, Nowhere);
        case _ => s, move := Completed, Stay;
      }
    }

    // Execution's end

    /** `persist_preparing`: reads the slots and makes the plan durable before anything moves. */
    method PersistPreparing(k: Key, record: SpoolRecord, healthy: bool) returns (s: Status, next: SpoolRecord)
      requires Valid(k) && Executes(record, mirror) && Executes(spool[k], mirror)
      modifies `spool
      ensures Valid(k) && OnlyRecordOf(k, old(spool), spool)
      ensures spool[k] == old(spool[k]) || (spool[k] == Prepared(fs, k, record) && Plannable(fs, k))
      ensures s.Completed? ==> next == spool[k] == Prepared(fs, k, record) && Plannable(fs, k)
      ensures !s.Completed? ==> next == record
      ensures healthy ==> (s.Completed? <==> Plannable(fs, k)) && !s.Died?
    {
      hide Conserves, OnlySlotsOf, Alone;
      next := record;
      NothingIsConfined(k, fs);
      s := Call(healthy);
      if !s.Completed? {
        return;
      }
      var candidate: Option<Identity>, published: Option<Identity>, exchange: Option<Identity>;
      s, candidate := Probe(Candidate(k), healthy);
      if !s.Completed? || candidate.None? {
        return Errored, next;
      }
      s, published := Probe(Published, healthy);
      if !s.Completed? {
        return;
      }
      s, exchange := Probe(Exchange, healthy);
      if !s.Completed? || (published.None? && exchange.Some?) {
        return Errored, next;
      }
      PreparedFits(fs, k, record);
      s := Write(k, Prepared(fs, k, record), healthy);
      ConfinedKeepsSite(mirror, old(fs), old(spool), fs, spool, k);
      if s.Completed? {
        next := Prepared(fs, k, record);
      }
    }

    /**
      `commit`. When preparation fails and is undone, which reports the failure, it goes
      on to find nothing ready; `undone` tells of that path.
     */
    method Commit(k: Key, record: SpoolRecord, healthy: bool, trouble: Trouble)
      returns (s: Status, next: SpoolRecord, undone: bool)
      requires Valid(k) && Executes(record, mirror) && Executes(spool[k], mirror)
      modifies this
      ensures Valid(k) && Confined(k, old(fs), fs) && OnlyRecordOf(k, old(spool), spool)
      ensures shown == Shown(old(shown), old(fs), fs)
      ensures spool[k].state.Succeeded? ==> !unsynced
      ensures RecordFits(fs, k, next) && OfMirror(next, mirror)
      ensures PublicationMoves(record, next) && (spool[k] == old(spool[k]) || PublicationMoves(record, spool[k]))
      ensures next.sequence <= record.sequence + 1
      ensures s.Completed? ==> next == spool[k] && next.state.IsTerminal()
      ensures undone ==> s.Errored? && next == spool[k] == UndoneRecord(Prepared(old(fs), k, record))
      ensures s.Errored? && !undone && next.InPhase(Executing) ==> next == record && fs == old(fs)
      ensures s.Errored? && next.state.IsTerminal() ==> undone
      ensures !record.cancelRequested ==> !spool[k].state.Cancelled? && !next.state.Cancelled?
      ensures CommitLeaves(old(fs), fs, k, record, next) && CommitLeaves(old(fs), fs, k, record, spool[k])
      ensures healthy && Plannable(old(fs), k) && !record.cancelRequested ==>
        && (undone <==> trouble.AtPreparation?) && next == spool[k] == Ending(trouble, Prepared(old(fs), k, record))
        && (s.Completed? <==> next.state.IsTerminal() && !undone)
      ensures healthy && !Plannable(old(fs), k) ==> s.Errored? && !undone && next == record
    {
      hide Conserves, OnlySlotsOf, Alone, Injective, Planned, Untouched, Rotated, Staged, Visible, Fits, Accounted;
      undone := false;
      NothingIsConfined(k, fs);
      ExecutingFits(fs, k, record, spool[k]);
      s, next := PersistPreparing(k, record, healthy);
      ReplannedMoves(record, Prepared(fs, k, record), Stay);
      MoveAccounted(fs, k, Prepared(fs, k, record), Stay);
      if !s.Completed? {
        return;
      }
      s, next, undone := PublishPrepared(k, record, next, healthy, trouble);
    }

    method PublishPrepared(k: Key, record: SpoolRecord, prepared: SpoolRecord, healthy: bool, trouble: Trouble)
      returns (s: Status, next: SpoolRecord, undone: bool)
      requires Valid(k) && Executes(record, mirror) && spool[k] == prepared && prepared.InPhase(PreparingExchange)
      requires Replanned(record, prepared)
      modifies this
      ensures Valid(k) && Confined(k, old(fs), fs) && OnlyRecordOf(k, old(spool), spool)
      ensures shown == Shown(old(shown), old(fs), fs)
      ensures spool[k].state.Succeeded? ==> !unsynced
      ensures RecordFits(fs, k, next) && OfMirror(next, mirror)
      ensures PublicationMoves(record, next) && PublicationMoves(record, spool[k])
      ensures s.Completed? ==> next == spool[k] && next.state.IsTerminal()
      ensures undone <==> s.Errored? && next.InPhase(Executing)
      ensures undone ==> next == spool[k] == UndoneRecord(prepared)
      ensures s.Errored? && next.state.IsTerminal() ==> undone
      ensures !record.cancelRequested ==> !spool[k].state.Cancelled? && !next.state.Cancelled?
      ensures Accounted(fs, k, prepared, next) && Accounted(fs, k, prepared, spool[k])
      ensures healthy && !record.cancelRequested ==>
        && (undone <==> trouble.AtPreparation?) && next == spool[k] == Ending(trouble, prepared)
        && (s.Completed? <==> next.state.IsTerminal() && !undone)
    {
      hide Conserves, OnlySlotsOf, Alone, Injective, Planned, Untouched, Rotated, Staged, Visible, Fits,
           PublicationMoves, CommittedRecord, NotVisible, Accounted, CommitLeft;
      ghost var move: Move;
      s, next, undone, move := PrepareOrUndo(k, prepared, healthy, trouble.AtPreparation?);
      ReplannedMoves(record, prepared, move);
      ReplannedMoves(record, prepared, Stay);
      ReplannedMoves(record, prepared, ToIntent(Failed, Some(InvalidResult)));
      MoveAccounted(fs, k, prepared, move);
      MoveAccounted(fs, k, prepared, Stay);
      UnendedAccounted(fs, k, prepared, ToIntent(Failed, Some(InvalidResult)));
      undone := undone && s.Completed?;
      if undone {
        s, next, move := CommitReady(k, next, healthy, trouble);
      } else if s.Completed? {
        ghost var between := fs;
        s, next := CommitStaged(k, record, next, healthy, trouble);
        ConfinedComposes(k, old(fs), between, fs);
        ShownComposes(old(shown), old(fs), between, fs);
        if healthy && !record.cancelRequested {
          LeftIsEnding(trouble, prepared, next);
        }
        AccountedFromReady(fs, k, prepared, next);
        AccountedFromReady(fs, k, prepared, spool[k]);
      }
    }

    method CommitStaged(k: Key, record: SpoolRecord, ready: SpoolRecord, healthy: bool, trouble: Trouble)
      returns (s: Status, next: SpoolRecord)
      requires Valid(k) && Executes(record, mirror) && spool[k] == ready && ready.InPhase(ReadyToCommit)
      requires Replanned(record, ready) && Staged(fs, k, ready.publication.value)
      modifies this
      ensures Valid(k) && Confined(k, old(fs), fs) && OnlyRecordOf(k, old(spool), spool)
      ensures shown == Shown(old(shown), old(fs), fs)
      ensures spool[k].state.Succeeded? ==> !unsynced
      ensures RecordFits(fs, k, next) && OfMirror(next, mirror)
      ensures PublicationMoves(record, next) && PublicationMoves(record, spool[k])
      ensures s.Completed? ==> next == spool[k] && next.state.IsTerminal()
      ensures s.Errored? ==> !next.InPhase(Executing) && !next.state.IsTerminal()
      ensures !record.cancelRequested ==> !spool[k].state.Cancelled? && !next.state.Cancelled?
      ensures Accounted(fs, k, ready, next) && Accounted(fs, k, ready, spool[k])
      ensures healthy && !record.cancelRequested ==>
        CommitLeft(trouble, ready, next) && next == spool[k] && (s.Completed? <==> next.state.IsTerminal())
    {
      hide Conserves, OnlySlotsOf, Alone, Planned, Untouched, Rotated, Staged, Visible, Fits, PublicationMoves,
           NotVisible, Accounted;
      ghost var move: Move;
      var reason := AbortReason(ready);
      s, next, move := CommitReady(k, ready, healthy, trouble);
      ReplannedMoves(record, ready, move);
      ReplannedMoves(record, ready, Stay);
      ReplannedMoves(record, ready, ToVisiblePending);
      ReplannedMoves(record, ready, ToIntent(reason.0, reason.1));
      CommitAccounted(fs, k, ready, move);
      MoveAccounted(fs, k, ready, Stay);
      UnendedAccounted(fs, k, ready, ToVisiblePending);
      UnendedAccounted(fs, k, ready, ToIntent(reason.0, reason.1));
    }

    /** The write that ends `finalize`; its errors are ignored. */
    method WriteBack(k: Key, next: SpoolRecord, healthy: bool) returns (s: Status)
      requires Valid(k) && OfMirror(next, mirror) && RecordFits(fs, k, next)
      modifies `spool
      ensures Valid(k) && OnlyRecordOf(k, old(spool), spool)
      ensures spool[k] == old(spool[k]) || spool[k] == next
      ensures healthy ==> s.Completed? && spool[k] == next
    {
      hide Conserves, OnlySlotsOf, Alone, Injective, RecordFits;
      NothingIsConfined(k, fs);
      s := Write(k, next, healthy);
      ConfinedKeepsSite(mirror, old(fs), old(spool), fs, spool, k);
    }

    /**
      `finalize` of an attempt with a publication. It ends the attempt under two sequence
      numbers, telling so by `twice`, exactly when its commit was undone. However it ends or
      dies, what it leaves on disk and returns is what the agent's steps allow a publication.
     */
    method Finalize(k: Key, record: SpoolRecord, outcome: Outcome, healthy: bool, trouble: Trouble)
      returns (s: Status, next: SpoolRecord, undone: bool, twice: bool)
      requires Valid(k) && Executes(record, mirror) && Executes(spool[k], mirror)
      modifies this
      ensures Valid(k) && Confined(k, old(fs), fs) && OnlyRecordOf(k, old(spool), spool)
      ensures shown == Shown(old(shown), old(fs), fs)
      ensures spool[k].state.Succeeded? ==> !unsynced
      ensures twice <==> GoesOnToPublish(record, outcome) && undone
      ensures twice <==> next.sequence == record.sequence + 2
      ensures !twice ==> spool[k] == old(spool[k]) || PublicationMoves(record, spool[k])
      ensures twice ==> EndedTwice(UndoneRecord(Prepared(old(fs), k, record)), next, spool[k])
      ensures !GoesOnToPublish(record, outcome) || spool[k].state.Cancelled? ==> fs == old(fs)
      ensures CommitLeaves(old(fs), fs, k, record, spool[k])
      ensures GoesOnToPublish(record, outcome) ==>
        PublicationEnds(record, next) && (spool[k] == old(spool[k]) || PublicationEnds(record, spool[k]))
      ensures !GoesOnToPublish(record, outcome) ==> next == FinalRecord(record, outcome)
      ensures healthy && !GoesOnToPublish(record, outcome) ==> spool[k] == FinalRecord(record, outcome)
      ensures healthy && GoesOnToPublish(record, outcome) && Plannable(old(fs), k) ==>
        && (twice <==> trouble.AtPreparation?)
        && spool[k] == if twice then next else Ending(trouble, Prepared(old(fs), k, record))
      ensures healthy && GoesOnToPublish(record, outcome) && !Plannable(old(fs), k) ==>
        !twice && fs == old(fs) && spool[k] == record.Terminal(Failed, Some(InvalidResult))
    {
      hide Conserves, OnlySlotsOf, Alone, Injective, Prepared, Fits, Accounted, EndedTwice, PublicationEnds;
      NothingIsConfined(k, fs);
      ExecutingFits(fs, k, record, spool[k]);
      undone, twice := false, false;
      if GoesOnToPublish(record, outcome) {
        s, next, undone, twice := FinalizeCommit(k, record, healthy, trouble);
      } else {
        next := FinalRecord(record, outcome);
        ExecutingFits(fs, k, next, spool[k]);
        s := WriteBack(k, next, healthy);
      }
    }

    method FinalizeCommit(k: Key, record: SpoolRecord, healthy: bool, trouble: Trouble)
      returns (s: Status, next: SpoolRecord, undone: bool, twice: bool)
      requires Valid(k) && Executes(record, mirror) && Executes(spool[k], mirror) && !record.cancelRequested
      modifies this
      ensures Valid(k) && Confined(k, old(fs), fs) && OnlyRecordOf(k, old(spool), spool)
      ensures shown == Shown(old(shown), old(fs), fs)
      ensures spool[k].state.Succeeded? ==> !unsynced
      ensures twice <==> undone
      ensures !twice ==> spool[k] == old(spool[k]) || PublicationMoves(record, spool[k])
      ensures !twice ==> next.sequence <= record.sequence + 1
      ensures twice ==> next.sequence == record.sequence + 2
      ensures twice ==> EndedTwice(UndoneRecord(Prepared(old(fs), k, record)), next, spool[k])
      ensures !spool[k].state.Cancelled?
      ensures CommitLeaves(old(fs), fs, k, record, spool[k])
      ensures PublicationEnds(record, next) && (spool[k] == old(spool[k]) || PublicationEnds(record, spool[k]))
      ensures healthy && Plannable(old(fs), k) ==>
        && (twice <==> trouble.AtPreparation?)
        && spool[k] == if twice then next else Ending(trouble, Prepared(old(fs), k, record))
      ensures healthy && !Plannable(old(fs), k) ==>
        !twice && fs == old(fs) && spool[k] == record.Terminal(Failed, Some(InvalidResult))
    {
      hide Conserves, OnlySlotsOf, Alone, Injective, Prepared, Fits, CommittedRecord, Accounted, PublicationMoves,
           CommitLeaves, PublicationEnds;
      twice := false;
      s, next, undone := Commit(k, record, healthy, trouble);
      CommittedHasEnded(old(fs), k, record);
      MovesEnd(record, next);
      MovesEnd(record, spool[k]);
      if s.Died? {
        return;
      }
      if s.Errored? && next.InPhase(Executing) {
        twice := next.state.IsTerminal();
        FailedAgain(old(fs), fs, k, record, next);
        UndoneAgainEnds(old(fs), k, record);
        next := next.Terminal(Failed, Some(InvalidResult));
        MovesEnd(record, next);
        s := WriteBack(k, next, healthy);
        if s.Died? {
          return;
        }
      }
      s := WriteBack(k, next, healthy);
    }

    /**
      A run of `finalize` that ends its attempt twice though every write succeeds: the one
      call that fails is the first of its preparation.
     */
    method EndTwice(k: Key, record: SpoolRecord) returns (next: SpoolRecord)
      requires Valid(k) && Executes(record, mirror) && Executes(spool[k], mirror)
      requires GoesOnToPublish(record, Exited(true)) && Plannable(fs, k)
      modifies this
      ensures Valid(k) && spool[k] == next && next.state.Failed? && next.sequence == record.sequence + 2
      ensures EndedTwice(UndoneRecord(Prepared(old(fs), k, record)), next, spool[k])
    {
      hide Valid, CommitLeaves, Confined, Prepared;
      var s: Status, undone: bool, twice: bool;
      s, next, undone, twice := Finalize(k, record, Exited(true), true, AtPreparation);
    }

    /** A cancellation becomes durable, unless the attempt has ended. */
    method PersistCancellation(k: Key, healthy: bool)
      requires Valid(k)
      modifies `spool
      ensures Valid(k) && OnlyRecordOf(k, old(spool), spool)
      ensures spool[k] == old(spool[k]) ||
              (!old(spool[k]).state.IsTerminal() && spool[k] == old(spool[k]).(cancelRequested := true))
      ensures healthy && !old(spool[k]).state.IsTerminal() ==> spool[k].cancelRequested
    {
      hide Conserves, OnlySlotsOf, Alone, Injective;
      NothingIsConfined(k, fs);
      if !spool[k].state.IsTerminal() {
        var s := Write(k, spool[k].(cancelRequested := true), healthy);
        ConfinedKeepsSite(mirror, old(fs), old(spool), fs, spool, k);
      }
    }

    method Serve(k: Key, call: RecoveryCall) returns (ghost move: Move)
      requires Valid(k)
      modifies this
      ensures Valid(k) && Confined(k, old(fs), fs) && OnlyRecordOf(k, old(spool), spool)
      ensures shown == Shown(old(shown), old(fs), fs)
      ensures Served(old(fs), fs, k, old(spool[k]), spool[k], call, move)
    {
      hide Conserves, OnlySlotsOf, Alone, Injective, Fits, RecoveryMove, MoveFits, Apply, RecoveryEnds, NotVisible,
           StillUnpublished, Confined, Quiescent;
      NothingIsConfined(k, fs);
      move := Stay;
      var s: Status;
      match call {
        case CancelArrives(healthy) => PersistCancellation(k, healthy);
        case Recovery(true, healthy) => s, move := Recover(k, healthy, Nowhere);
        case Recovery(false, healthy) => s, move := RecoverBeforeControlPlane(k, healthy);
      }
    }

    /**
      The agent's recovery over any number of calls, each before or after the control
      plane has been heard, each interrupted wherever it may be, with cancellations
      becoming durable in between. An outcome once persisted is the one reported, an
      ended attempt matches the namespace, nothing becomes visible before the control
      plane is heard, and nothing cancelled before visibility is ever visible.
     */
    method RecoverRepeatedly(k: Key, calls: seq<RecoveryCall>)
      requires Valid(k) && !spool[k].state.IsTerminal()
      modifies this
      ensures Valid(k) && Confined(k, old(fs), fs) && OnlyRecordOf(k, old(spool), spool)
      ensures shown == Shown(old(shown), old(fs), fs)
      ensures Outcomes(fs, k, old(spool[k]), spool[k])
      ensures (forall c :: c in calls ==> c.CancelArrives? || !c.synchronized) ==>
        At(fs, Published) == At(old(fs), Published)
      ensures (calls != [] && calls[|calls| - 1] == Recovery(true, true)
               && old(spool[k]).RequiresPublicationRecovery()) ==> spool[k].state.IsTerminal()
      ensures CancelledFirst(old(spool[k]), calls) && StillUnpublished(old(fs), k, old(spool[k])) ==>
        Stopped(fs, k, spool[k]) && At(fs, Published) == At(old(fs), Published)
      ensures (CancelledFirst(old(spool[k]), calls) && StillUnpublished(old(fs), k, old(spool[k]))
               && old(spool[k]).InPhase(ReadyToCommit)) ==> EndsCancelled(fs, k, spool[k])
    {
      hide Conserves, OnlySlotsOf, Alone, Injective, Fits, Confined, Outcomes, Served, Stopped, EndsCancelled,
           StillUnpublished, ShownOnce, Shown;
      ghost var first, before := spool[k], fs;
      ghost var stops := CancelledFirst(first, calls) && StillUnpublished(fs, k, first);
      var i := 0;
      NothingIsConfined(k, fs);
      RecoveryBegins(shown, fs, k, first);
      while i < |calls|
        invariant 0 <= i <= |calls|
        invariant Valid(k) && Confined(k, before, fs) && OnlyRecordOf(k, old(spool), spool)
        invariant shown == Shown(old(shown), before, fs) && ShownOnce(before, fs, k, spool[k])
        invariant Outcomes(fs, k, first, spool[k])
        invariant (forall c :: c in calls[..i] ==> c.CancelArrives? || !c.synchronized) ==>
          At(fs, Published) == At(before, Published)
        invariant 0 < i && calls[i - 1] == Recovery(true, true) && first.RequiresPublicationRecovery() ==>
          spool[k].state.IsTerminal()
        invariant stops && (0 < i || first.cancelRequested) ==>
          Stopped(fs, k, spool[k]) && At(fs, Published) == At(before, Published)
        invariant stops && first.InPhase(ReadyToCommit) && (0 < i || first.cancelRequested) ==>
          EndsCancelled(fs, k, spool[k])
        invariant i == 0 ==> fs == before && spool[k] == first
      {
        ghost var r, between := spool[k], fs;
        ghost var move := Serve(k, calls[i]);
        ServedOutcomes(between, fs, k, first, r, spool[k], calls[i], move);
        ConfinedKeepsPublished(k, between, fs);
        ServedShows(old(shown), before, between, fs, k, r, spool[k], calls[i], move);
        ConfinedComposes(k, before, between, fs);
        ServedPublic(between, fs, k, r, spool[k], calls[i], move);
        if stops {
          if 0 < i || first.cancelRequested {
            ServedStops(between, fs, k, r, spool[k], calls[i], move);
          } else {
            CancelServed(between, fs, k, r, spool[k], calls[i], move);
          }
        }
        assert calls[..i + 1] == calls[..i] + [calls[i]];
        i := i + 1;
      }
      assert calls[..i] == calls;
    }

    // Operator commands

    method RetryDurability(k: Key, mirror: Name, spec: Spec, healthy: bool) returns (s: Status)
      requires Valid(k)
      modifies `spool, `unsynced
      ensures Valid(k) && OnlyRecordOf(k, old(spool), spool)
      ensures spool[k] == old(spool[k]) || Addresses(old(spool[k]), mirror, spec)
      ensures spool[k] == old(spool[k]) || spool[k] == CommittedRecord(old(spool[k]))
      ensures spool[k] != old(spool[k]) && spool[k].state.Succeeded? ==> !unsynced
      ensures healthy && Addresses(old(spool[k]), mirror, spec) ==>
        s.Completed? && spool[k] == CommittedRecord(old(spool[k]))
    {
      hide Conserves, OnlySlotsOf, Alone, Injective, Planned;
      if !Addresses(spool[k], mirror, spec) {
        return Errored;
      }
      var record := spool[k];
      var next: SpoolRecord;
      ghost var move: Move;
      s, next, move := FinishVisible(k, record, healthy, false);
    }

    /**
      A recovery whose only failure is the sync leaves what the operator can settle: a retry
      makes the success durable, and giving up fences the tree.
     */
    method SettleAfterFailedSync(k: Key, giveUp: bool)
      requires Valid(k) && !spool[k].cancelRequested && !spool[k].state.IsTerminal()
      requires spool[k].InPhase(PreparingExchange) || spool[k].InPhase(ReadyToCommit)
               || spool[k].InPhase(VisiblePendingDurability)
      modifies this
      ensures Valid(k) && spool[k].publication.Some? && Visible(fs, k, spool[k].publication.value)
      ensures giveUp ==> spool[k].IsFence() && spool[k].state.Failed?
      ensures !giveUp ==> spool[k].InPhase(CommittedPendingReport) && spool[k].state.Succeeded? && !unsynced
    {
      hide Conserves, OnlySlotsOf, Alone, Injective, Planned, Confined, OnlyRecordOf, Staged;
      ghost var record := spool[k];
      ghost var move: Move;
      var s: Status;
      s, move := Recover(k, true, AtDurability);
      PendingIsAddressed(mirror, fs, spool, k, record, move);
      if giveUp {
        s := Abandon(k, mirror, spool[k].spec, true);
      } else {
        s := RetryDurability(k, mirror, spool[k].spec, true);
      }
      SettledIsVisible(mirror, fs, spool, k);
    }

    /** Gives up on a visible publication: its fence is durable before the failure is reported, and nothing moves. */
    method Abandon(k: Key, mirror: Name, spec: Spec, healthy: bool) returns (s: Status)
      requires Valid(k)
      modifies `spool
      ensures Valid(k) && OnlyRecordOf(k, old(spool), spool)
      ensures spool[k] == old(spool[k])
              || (Addresses(old(spool[k]), mirror, spec) && spool[k] == FencedRecord(old(spool[k])))
      ensures s.Completed? ==> spool[k] == FencedRecord(old(spool[k]))
      ensures healthy && Addresses(old(spool[k]), mirror, spec) ==> s.Completed?
    {
      hide Conserves, OnlySlotsOf, Alone, Injective;
      NothingIsConfined(k, fs);
      if !Addresses(spool[k], mirror, spec) {
        return Errored;
      }
      s := Write(k, FencedRecord(spool[k]), healthy);
      ConfinedKeepsSite(this.mirror, old(fs), old(spool), fs, spool, k);
    }

    /** What clearing a fence checks of the namespace first. */
    method VerifyVisibleNamespace(p: PublicationState, healthy: bool) returns (verified: bool)
      ensures verified ==> NamespaceVerified(fs, p)
      ensures healthy && NamespaceVerified(fs, p) ==> verified
    {
      if p.candidate.None? {
        return false;
      }
      var s, published := Probe(Published, healthy);
      if !s.Completed? || published != p.candidate {
        return false;
      }
      var exchange: Option<Identity>;
      s, exchange := Probe(Exchange, healthy);
      verified := s.Completed? && exchange == p.published;
    }

    /** Whether another record of the mirror awaits recovery; a record that cannot be read stops the scan. */
    method ScanForRecoverable(k: Key, mirror: Name, healthy: bool) returns (s: Status)
      ensures s.Completed? ==> !OtherRecoverable(spool, k, mirror)
      ensures healthy && !OtherRecoverable(spool, k, mirror) ==> s.Completed?
    {
      var todo := spool.Keys - {k};
      while todo != {}
        invariant todo <= spool.Keys - {k}
        invariant forall j :: j in spool && j != k && j !in todo ==>
          !(spool[j].RequiresPublicationRecovery() && spool[j].publication.value.mirror == mirror)
        decreases |todo|
      {
        var j :| j in todo;
        s := Call(healthy);
        if !s.Completed? || (spool[j].RequiresPublicationRecovery() && spool[j].publication.value.mirror == mirror) {
          return if s.Died? then Died else Errored;
        }
        todo := todo - {j};
      }
      s := Completed;
    }

    /** `retire`: the record's file is renamed away; the call may fail having done so. */
    method Retire(k: Key, healthy: bool) returns (s: Status)
      modifies `spool
      ensures spool == old(spool) || spool == Without(old(spool), k)
      ensures s.Completed? ==> spool == Without(old(spool), k)
      ensures healthy ==> s.Completed?
    {
      var applied := *;
      s := Call(healthy);
      if s.Completed? || applied {
        spool := Without(spool, k);
      }
    }

    /**
      `clear_fence`: removes exactly the fence it names, acknowledged and logged, with the
      fenced tree public, its predecessor in the exchange slot, and nothing of the mirror
      left to recover.
     */
    method ClearFence(k: Key, mirror: Name, spec: Spec, healthy: bool) returns (s: Status)
      modifies `spool
      ensures s.Completed? ==> spool == Without(old(spool), k)
      ensures spool == old(spool) ||
        (&& spool == Without(old(spool), k) && MayClearFence(old(spool), k, mirror, spec, true)
         && NamespaceVerified(fs, old(spool)[k].publication.value))
      ensures (healthy && k in old(spool) && old(spool)[k].publication.Some?) ==>
        (s.Completed? <==>
           MayClearFence(old(spool), k, mirror, spec, NamespaceVerified(fs, old(spool)[k].publication.value)))
    {
      hide OtherRecoverable;
      if k !in spool || !IsExactly(spool[k], mirror, spec) || !spool[k].IsFence()
         || spool[k].acknowledged < spool[k].sequence || !spool[k].logComplete {
        return Errored;
      }
      var verified := VerifyVisibleNamespace(spool[k].publication.value, healthy);
      if !verified {
        return Errored;
      }
      s := ScanForRecoverable(k, mirror, healthy);
      if s.Completed? {
        s := Retire(k, healthy);
      }
    }
  }
}
