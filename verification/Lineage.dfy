/**
  Every history of one mirror's atomic attempts: admissions, candidates, executions,
  commits, cancellations, restarts, recoveries, operator commands and retirements, each
  failing or interrupted anywhere. What was ever public is exactly the candidates of
  the attempts that became visible, in order.

  Premises: the server has at most one attempt of a mirror executing and starts none
  twice (module Safety and module Launches), and the spool is not reset.
 */
module Lineage {
  import opened Common
  import opened Lifecycle
  import opened StoreModel
  import opened Spool
  import opened AgentModel
  import opened Namespace
  import opened Publication
  import opened Generations

  /**
    The mirror at one moment. `running` is the attempt whose process may be alive,
    `bare` says that it has no candidate yet. `made` holds the candidate of every attempt,
    `revealed` the attempts that changed the public path, in order, and `gone` the last
    record of every attempt that left the spool.
   */
  datatype Snapshot = Snapshot(
    fs: Fs, spool: map<Key, SpoolRecord>, shown: seq<Identity>, running: Option<Key>, bare: bool,
    made: map<Key, Identity>, revealed: seq<Key>, gone: map<Key, SpoolRecord>)

  const NOTHING: Snapshot := Snapshot(map[], map[], [], None, false, map[], [], map[])

  datatype Event =
    | Start(key: Key, spec: Spec)
    | Prepare(key: Key)
    | Spawn(key: Key)
    | LaunchFails(key: Key, kind: FailureKind)
    | Finish(key: Key, outcome: Outcome)
    | Restart
    | Cancel(key: Key)
    | RecoverBy(key: Key, call: RecoveryCall)
    | Report(key: Key, sequence: nat, complete: bool)
    | RetryDurability(key: Key, spec: Spec)
    | Abandon(key: Key, spec: Spec)
    | ClearFence(key: Key, spec: Spec)
    | Retire(key: Key)

  // What each event may do

  predicate AdmissionBlocked(spool: map<Key, SpoolRecord>, mirror: Name) {
    exists j :: j in spool && OfMirror(spool[j], mirror) && !spool[j].InPhase(Executing)
  }

  predicate Unknown(s: Snapshot, k: Key) {
    k !in s.spool && k !in s.made && k !in s.gone
  }

  /**
    Admission collects garbage and counts; below the bound, and with nothing to recover,
    the start is accepted. A refusal is recorded, and either write may fail.
   */
  ghost predicate Starts(mirror: Name, bound: nat, a: Snapshot, k: Key, spec: Spec, b: Snapshot) {
    && a.running.None? && Unknown(a, k) && spec.document.mode.Atomic? && spec.mirror == mirror
    && (b.fs == a.fs || (!AdmissionBlocked(a.spool, mirror) && Collected(a.spool, mirror, a.fs, b.fs)))
    && (|| b == a.(fs := b.fs)
        || b == a.(fs := b.fs, spool := a.spool[k := RejectedRecord(spec, None)])
        || b == a.(fs := b.fs, spool := a.spool[k := AcceptedRecord(spec, None)])
        || (&& b == a.(fs := b.fs, spool := a.spool[k := AcceptedRecord(spec, None)], running := Some(k), bare := true)
            && !AdmissionBlocked(a.spool, mirror) && |PrivateGenerations(b.fs)| < bound))
  }

  ghost predicate Prepares(a: Snapshot, k: Key, b: Snapshot) {
    && a.running == Some(k) && a.bare && CandidateAdded(k, a.fs, b.fs) && Injective(b.fs)
    && b == a.(fs := b.fs, bare := false,
               made := if Candidate(k) in b.fs then a.made[k := b.fs[Candidate(k)]] else a.made)
  }

  /** The record a task may hold in memory for the one on disk. */
  predicate Remembers(memory: SpoolRecord, disk: SpoolRecord) {
    && memory.publication == disk.publication && memory.cancelRequested == disk.cancelRequested
    && memory.spec == disk.spec && !memory.state.IsTerminal()
  }

  /** Whose turn it was to change the public path. */
  function Revealed(a: Snapshot, k: Key, shown: seq<Identity>): seq<Key> {
    if shown == a.shown then a.revealed else a.revealed + [k]
  }

  /** An event that moves the slots of one attempt and its record. */
  ghost predicate MovesSlots(a: Snapshot, k: Key, b: Snapshot) {
    && Confined(k, a.fs, b.fs) && OnlyRecordOf(k, a.spool, b.spool) && b.shown == Shown(a.shown, a.fs, b.fs)
    && b == a.(fs := b.fs, spool := b.spool, shown := b.shown, revealed := Revealed(a, k, b.shown),
               running := b.running)
  }

  ghost predicate Finishes(mirror: Name, a: Snapshot, k: Key, memory: SpoolRecord, b: Snapshot) {
    && a.running == Some(k) && !a.bare && b.running.None? && MovesSlots(a, k, b) && Injective(b.fs)
    && Remembers(memory, a.spool[k]) && CommitLeaves(a.fs, b.fs, k, memory, b.spool[k])
    && OfMirror(b.spool[k], mirror) && RecordFits(b.fs, k, b.spool[k])
  }

  ghost predicate Recovers(mirror: Name, a: Snapshot, k: Key, call: RecoveryCall, move: Move, b: Snapshot) {
    && b.running == a.running && MovesSlots(a, k, b) && Injective(b.fs) && !a.spool[k].InPhase(Executing)
    && Served(a.fs, b.fs, k, a.spool[k], b.spool[k], call, move) && OfMirror(a.spool[k], mirror)
    && OfMirror(b.spool[k], mirror) && RecordFits(b.fs, k, b.spool[k])
  }

  /** What a record may become while the slots stay: no plan before and after, or the same one. */
  predicate RecordKept(fs: Fs, k: Key, r: SpoolRecord, after: SpoolRecord) {
    || after == r
    || (&& r.publication.Some? && after.publication.Some?
        && after.publication.value.mirror == r.publication.value.mirror
        && (r.InPhase(Executing) <==> after.InPhase(Executing))
        && (!r.InPhase(Executing) ==> SamePlan(r.publication.value, after.publication.value))
        && RecordFits(fs, k, after))
  }

  /** An event that writes records and moves nothing. */
  ghost predicate WritesRecords(a: Snapshot, b: Snapshot) {
    && b.spool.Keys == a.spool.Keys && (forall j :: j in a.spool ==> RecordKept(a.fs, j, a.spool[j], b.spool[j]))
    && b == a.(spool := b.spool, running := b.running, bare := b.bare)
    && (b.running == a.running || b.running.None?) && (b.bare ==> a.bare && b.running == a.running)
  }

  /** What an event that only writes makes of the record it concerns. */
  function Written(e: Event, r: SpoolRecord): SpoolRecord {
    match e
    case Spawn(_) => RunningRecord(r)
    case LaunchFails(_, kind) => LaunchFailure(r, kind)
    case Restart => RecoveredRecord(r)
    case Cancel(_) => r.(cancelRequested := true)
    case Report(_, sequence, complete) =>
      Acknowledge(r, sequence).(logComplete := r.logComplete || complete)
    case RetryDurability(_, _) => if r.publication.Some? then CommittedRecord(r) else r
    case Abandon(_, _) => if r.publication.Some? then FencedRecord(r) else r
    case _ => r
  }

  /** Every record is as before or what the event makes of it, and a task ends with its launch or its process. */
  ghost predicate WritesOnly(a: Snapshot, e: Event, b: Snapshot) {
    && b.spool.Keys == a.spool.Keys
    && (forall j :: j in a.spool ==>
          b.spool[j] == a.spool[j] || ((e.Restart? || e.key == j) && b.spool[j] == Written(e, a.spool[j])))
    && b.running == (if e.Restart? || e.LaunchFails? then None else a.running)
  }

  /** An ended record leaves the spool: reported and unprotected, or a fence that was cleared. */
  ghost predicate Removes(mirror: Name, a: Snapshot, k: Key, b: Snapshot) {
    && k in a.spool && OfMirror(a.spool[k], mirror) && a.spool[k].state.IsTerminal()
    && (a.spool[k].ReadyForCleanup() || a.spool[k].IsFence()) && a.running != Some(k)
    && b == a.(spool := Without(a.spool, k), gone := a.gone[k := a.spool[k]])
  }

  ghost predicate EventStep(mirror: Name, bound: nat, a: Snapshot, e: Event, b: Snapshot) {
    || b == a
    || match e
       case Start(k, spec) => Starts(mirror, bound, a, k, spec, b)
       case Prepare(k) => Prepares(a, k, b)
       case Finish(k, _) => exists memory :: Finishes(mirror, a, k, memory, b)
       case RecoverBy(k, call) => exists move :: Recovers(mirror, a, k, call, move, b)
       case ClearFence(k, _) => Removes(mirror, a, k, b)
       case Retire(k) => Removes(mirror, a, k, b)
       case _ => WritesRecords(a, b) && WritesOnly(a, e, b)
  }

  // What each event achieves when no call fails

  /** The record a task holds once its process has run. */
  function Ran(r: SpoolRecord): SpoolRecord {
    r.(state := Running, sequence := 2)
  }

  predicate NoGarbage(mirror: Name, spool: map<Key, SpoolRecord>, fs: Fs) {
    forall p :: p in fs ==> !IsGarbage(spool, mirror, p)
  }

  /** The start of an attempt no start was seen for, while nothing executes: accepted exactly if nothing bars it. */
  ghost predicate StartAchieves(mirror: Name, bound: nat, a: Snapshot, k: Key, spec: Spec, b: Snapshot) {
    a.running.None? && spec.document.mode.Atomic? && spec.mirror == mirror ==>
      var admitted := !AdmissionBlocked(a.spool, mirror) && |PrivateGenerations(b.fs)| < bound;
      && (!AdmissionBlocked(a.spool, mirror) ==> NoGarbage(mirror, a.spool, b.fs))
      && b.spool == a.spool[k := if admitted then AcceptedRecord(spec, None) else RejectedRecord(spec, None)]
      && b.running == if admitted then Some(k) else None
  }

  /** The end of an execution: public and reported as a success, failed without a candidate, or as its outcome says. */
  predicate FinishAchieves(a: Snapshot, k: Key, outcome: Outcome, b: Snapshot) {
    a.running == Some(k) && !a.bare && k in a.spool && !a.spool[k].state.IsTerminal() ==>
      && b.running.None? && k in b.spool
      && if !GoesOnToPublish(Ran(a.spool[k]), outcome) then
           b.fs == a.fs && b.spool[k] == FinalRecord(Ran(a.spool[k]), outcome)
         else if Candidate(k) in a.fs then
           && b.spool[k] == CommittedRecord(Prepared(a.fs, k, Ran(a.spool[k])))
           && At(b.fs, Published) == At(a.fs, Candidate(k)) && b.revealed == a.revealed + [k]
         else b.fs == a.fs && b.spool[k] == Ran(a.spool[k]).Terminal(Failed, Some(InvalidResult))
  }

  /** Whether a writing event finds the record and the task it is for. */
  predicate Concerns(mirror: Name, a: Snapshot, e: Event, r: SpoolRecord) {
    && OfMirror(r, mirror)
    && match e
       case Spawn(k) => a.running == Some(k) && r.state.Accepted?
       case LaunchFails(k, _) => a.running == Some(k) && !r.state.IsTerminal()
       case Cancel(_) => !r.state.IsTerminal()
       case Report(k, _, complete) => complete ==> r.state.IsTerminal() || a.running != Some(k)
       case RetryDurability(_, spec) => Addresses(r, mirror, spec)
       case Abandon(_, spec) => Addresses(r, mirror, spec)
       case _ => false
  }

  ghost predicate Achieves(mirror: Name, bound: nat, a: Snapshot, e: Event, b: Snapshot) {
    match e
    case Start(k, spec) => StartAchieves(mirror, bound, a, k, spec, b)
    case Prepare(k) =>
      a.running == Some(k) && a.bare && Candidate(k) !in a.fs && Basis(k) !in a.fs ==>
        Candidate(k) in b.fs && Basis(k) in b.fs && !b.bare
    case Finish(k, outcome) => FinishAchieves(a, k, outcome, b)
    case Restart => b.running.None? && forall j :: j in b.spool && OfMirror(b.spool[j], mirror) ==>
                                         !NeedsNormalizing(b.spool[j])
    case RecoverBy(k, call) =>
      call == Recovery(true, true) && Busy(mirror, a, k) && a.spool[k].RequiresPublicationRecovery() ==>
        k in b.spool && b.spool[k].state.IsTerminal()
    case ClearFence(k, spec) =>
      && k in a.spool && a.spool[k].publication.Some?
      && MayClearFence(a.spool, k, mirror, spec, NamespaceVerified(a.fs, a.spool[k].publication.value)) ==>
        k !in b.spool
    case Retire(k) =>
      k in a.spool && OfMirror(a.spool[k], mirror) && a.spool[k].ReadyForCleanup() && a.running != Some(k) ==>
        k !in b.spool
    case _ =>
      e.key in a.spool && Concerns(mirror, a, e, a.spool[e.key]) ==>
        e.key in b.spool && b.spool[e.key] == Written(e, a.spool[e.key])
  }

  /** The attempts some event starts. */
  function Begun(events: seq<Event>): set<Key> {
    set e | e in events && e.Start? :: e.key
  }

  /** The event is not the start of an attempt that was started before. */
  predicate NewlyStarted(events: seq<Event>, i: nat)
    requires i < |events|
  {
    events[i].Start? ==> events[i].key !in Begun(events[..i])
  }

  // What every history keeps

  function LastBut(shown: seq<Identity>, n: nat): Option<Identity> {
    if n < |shown| then Some(shown[|shown| - 1 - n]) else None
  }

  /** An attempt with a durable plan. */
  predicate Busy(mirror: Name, s: Snapshot, j: Key) {
    j in s.spool && OfMirror(s.spool[j], mirror) && !s.spool[j].InPhase(Executing)
  }

  /** One that is not public yet. */
  predicate Hidden(mirror: Name, s: Snapshot, j: Key) {
    Busy(mirror, s, j) && NotVisible(s.fs, j, s.spool[j].publication.value)
  }

  predicate IsPublic(mirror: Name, s: Snapshot, j: Key) {
    Busy(mirror, s, j) && Visible(s.fs, j, s.spool[j].publication.value)
  }

  /** How an attempt ended: visible, reported as a success or fenced as a failure, or not. */
  predicate EndedVisible(r: SpoolRecord) {
    (r.state.Succeeded? && r.InPhase(CommittedPendingReport)) || r.IsFence()
  }

  ghost predicate SoundRecords(mirror: Name, s: Snapshot) {
    && Injective(s.fs)
    && (forall j :: j in s.spool && OfMirror(s.spool[j], mirror) ==> RecordFits(s.fs, j, s.spool[j]))
    && (forall i, j :: Busy(mirror, s, i) && Busy(mirror, s, j) ==> i == j)
    && (s.running.Some? ==>
          && s.running.value in s.spool && OfMirror(s.spool[s.running.value], mirror)
          && !AdmissionBlocked(s.spool, mirror))
  }

  predicate SoundBound(bound: nat, s: Snapshot) {
    && |PrivateGenerations(s.fs)| <= bound
    && (s.bare ==> s.running.Some? && |PrivateGenerations(s.fs)| < bound)
  }

  /** The last tree shown is public, and the one before it is kept: in the exchange slot, or by a hidden plan. */
  ghost predicate SoundSlots(mirror: Name, s: Snapshot) {
    && At(s.fs, Published) == LastBut(s.shown, 0)
    && (forall j :: Hidden(mirror, s, j) ==> s.spool[j].publication.value.previous == LastBut(s.shown, 1))
    && ((forall j :: !Hidden(mirror, s, j)) ==> At(s.fs, Exchange) == LastBut(s.shown, 1))
  }

  /** The trees shown are the candidates of the attempts that revealed them, each attempt once. */
  predicate IsLineage(shown: seq<Identity>, revealed: seq<Key>, made: map<Key, Identity>) {
    && |revealed| == |shown|
    && (forall i :: 0 <= i < |shown| ==> revealed[i] in made && made[revealed[i]] == shown[i])
    && (forall i, j :: 0 <= i < j < |revealed| ==> revealed[i] != revealed[j])
  }

  ghost predicate SoundLog(mirror: Name, s: Snapshot) {
    && IsLineage(s.shown, s.revealed, s.made)
    && (forall j :: j in s.spool && OfMirror(s.spool[j], mirror) ==>
          j !in s.gone && (j in s.revealed <==> IsPublic(mirror, s, j)))
    && (forall j :: j in s.gone ==> s.gone[j].state.IsTerminal() && (j in s.revealed <==> EndedVisible(s.gone[j])))
    && (forall j :: Busy(mirror, s, j) ==>
          j in s.made && s.spool[j].publication.value.candidate == Some(s.made[j]))
    && (forall j :: Candidate(j) in s.fs || Previous(j) in s.fs ==> j in s.made)
    && (s.running.Some? && Candidate(s.running.value) in s.fs ==>
          s.running.value in s.made && s.made[s.running.value] == s.fs[Candidate(s.running.value)])
  }

  ghost predicate Sound(mirror: Name, bound: nat, s: Snapshot) {
    SoundRecords(mirror, s) && SoundBound(bound, s) && SoundSlots(mirror, s) && SoundLog(mirror, s)
  }

  lemma NothingIsSound(mirror: Name, bound: nat)
    ensures Sound(mirror, bound, NOTHING)
  {
    assert PrivateGenerations(NOTHING.fs) == {};
  }

  // Events that write records

  lemma WritesKeep(mirror: Name, bound: nat, a: Snapshot, b: Snapshot)
    requires Sound(mirror, bound, a) && WritesRecords(a, b)
    ensures Sound(mirror, bound, b)
  {
    hide SoundRecords, SoundBound, SoundSlots, SoundLog, WritesRecords;
    WritesKeepBound(mirror, bound, a, b);
    WritesKeepRecords(mirror, bound, a, b);
    WritesKeepSlots(mirror, bound, a, b);
    WritesKeepLog(mirror, bound, a, b);
  }

  lemma WritesKeepBound(mirror: Name, bound: nat, a: Snapshot, b: Snapshot)
    requires Sound(mirror, bound, a) && WritesRecords(a, b)
    ensures SoundBound(bound, b)
  {
    hide SoundRecords, SoundSlots, SoundLog, PrivateGenerations;
  }

  lemma WritesKeepRecords(mirror: Name, bound: nat, a: Snapshot, b: Snapshot)
    requires Sound(mirror, bound, a) && WritesRecords(a, b)
    ensures SoundRecords(mirror, b)
  {
    hide SoundSlots, SoundLog, Fits, SamePlan;
    forall i, j | Busy(mirror, b, i) && Busy(mirror, b, j) ensures i == j {
      assert Busy(mirror, a, i) && Busy(mirror, a, j);
    }
    if AdmissionBlocked(b.spool, mirror) {
      var j :| j in b.spool && OfMirror(b.spool[j], mirror) && !b.spool[j].InPhase(Executing);
      assert AdmissionBlocked(a.spool, mirror);
    }
  }

  lemma SamePlanLooksAlike(fs: Fs, k: Key, p: PublicationState, q: PublicationState)
    requires SamePlan(p, q)
    ensures NotVisible(fs, k, p) <==> NotVisible(fs, k, q)
    ensures Visible(fs, k, p) <==> Visible(fs, k, q)
    ensures p.previous == q.previous && p.candidate == q.candidate
  {
  }

  lemma WrittenAlike(mirror: Name, a: Snapshot, b: Snapshot, j: Key)
    requires WritesRecords(a, b)
    ensures Hidden(mirror, b, j) <==> Hidden(mirror, a, j)
    ensures IsPublic(mirror, b, j) <==> IsPublic(mirror, a, j)
    ensures Hidden(mirror, a, j) || IsPublic(mirror, a, j) ==>
      && b.spool[j].publication.value.previous == a.spool[j].publication.value.previous
      && b.spool[j].publication.value.candidate == a.spool[j].publication.value.candidate
  {
    hide NotVisible, Visible, RecordFits, SamePlan;
    if j in a.spool && RecordKept(a.fs, j, a.spool[j], b.spool[j]) && a.spool[j] != b.spool[j] {
      if !a.spool[j].InPhase(Executing) {
        SamePlanLooksAlike(a.fs, j, a.spool[j].publication.value, b.spool[j].publication.value);
      }
    }
  }

  lemma WritesKeepSlots(mirror: Name, bound: nat, a: Snapshot, b: Snapshot)
    requires Sound(mirror, bound, a) && WritesRecords(a, b)
    ensures SoundSlots(mirror, b)
  {
    hide SoundRecords, SoundLog, SoundBound, Hidden, RecordKept;
    forall j ensures Hidden(mirror, b, j) <==> Hidden(mirror, a, j) {
      WrittenAlike(mirror, a, b, j);
    }
    forall j | Hidden(mirror, b, j)
      ensures j in b.spool && b.spool[j].publication.Some?
              && b.spool[j].publication.value.previous == LastBut(b.shown, 1)
    {
      WrittenAlike(mirror, a, b, j);
      HiddenHasPlan(mirror, b, j);
    }
  }

  lemma HiddenHasPlan(mirror: Name, s: Snapshot, j: Key)
    requires Hidden(mirror, s, j)
    ensures j in s.spool && s.spool[j].publication.Some?
  {
  }

  lemma WritesKeepLog(mirror: Name, bound: nat, a: Snapshot, b: Snapshot)
    requires Sound(mirror, bound, a) && WritesRecords(a, b)
    ensures SoundLog(mirror, b)
  {
    hide SoundRecords, SoundSlots, SoundBound, IsLineage, RecordFits;
    forall j | j in b.spool && OfMirror(b.spool[j], mirror)
      ensures j !in b.gone && (j in b.revealed <==> IsPublic(mirror, b, j))
      ensures !b.spool[j].InPhase(Executing) ==>
        j in b.made && b.spool[j].publication.value.candidate == Some(b.made[j])
    {
      WrittenAlike(mirror, a, b, j);
    }
  }

  // Events that move slots

  /** The plan an attempt follows: made over what is public and kept before it, for its own candidate. */
  predicate PlannedOver(s: Snapshot, k: Key, q: PublicationState) {
    && Planned(q) && q.published == LastBut(s.shown, 0) && q.previous == LastBut(s.shown, 1)
    && k in s.made && q.candidate == Some(s.made[k]) && k !in s.revealed
  }

  /** Where a move leaves an attempt that follows its plan: hidden, public, or as it found the slots. */
  ghost predicate FollowsPlan(mirror: Name, a: Snapshot, k: Key, q: PublicationState, b: Snapshot) {
    && MovesSlots(a, k, b) && Injective(b.fs) && PlannedOver(a, k, q)
    && k in a.spool && OfMirror(a.spool[k], mirror) && OfMirror(b.spool[k], mirror)
    && (forall j :: Busy(mirror, a, j) ==> j == k) && b.running.None? && !b.bare
    && RecordFits(b.fs, k, b.spool[k]) && SamePlan(q, b.spool[k].publication.value)
    && (b.spool[k].InPhase(Executing) ==> Untouched(b.fs, k, b.spool[k].publication.value))
  }

  lemma MovesKeepBound(mirror: Name, bound: nat, a: Snapshot, k: Key, b: Snapshot)
    requires Sound(mirror, bound, a) && MovesSlots(a, k, b) && !b.bare
    ensures SoundBound(bound, b)
  {
    hide SoundRecords, SoundSlots, SoundLog, PrivateGenerations, Confined;
    ConfinedKeepsBound(k, a.fs, b.fs);
  }

  lemma MovesKeepRecords(mirror: Name, bound: nat, a: Snapshot, k: Key, q: PublicationState, b: Snapshot)
    requires Sound(mirror, bound, a) && FollowsPlan(mirror, a, k, q, b)
    ensures SoundRecords(mirror, b)
  {
    hide SoundSlots, SoundLog, SoundBound, PlannedOver, Visible, NotVisible, Conserves, Injective;
    forall j | j in b.spool && OfMirror(b.spool[j], mirror) ensures RecordFits(b.fs, j, b.spool[j]) {
      if j != k {
        assert RecordFits(a.fs, j, a.spool[j]) && !Busy(mirror, a, j);
        assert At(b.fs, Previous(j)) == At(a.fs, Previous(j));
      }
    }
    forall i, j | Busy(mirror, b, i) && Busy(mirror, b, j) ensures i == j {
      assert i != k ==> Busy(mirror, a, i);
      assert j != k ==> Busy(mirror, a, j);
    }
  }

  /** The three places a plan can leave its attempt in, and what each does to the public path. */
  lemma PlanPlaces(mirror: Name, a: Snapshot, k: Key, q: PublicationState, b: Snapshot)
    requires FollowsPlan(mirror, a, k, q, b) && At(a.fs, Published) == LastBut(a.shown, 0)
    ensures k in b.spool && b.spool[k].publication.Some? && b.spool[k].publication.value.candidate == q.candidate
    ensures IsPublic(mirror, b, k) ==>
      && b.shown == a.shown + [a.made[k]] && b.revealed == a.revealed + [k] && !Hidden(mirror, b, k)
      && At(b.fs, Published) == q.candidate && At(b.fs, Exchange) == q.published
    ensures !IsPublic(mirror, b, k) ==>
      && b.shown == a.shown && b.revealed == a.revealed && At(b.fs, Published) == q.published
      && (if Hidden(mirror, b, k) then b.spool[k].publication.value.previous == q.previous
          else At(b.fs, Exchange) == q.previous)
  {
    hide Confined;
    var p := b.spool[k].publication.value;
    if !b.spool[k].InPhase(Executing) {
      PublishedIsOldOrNew(b.fs, k, p);
    }
  }

  lemma OthersStayPut(mirror: Name, a: Snapshot, k: Key, q: PublicationState, b: Snapshot, j: Key)
    requires FollowsPlan(mirror, a, k, q, b) && j != k
    ensures !Hidden(mirror, b, j) && !IsPublic(mirror, b, j) && !IsPublic(mirror, a, j) && !Busy(mirror, b, j)
  {
    hide NotVisible, Visible, PlannedOver, RecordFits, Confined;
    assert !Busy(mirror, a, j);
  }

  lemma MovesKeepSlots(mirror: Name, bound: nat, a: Snapshot, k: Key, q: PublicationState, b: Snapshot)
    requires Sound(mirror, bound, a) && FollowsPlan(mirror, a, k, q, b)
    ensures SoundSlots(mirror, b)
  {
    hide SoundRecords, SoundLog, SoundBound, Hidden, IsPublic, FollowsPlan;
    PlanPlaces(mirror, a, k, q, b);
    PlanIsOver(mirror, a, k, q, b);
    forall j ensures Hidden(mirror, b, j) ==> j == k {
      if j != k {
        OthersStayPut(mirror, a, k, q, b, j);
      }
    }
  }

  lemma PlanIsOver(mirror: Name, a: Snapshot, k: Key, q: PublicationState, b: Snapshot)
    requires FollowsPlan(mirror, a, k, q, b)
    ensures PlannedOver(a, k, q)
  {
  }

  lemma LastIsPublic(mirror: Name, bound: nat, s: Snapshot)
    requires Sound(mirror, bound, s)
    ensures At(s.fs, Published) == LastBut(s.shown, 0)
  {
    hide SoundRecords, SoundBound, SoundLog;
  }

  lemma RevealedOnce(mirror: Name, bound: nat, a: Snapshot, k: Key, q: PublicationState, b: Snapshot)
    requires Sound(mirror, bound, a) && FollowsPlan(mirror, a, k, q, b)
    ensures IsLineage(b.shown, b.revealed, b.made)
    ensures forall j :: j in b.revealed <==> j in a.revealed || (j == k && IsPublic(mirror, b, k))
  {
    hide SoundRecords, SoundBound, Hidden, IsPublic, RecordFits, Confined;
    PlanPlaces(mirror, a, k, q, b);
  }

  lemma PathsStayMade(before: Fs, after: Fs, k: Key, made: map<Key, Identity>)
    requires Confined(k, before, after) && k in made
    requires forall j :: Candidate(j) in before || Previous(j) in before ==> j in made
    ensures forall j :: Candidate(j) in after || Previous(j) in after ==> j in made
  {
    hide Conserves;
    forall j | j != k
      ensures At(after, Candidate(j)) == At(before, Candidate(j)) && At(after, Previous(j)) == At(before, Previous(j))
    {
    }
  }

  lemma MovesKeepLog(mirror: Name, bound: nat, a: Snapshot, k: Key, q: PublicationState, b: Snapshot)
    requires Sound(mirror, bound, a) && FollowsPlan(mirror, a, k, q, b)
    ensures SoundLog(mirror, b)
  {
    hide SoundRecords, SoundBound, SoundSlots, Hidden, IsPublic, RecordFits, Confined, IsLineage, Revealed, Planned;
    RevealedOnce(mirror, bound, a, k, q, b);
    PlanPlaces(mirror, a, k, q, b) by { LastIsPublic(mirror, bound, a); }
    PathsStayMade(a.fs, b.fs, k, a.made);
    forall j | j in b.spool && OfMirror(b.spool[j], mirror)
      ensures j !in b.gone && (j in b.revealed <==> IsPublic(mirror, b, j))
      ensures Busy(mirror, b, j) ==> j in b.made && b.spool[j].publication.value.candidate == Some(b.made[j])
    {
      if j != k {
        OthersStayPut(mirror, a, k, q, b, j);
      }
    }
  }

  lemma MovesKeep(mirror: Name, bound: nat, a: Snapshot, k: Key, q: PublicationState, b: Snapshot)
    requires Sound(mirror, bound, a) && FollowsPlan(mirror, a, k, q, b)
    ensures Sound(mirror, bound, b)
  {
    hide SoundRecords, SoundBound, SoundSlots, SoundLog, MovesSlots, RecordFits, PlannedOver;
    MovesKeepBound(mirror, bound, a, k, b);
    MovesKeepRecords(mirror, bound, a, k, q, b);
    MovesKeepSlots(mirror, bound, a, k, q, b);
    MovesKeepLog(mirror, bound, a, k, q, b);
  }

  /** The end of an execution follows the plan it made from the slots it found, or leaves them all. */
  lemma FinishKeeps(mirror: Name, bound: nat, a: Snapshot, k: Key, memory: SpoolRecord, b: Snapshot)
    requires Sound(mirror, bound, a) && Finishes(mirror, a, k, memory, b)
    ensures Sound(mirror, bound, b)
  {
    hide SoundRecords, SoundBound, SoundSlots, SoundLog, Accounted, Confined, Injective, FollowsPlan;
    RunningIsAlone(mirror, bound, a, k);
    if b.spool[k].InPhase(Executing) {
      UnmovedIsWritten(mirror, a, k, memory, b);
      WritesKeep(mirror, bound, a, b);
    } else {
      FinishPlan(mirror, bound, a, k, memory, b);
      MovesKeep(mirror, bound, a, k, Prepared(a.fs, k, memory).publication.value, b);
    }
  }

  lemma RunningIsAlone(mirror: Name, bound: nat, a: Snapshot, k: Key)
    requires Sound(mirror, bound, a) && a.running == Some(k)
    ensures k in a.spool && OfMirror(a.spool[k], mirror) && a.spool[k].InPhase(Executing)
    ensures At(a.fs, Previous(k)) == None
    ensures forall j :: !Busy(mirror, a, j) && !Hidden(mirror, a, j) && !IsPublic(mirror, a, j)
    ensures k !in a.revealed && At(a.fs, Exchange) == LastBut(a.shown, 1) && At(a.fs, Published) == LastBut(a.shown, 0)
    ensures Candidate(k) in a.fs ==> k in a.made && a.made[k] == a.fs[Candidate(k)]
  {
    hide SoundBound, NotVisible, Visible, IsLineage, AdmissionBlocked;
    assert RecordFits(a.fs, k, a.spool[k]) && !AdmissionBlocked(a.spool, mirror);
    forall j ensures !Busy(mirror, a, j) {
      BusyBlocks(mirror, a, j);
    }
    assert a.spool[k].InPhase(Executing) by {
      BusyBlocks(mirror, a, k);
    }
  }

  lemma BusyBlocks(mirror: Name, s: Snapshot, j: Key)
    ensures Busy(mirror, s, j) ==> AdmissionBlocked(s.spool, mirror)
  {
  }

  lemma UnmovedIsWritten(mirror: Name, a: Snapshot, k: Key, memory: SpoolRecord, b: Snapshot)
    requires Finishes(mirror, a, k, memory, b) && b.spool[k].InPhase(Executing)
    requires OfMirror(a.spool[k], mirror) && a.spool[k].InPhase(Executing) && At(a.fs, Previous(k)) == None
    ensures WritesRecords(a, b)
  {
    UntouchedIsUnmoved(a.fs, b.fs, k, memory, b.spool[k]);
  }

  lemma UntouchedIsUnmoved(before: Fs, fs: Fs, k: Key, memory: SpoolRecord, r: SpoolRecord)
    requires Confined(k, before, fs) && CommitLeaves(before, fs, k, memory, r) && r.InPhase(Executing)
    requires At(before, Previous(k)) == None
    ensures fs == before
  {
    hide Conserves;
    if fs != before {
      forall p ensures At(fs, p) == At(before, p) {
        assert p in {Published, Exchange, Candidate(k), Previous(k)} || At(fs, p) == At(before, p);
      }
      SameEntries(before, fs);
    }
  }

  lemma SameEntries(before: Fs, after: Fs)
    requires forall p :: At(after, p) == At(before, p)
    ensures after == before
  {
    forall p ensures p in after <==> p in before {
      assert At(after, p) == At(before, p);
    }
    forall p | p in before ensures after[p] == before[p] {
      assert At(after, p) == At(before, p);
    }
  }

  lemma FinishPlan(mirror: Name, bound: nat, a: Snapshot, k: Key, memory: SpoolRecord, b: Snapshot)
    requires Sound(mirror, bound, a) && Finishes(mirror, a, k, memory, b) && !b.spool[k].InPhase(Executing)
    ensures memory.publication.Some? && FollowsPlan(mirror, a, k, Prepared(a.fs, k, memory).publication.value, b)
  {
    hide Sound, Confined, Injective, Visible, NotVisible, Reported;
    RunningIsAlone(mirror, bound, a, k);
    PlansAlike(Prepared(a.fs, k, memory).publication.value, b.spool[k].publication.value);
  }

  lemma PlansAlike(q: PublicationState, p: PublicationState)
    requires SamePlan(q, p) && Planned(p) && q.outcome.None?
    ensures Planned(q)
  {
  }

  /** A recovery follows the plan on disk if it is hidden, and only writes the record if it is public. */
  lemma RecoverKeeps(mirror: Name, bound: nat, a: Snapshot, k: Key, call: RecoveryCall, move: Move, b: Snapshot)
    requires Sound(mirror, bound, a) && Recovers(mirror, a, k, call, move, b)
    ensures Sound(mirror, bound, b)
  {
    hide SoundRecords, SoundBound, SoundSlots, SoundLog, Confined, Injective, FollowsPlan, Served, Hidden;
    BusyIsAlone(mirror, bound, a, k);
    if Hidden(mirror, a, k) {
      RecoverPlan(mirror, bound, a, k, call, move, b);
      MovesKeep(mirror, bound, a, k, a.spool[k].publication.value, b);
    } else {
      PublicIsWritten(mirror, a, k, call, move, b);
      WritesKeep(mirror, bound, a, b);
    }
  }

  lemma BusyIsAlone(mirror: Name, bound: nat, a: Snapshot, k: Key)
    requires Sound(mirror, bound, a) && k in a.spool && OfMirror(a.spool[k], mirror) && !a.spool[k].InPhase(Executing)
    ensures a.running.None? && !a.bare && RecordFits(a.fs, k, a.spool[k])
    ensures forall j :: Busy(mirror, a, j) ==> j == k
    ensures Hidden(mirror, a, k) ==> PlannedOver(a, k, a.spool[k].publication.value)
    ensures At(a.fs, Published) == LastBut(a.shown, 0)
  {
    hide IsLineage, Injective, PrivateGenerations, AdmissionBlocked;
    BusyBlocks(mirror, a, k);
    assert Busy(mirror, a, k);
    if Hidden(mirror, a, k) {
      PublishedIsOldOrNew(a.fs, k, a.spool[k].publication.value);
    }
  }

  lemma RecoverPlan(mirror: Name, bound: nat, a: Snapshot, k: Key, call: RecoveryCall, move: Move, b: Snapshot)
    requires Sound(mirror, bound, a) && Recovers(mirror, a, k, call, move, b) && Hidden(mirror, a, k)
    ensures FollowsPlan(mirror, a, k, a.spool[k].publication.value, b)
  {
    hide Sound, Confined, Injective, Served, RecordFits, PlannedOver;
    BusyIsAlone(mirror, bound, a, k);
    ServedPlan(a.fs, b.fs, k, a.spool[k], b.spool[k], call, move);
  }

  lemma ServedPlan(fs: Fs, after: Fs, k: Key, r: SpoolRecord, next: SpoolRecord, call: RecoveryCall, move: Move)
    requires Served(fs, after, k, r, next, call, move) && r.publication.Some? && !r.InPhase(Executing)
    ensures next.publication.Some? && SamePlan(r.publication.value, next.publication.value)
    ensures next.InPhase(Executing) ==> Untouched(after, k, next.publication.value)
  {
    hide RecoveryMove, RecoveryEnds, Quiescent, StillUnpublished, NotVisible, Visible;
  }

  lemma PublicIsWritten(mirror: Name, a: Snapshot, k: Key, call: RecoveryCall, move: Move, b: Snapshot)
    requires Recovers(mirror, a, k, call, move, b) && !Hidden(mirror, a, k) && k in a.spool
             && OfMirror(a.spool[k], mirror)
    requires RecordFits(a.fs, k, a.spool[k])
    ensures WritesRecords(a, b)
  {
    hide Confined, Injective, RecordFits;
    ServedPublicly(a.fs, b.fs, k, a.spool[k], b.spool[k], call, move);
  }

  lemma ServedPublicly(fs: Fs, after: Fs, k: Key, r: SpoolRecord, next: SpoolRecord, call: RecoveryCall, move: Move)
    requires Served(fs, after, k, r, next, call, move) && r.publication.Some? && !r.InPhase(Executing)
    requires !NotVisible(fs, k, r.publication.value) && RecordFits(fs, k, r)
    ensures after == fs && next.publication.Some? && SamePlan(r.publication.value, next.publication.value)
    ensures !next.InPhase(Executing)
  {
    hide RecoveryEnds;
  }

  // Starts, candidates and removals

  /** Collected garbage takes no slot: with no attempt busy, only what no record names. */
  lemma CollectedSlots(mirror: Name, a: Snapshot, fs: Fs, j: Key)
    requires Collected(a.spool, mirror, a.fs, fs)
    ensures At(fs, Published) == At(a.fs, Published) && At(fs, Exchange) == At(a.fs, Exchange)
    ensures At(a.fs, Previous(j)) == None ==> At(fs, Previous(j)) == None
    ensures j in a.spool && OfMirror(a.spool[j], mirror) ==> At(fs, Candidate(j)) == At(a.fs, Candidate(j))
  {
    assert !IsGarbage(a.spool, mirror, Published) && !IsGarbage(a.spool, mirror, Exchange);
    if j in a.spool && OfMirror(a.spool[j], mirror) {
      assert !IsGarbage(a.spool, mirror, Candidate(j));
    }
  }

  lemma NobodyBusy(mirror: Name, s: Snapshot)
    requires !AdmissionBlocked(s.spool, mirror)
    ensures forall j :: !Busy(mirror, s, j) && !Hidden(mirror, s, j) && !IsPublic(mirror, s, j)
  {
    hide NotVisible, Visible;
    forall j ensures !Busy(mirror, s, j) {
      BusyBlocks(mirror, s, j);
    }
  }

  lemma CollectedSound(mirror: Name, bound: nat, a: Snapshot, fs: Fs)
    requires Sound(mirror, bound, a) && !AdmissionBlocked(a.spool, mirror) && a.running.None?
    requires Collected(a.spool, mirror, a.fs, fs)
    ensures Sound(mirror, bound, a.(fs := fs))
  {
    hide IsLineage, PrivateGenerations, AdmissionBlocked, Visible, NotVisible;
    var b := a.(fs := fs);
    NobodyBusy(mirror, a);
    NobodyBusy(mirror, b);
    CollectedSlots(mirror, a, fs, Key(0, 0));
    assert |PrivateGenerations(fs)| <= |PrivateGenerations(a.fs)| by {
      FewerGenerations(fs, a.fs);
    }
    forall j | j in a.spool && OfMirror(a.spool[j], mirror) ensures RecordFits(fs, j, a.spool[j]) {
      assert RecordFits(a.fs, j, a.spool[j]) && !Busy(mirror, a, j);
      CollectedSlots(mirror, a, fs, j);
    }
  }

  lemma FewerGenerations(after: Fs, before: Fs)
    requires forall p :: p in after ==> p in before
    ensures |PrivateGenerations(after)| <= |PrivateGenerations(before)|
  {
    CardinalityOfSubset(PrivateGenerations(after), PrivateGenerations(before));
  }

  lemma StartKeeps(mirror: Name, bound: nat, a: Snapshot, k: Key, spec: Spec, b: Snapshot)
    requires Sound(mirror, bound, a) && Starts(mirror, bound, a, k, spec, b)
    ensures Sound(mirror, bound, b)
  {
    hide Sound, Collected, PrivateGenerations, AdmissionBlocked, AcceptedRecord, RejectedRecord;
    if b.fs != a.fs {
      CollectedSound(mirror, bound, a, b.fs);
    }
    var c := a.(fs := b.fs);
    assert Sound(mirror, bound, c);
    if b != c {
      assert b.spool[k] == AcceptedRecord(spec, None) || b.spool[k] == RejectedRecord(spec, None);
      NewcomerSound(mirror, bound, c, k, spec, b.spool[k]);
      if b.running.Some? {
        AdmittedSound(mirror, bound, c.(spool := b.spool), k);
      }
    }
  }

  /** A record without a plan takes part in nothing. */
  lemma NewcomerIsIdle(mirror: Name, a: Snapshot, k: Key, r: SpoolRecord)
    requires k !in a.spool && r.InPhase(Executing)
    ensures var b := a.(spool := a.spool[k := r]);
            forall j :: && (Busy(mirror, b, j) <==> Busy(mirror, a, j))
                        && (Hidden(mirror, b, j) <==> Hidden(mirror, a, j))
                        && (IsPublic(mirror, b, j) <==> IsPublic(mirror, a, j))
  {
    hide NotVisible, Visible;
  }

  lemma NewcomerSound(mirror: Name, bound: nat, a: Snapshot, k: Key, spec: Spec, r: SpoolRecord)
    requires Sound(mirror, bound, a) && Unknown(a, k) && a.running.None?
    requires spec.document.mode.Atomic? && spec.mirror == mirror
    requires r == AcceptedRecord(spec, None) || r == RejectedRecord(spec, None)
    ensures var b := a.(spool := a.spool[k := r]);
            && Sound(mirror, bound, b) && OfMirror(r, mirror) && r.InPhase(Executing)
            && (AdmissionBlocked(b.spool, mirror) ==> AdmissionBlocked(a.spool, mirror))
  {
    hide IsLineage, PrivateGenerations, Hidden, IsPublic, Busy, Injective;
    NewcomerIsIdle(mirror, a, k, r);
    NewcomerRevealedNothing(a, k, mirror, bound);
    AbsentIsIdle(mirror, a, k);
  }

  lemma AbsentIsIdle(mirror: Name, a: Snapshot, k: Key)
    requires k !in a.spool
    ensures !Busy(mirror, a, k) && !Hidden(mirror, a, k) && !IsPublic(mirror, a, k)
  {
  }

  lemma AdmittedSound(mirror: Name, bound: nat, a: Snapshot, k: Key)
    requires Sound(mirror, bound, a) && k in a.spool && OfMirror(a.spool[k], mirror) && k !in a.made
    requires !AdmissionBlocked(a.spool, mirror) && a.running.None? && |PrivateGenerations(a.fs)| < bound
    ensures Sound(mirror, bound, a.(running := Some(k), bare := true))
  {
    hide IsLineage, PrivateGenerations, Hidden, IsPublic, Busy, Injective, AdmissionBlocked;
    var b := a.(running := Some(k), bare := true);
    SameView(mirror, a, b);
    assert SoundRecords(mirror, b);
    assert SoundBound(bound, b);
    assert SoundSlots(mirror, b);
    assert SoundLog(mirror, b);
  }

  lemma SameView(mirror: Name, a: Snapshot, b: Snapshot)
    requires b.fs == a.fs && b.spool == a.spool
    ensures forall j :: && (Busy(mirror, b, j) <==> Busy(mirror, a, j))
                        && (Hidden(mirror, b, j) <==> Hidden(mirror, a, j))
                        && (IsPublic(mirror, b, j) <==> IsPublic(mirror, a, j))
  {
    hide NotVisible, Visible;
  }

  lemma NewcomerRevealedNothing(a: Snapshot, k: Key, mirror: Name, bound: nat)
    requires Sound(mirror, bound, a) && Unknown(a, k)
    ensures k !in a.revealed
  {
    hide SoundRecords, SoundBound, SoundSlots;
  }

  lemma PrepareKeeps(mirror: Name, bound: nat, a: Snapshot, k: Key, b: Snapshot)
    requires Sound(mirror, bound, a) && Prepares(a, k, b)
    ensures Sound(mirror, bound, b)
  {
    hide PrivateGenerations, AdmissionBlocked, Visible, NotVisible, Injective;
    RunningIsAlone(mirror, bound, a, k);
    CandidateRaisesBoundByOne(k, a.fs, b.fs);
    assert At(b.fs, Published) == At(a.fs, Published) && At(b.fs, Exchange) == At(a.fs, Exchange);
    NobodyBusy(mirror, b);
    forall j | j in b.spool && OfMirror(b.spool[j], mirror) ensures RecordFits(b.fs, j, b.spool[j]) {
      assert RecordFits(a.fs, j, a.spool[j]) && !Busy(mirror, a, j) && At(b.fs, Previous(j)) == At(a.fs, Previous(j));
    }
    forall j | Candidate(j) in b.fs || Previous(j) in b.fs ensures j in b.made {
      assert At(b.fs, Previous(j)) == At(a.fs, Previous(j))
        && (j != k ==> At(b.fs, Candidate(j)) == At(a.fs, Candidate(j)));
    }
    LineageGrows(a.shown, a.revealed, a.made, b.made, k);
  }

  lemma LineageGrows(
    shown: seq<Identity>, revealed: seq<Key>, made: map<Key, Identity>, after: map<Key, Identity>, k: Key)
    requires IsLineage(shown, revealed, made) && k !in revealed
    requires after == made || (k in after && after == made[k := after[k]])
    ensures IsLineage(shown, revealed, after)
  {
  }

  lemma RemovedAlike(mirror: Name, a: Snapshot, k: Key, b: Snapshot, j: Key)
    requires Removes(mirror, a, k, b) && j != k
    ensures Busy(mirror, b, j) <==> Busy(mirror, a, j)
    ensures Hidden(mirror, b, j) <==> Hidden(mirror, a, j)
    ensures IsPublic(mirror, b, j) <==> IsPublic(mirror, a, j)
    ensures j in a.spool ==> j in b.spool && b.spool[j] == a.spool[j]
  {
    hide NotVisible, Visible;
  }

  lemma RemovalKeepsRecords(mirror: Name, bound: nat, a: Snapshot, k: Key, b: Snapshot)
    requires Sound(mirror, bound, a) && Removes(mirror, a, k, b)
    ensures SoundRecords(mirror, b)
  {
    hide PrivateGenerations, SoundLog, SoundSlots, SoundBound, Injective, RecordFits, Busy;
    forall j | j != k ensures Busy(mirror, b, j) <==> Busy(mirror, a, j) {
      RemovedAlike(mirror, a, k, b, j);
    }
    forall i, j | Busy(mirror, b, i) && Busy(mirror, b, j) ensures i == j {
      RemovedIsIdle(mirror, a, k, b);
    }
  }

  lemma RemovedIsIdle(mirror: Name, a: Snapshot, k: Key, b: Snapshot)
    requires Removes(mirror, a, k, b)
    ensures !Busy(mirror, b, k) && !Hidden(mirror, b, k)
  {
  }

  lemma RemovalKeepsSlots(mirror: Name, bound: nat, a: Snapshot, k: Key, b: Snapshot)
    requires Sound(mirror, bound, a) && Removes(mirror, a, k, b)
    ensures SoundSlots(mirror, b)
  {
    hide SoundRecords, SoundBound, SoundLog, Hidden;
    EndedIsPlaced(mirror, bound, a, k);
    RemovedIsIdle(mirror, a, k, b);
    forall j ensures (Hidden(mirror, b, j) <==> Hidden(mirror, a, j)) && (Hidden(mirror, b, j) ==> j != k) {
      if j != k {
        RemovedAlike(mirror, a, k, b, j);
      }
    }
    forall j | Hidden(mirror, b, j)
      ensures j in b.spool && b.spool[j].publication.Some?
              && b.spool[j].publication.value.previous == LastBut(b.shown, 1)
    {
      HiddenHasPlan(mirror, a, j);
      RemovedAlike(mirror, a, k, b, j);
    }
  }

  lemma RemovalKeepsLog(mirror: Name, bound: nat, a: Snapshot, k: Key, b: Snapshot)
    requires Sound(mirror, bound, a) && Removes(mirror, a, k, b)
    ensures SoundLog(mirror, b)
  {
    hide SoundRecords, SoundBound, SoundSlots, IsPublic, IsLineage, EndedVisible;
    EndedIsPlaced(mirror, bound, a, k);
    forall j | j in b.spool && OfMirror(b.spool[j], mirror)
      ensures j !in b.gone && (j in b.revealed <==> IsPublic(mirror, b, j))
    {
      RemovedAlike(mirror, a, k, b, j);
    }
  }

  lemma RemovalKeeps(mirror: Name, bound: nat, a: Snapshot, k: Key, b: Snapshot)
    requires Sound(mirror, bound, a) && Removes(mirror, a, k, b)
    ensures Sound(mirror, bound, b)
  {
    hide SoundRecords, SoundSlots, SoundLog;
    RemovalKeepsRecords(mirror, bound, a, k, b);
    RemovalKeepsSlots(mirror, bound, a, k, b);
    RemovalKeepsLog(mirror, bound, a, k, b);
  }

  /** An attempt that ended is not hidden, and it was revealed exactly if it ended visible. */
  lemma EndedIsPlaced(mirror: Name, bound: nat, a: Snapshot, k: Key)
    requires Sound(mirror, bound, a) && k in a.spool && OfMirror(a.spool[k], mirror) && a.spool[k].state.IsTerminal()
    ensures !Hidden(mirror, a, k) && (k in a.revealed <==> EndedVisible(a.spool[k]))
  {
    hide PrivateGenerations, IsLineage, Injective;
    assert RecordFits(a.fs, k, a.spool[k]);
  }

  // Every history

  lemma EventKeeps(mirror: Name, bound: nat, a: Snapshot, e: Event, b: Snapshot)
    requires Sound(mirror, bound, a) && EventStep(mirror, bound, a, e, b)
    ensures Sound(mirror, bound, b)
    ensures a.shown <= b.shown && |b.shown| <= |a.shown| + 1
  {
    hide Sound, Starts, Prepares, Finishes, Recovers, WritesRecords, WritesOnly, Removes;
    ShownGrows(mirror, bound, a, e, b);
    if b != a {
      match e
      case Start(k, spec) => StartKeeps(mirror, bound, a, k, spec, b);
      case Prepare(k) => PrepareKeeps(mirror, bound, a, k, b);
      case Finish(k, _) =>
        var memory :| Finishes(mirror, a, k, memory, b);
        FinishKeeps(mirror, bound, a, k, memory, b);
      case RecoverBy(k, call) =>
        var move :| Recovers(mirror, a, k, call, move, b);
        RecoverKeeps(mirror, bound, a, k, call, move, b);
      case ClearFence(k, _) => RemovalKeeps(mirror, bound, a, k, b);
      case Retire(k) => RemovalKeeps(mirror, bound, a, k, b);
      case _ => WritesKeep(mirror, bound, a, b);
    }
  }

  lemma ShownGrows(mirror: Name, bound: nat, a: Snapshot, e: Event, b: Snapshot)
    requires EventStep(mirror, bound, a, e, b)
    ensures a.shown <= b.shown && |b.shown| <= |a.shown| + 1
  {
    hide Confined, Collected, IsGarbage, CommitLeaves, RecordFits, Served, CandidateAdded, Injective, RecordKept,
         WritesOnly;
  }

  ghost predicate Follows(mirror: Name, bound: nat, trace: seq<Snapshot>, events: seq<Event>) {
    && |trace| == |events| + 1 && trace[0] == NOTHING
    && forall i :: 0 <= i < |events| ==> EventStep(mirror, bound, trace[i], events[i], trace[i + 1])
  }

  lemma {:induction false} HistoryIsSound(mirror: Name, bound: nat, trace: seq<Snapshot>, events: seq<Event>, n: nat)
    requires Follows(mirror, bound, trace, events) && n < |trace|
    ensures Sound(mirror, bound, trace[n])
  {
    hide Sound, EventStep;
    if n == 0 {
      NothingIsSound(mirror, bound);
    } else {
      HistoryIsSound(mirror, bound, trace, events, n - 1);
      EventKeeps(mirror, bound, trace[n - 1], events[n - 1], trace[n]);
    }
  }

  /**
    At every moment of every history: what was ever public is the candidates of the
    attempts that became visible, each once and in order; the last of them is public,
    and at rest the one before it is in the exchange slot; an attempt that ended, gone or
    not, is among them exactly if it ended visible, as a success or under a fence; and
    the private generations are within their bound.
   */
  lemma LineageIsTheVisibleAttempts(
    mirror: Name, bound: nat, trace: seq<Snapshot>, events: seq<Event>, n: nat, k: Key)
    requires Follows(mirror, bound, trace, events) && n < |trace|
    ensures var s := trace[n];
            && IsLineage(s.shown, s.revealed, s.made) && |PrivateGenerations(s.fs)| <= bound
            && At(s.fs, Published) == LastBut(s.shown, 0)
            && (!AdmissionBlocked(s.spool, mirror) ==> At(s.fs, Exchange) == LastBut(s.shown, 1))
            && (k in s.gone ==> (k in s.revealed <==> EndedVisible(s.gone[k])))
            && (k in s.spool && OfMirror(s.spool[k], mirror) && s.spool[k].state.IsTerminal() ==>
                  (k in s.revealed <==> EndedVisible(s.spool[k])))
            && (k in s.spool && OfMirror(s.spool[k], mirror) && !s.spool[k].state.IsTerminal() ==>
                  (k in s.revealed <==> IsPublic(mirror, s, k)))
    ensures 0 < n ==> trace[n - 1].shown <= trace[n].shown && |trace[n].shown| <= |trace[n - 1].shown| + 1
  {
    hide EventStep, Sound, IsLineage, PrivateGenerations, EndedVisible;
    HistoryIsSound(mirror, bound, trace, events, n);
    SoundMeans(mirror, bound, trace[n], k);
    if 0 < n {
      HistoryIsSound(mirror, bound, trace, events, n - 1);
      EventKeeps(mirror, bound, trace[n - 1], events[n - 1], trace[n]);
    }
  }

  lemma SoundMeans(mirror: Name, bound: nat, s: Snapshot, k: Key)
    requires Sound(mirror, bound, s)
    ensures IsLineage(s.shown, s.revealed, s.made) && |PrivateGenerations(s.fs)| <= bound
    ensures At(s.fs, Published) == LastBut(s.shown, 0)
    ensures !AdmissionBlocked(s.spool, mirror) ==> At(s.fs, Exchange) == LastBut(s.shown, 1)
    ensures k in s.gone ==> (k in s.revealed <==> EndedVisible(s.gone[k]))
    ensures k in s.spool && OfMirror(s.spool[k], mirror) && s.spool[k].state.IsTerminal() ==>
      (k in s.revealed <==> EndedVisible(s.spool[k]))
    ensures k in s.spool && OfMirror(s.spool[k], mirror) ==> (k in s.revealed <==> IsPublic(mirror, s, k))
  {
    hide IsLineage, PrivateGenerations, Injective, Hidden, IsPublic, AdmissionBlocked, Busy;
    if !AdmissionBlocked(s.spool, mirror) {
      NobodyBusy(mirror, s);
    }
    if k in s.spool && OfMirror(s.spool[k], mirror) && s.spool[k].state.IsTerminal() {
      EndedIsPlaced(mirror, bound, s, k);
    }
  }

  // The code that makes the events

  lemma RunningSite(mirror: Name, bound: nat, s: Snapshot, k: Key)
    requires Sound(mirror, bound, s) && s.running == Some(k)
    ensures SiteOk(mirror, s.fs, s.spool, k) && s.spool[k].InPhase(Executing)
  {
    hide SoundBound, SoundSlots, SoundLog, Injective, AdmissionBlocked;
    RunningIsAlone(mirror, bound, s, k);
    OthersExecute(mirror, s, k);
  }

  lemma BusySite(mirror: Name, bound: nat, s: Snapshot, k: Key)
    requires Sound(mirror, bound, s) && Busy(mirror, s, k)
    ensures SiteOk(mirror, s.fs, s.spool, k)
  {
    hide SoundBound, SoundSlots, SoundLog, Injective, AdmissionBlocked;
    BusyIsAlone(mirror, bound, s, k);
    OthersExecute(mirror, s, k);
  }

  lemma OthersExecute(mirror: Name, s: Snapshot, k: Key)
    requires SoundRecords(mirror, s) && forall j :: Busy(mirror, s, j) ==> j == k
    ensures Alone(mirror, s.fs, s.spool, k)
  {
    hide Injective, AdmissionBlocked;
    forall j | j in s.spool && j != k && OfMirror(s.spool[j], mirror)
      ensures s.spool[j].InPhase(Executing) && At(s.fs, Previous(j)) == None
    {
      assert !Busy(mirror, s, j) && RecordFits(s.fs, j, s.spool[j]);
    }
  }

  lemma SiteParts(mirror: Name, fs: Fs, spool: map<Key, SpoolRecord>, k: Key)
    requires SiteOk(mirror, fs, spool, k)
    ensures Injective(fs) && k in spool && OfMirror(spool[k], mirror) && RecordFits(fs, k, spool[k])
  {
  }

  ghost predicate Recalled(s: Snapshot, started: set<Key>) {
    s.spool.Keys + s.made.Keys + s.gone.Keys <= started && (s.running.Some? ==> s.running.value in started)
  }

  lemma NewIsUnknown(s: Snapshot, started: set<Key>, k: Key)
    requires Recalled(s, started) && k !in started
    ensures Unknown(s, k)
  {
  }

  lemma RecalledStart(a: Snapshot, started: set<Key>, k: Key, b: Snapshot)
    requires Recalled(a, started - {k}) || Recalled(a, started)
    requires b.spool.Keys <= a.spool.Keys + {k} && b.made == a.made && b.gone == a.gone && k in started
    requires b.running.None? || b.running == Some(k)
    ensures Recalled(b, started)
  {
  }

  lemma RecalledIdle(a: Snapshot, started: set<Key>, b: Snapshot)
    requires Recalled(a, started) && b == a.(running := None, bare := false)
    ensures Recalled(b, started)
  {
  }

  lemma StartIsStep(
    mirror: Name, bound: nat, a: Snapshot, k: Key, spec: Spec, passed: bool, written: bool, b: Snapshot)
    requires a.running.None? && !a.bare && Unknown(a, k) && spec.document.mode.Atomic? && spec.mirror == mirror
    requires b.fs == a.fs || (!AdmissionBlocked(a.spool, mirror) && Collected(a.spool, mirror, a.fs, b.fs))
    requires passed ==> !AdmissionBlocked(a.spool, mirror) && |PrivateGenerations(b.fs)| < bound
    requires var r := if passed then AcceptedRecord(spec, None) else RejectedRecord(spec, None);
             b.spool == a.spool[k := r] || (b.spool == a.spool && !written)
    requires b == a.(fs := b.fs, spool := b.spool, running := b.running, bare := b.bare)
    requires if passed && written then b.running == Some(k) && b.bare else b.running.None? && !b.bare
    ensures Starts(mirror, bound, a, k, spec, b) && EventStep(mirror, bound, a, Event.Start(k, spec), b)
  {
    hide Collected, PrivateGenerations, AdmissionBlocked, AcceptedRecord, RejectedRecord;
  }

  lemma NotBare(mirror: Name, bound: nat, s: Snapshot)
    requires Sound(mirror, bound, s) && s.running.None?
    ensures !s.bare
  {
    hide SoundRecords, SoundSlots, SoundLog, PrivateGenerations;
  }

  lemma SoundIsInjective(mirror: Name, bound: nat, s: Snapshot)
    requires Sound(mirror, bound, s)
    ensures Injective(s.fs)
  {
  }

  lemma RunningIsThere(mirror: Name, bound: nat, s: Snapshot)
    requires Sound(mirror, bound, s)
    ensures s.running.Some? ==>
      && s.running.value in s.spool && OfMirror(s.spool[s.running.value], mirror)
      && s.spool[s.running.value].InPhase(Executing)
  {
    hide Sound;
    if s.running.Some? {
      RunningIsAlone(mirror, bound, s, s.running.value);
    }
  }

  /** Ending or advancing a record without a plan leaves it without one. */
  lemma EndedKeepsNoPlan(mirror: Name, bound: nat, s: Snapshot, k: Key, r: SpoolRecord)
    requires Sound(mirror, bound, s) && k in s.spool && OfMirror(s.spool[k], mirror) && s.spool[k].InPhase(Executing)
    requires r.publication == s.spool[k].publication
    ensures RecordKept(s.fs, k, s.spool[k], r)
  {
    hide SoundBound, SoundSlots, SoundLog, Injective, AdmissionBlocked;
    assert RecordFits(s.fs, k, s.spool[k]);
  }

  lemma NothingWritten(a: Snapshot, b: Snapshot)
    requires b == a.(running := None, bare := false)
    ensures WritesRecords(a, b) && WritesOnly(a, Event.Restart, b)
  {
  }

  lemma WritesCompose(a: Snapshot, b: Snapshot, c: Snapshot)
    requires WritesRecords(a, b) && WritesRecords(b, c) && b.running.None?
    ensures WritesRecords(a, c)
  {
    hide RecordFits;
    forall j | j in a.spool ensures RecordKept(a.fs, j, a.spool[j], c.spool[j]) {
      assert RecordKept(a.fs, j, a.spool[j], b.spool[j]) && RecordKept(b.fs, j, b.spool[j], c.spool[j]);
    }
  }

  lemma RestartComposes(a: Snapshot, b: Snapshot, c: Snapshot, k: Key)
    requires WritesRecords(a, b) && WritesOnly(a, Event.Restart, b) && WritesRecords(b, c) && b.running.None?
    requires k in a.spool && k in b.spool && b.spool[k] == a.spool[k]
    requires c == b.(spool := c.spool)
    requires c.spool == b.spool || c.spool == b.spool[k := RecoveredRecord(b.spool[k])]
    ensures WritesRecords(a, c) && WritesOnly(a, Event.Restart, c)
  {
    hide RecordKept, RecoveredRecord;
    WritesCompose(a, b, c);
  }

  lemma RestartAll(a: Snapshot, b: Snapshot, c: Snapshot)
    requires b == a.(running := None, bare := false)
    requires WritesRecords(b, c) && WritesOnly(b, Event.Restart, c)
    ensures WritesRecords(a, c) && WritesOnly(a, Event.Restart, c)
  {
    hide RecordKept, RecoveredRecord;
  }

  lemma NormalizedKeepsNoPlan(mirror: Name, bound: nat, s: Snapshot, k: Key)
    requires Sound(mirror, bound, s) && k in s.spool && OfMirror(s.spool[k], mirror) && NeedsNormalizing(s.spool[k])
    ensures RecordKept(s.fs, k, s.spool[k], RecoveredRecord(s.spool[k]))
  {
    hide SoundBound, SoundSlots, SoundLog, Injective, AdmissionBlocked;
    assert RecordFits(s.fs, k, s.spool[k]);
  }

  lemma FlagKeepsPlan(mirror: Name, bound: nat, s: Snapshot, k: Key, r: SpoolRecord)
    requires Sound(mirror, bound, s) && k in s.spool && OfMirror(s.spool[k], mirror)
    requires r == s.spool[k].(cancelRequested := r.cancelRequested, acknowledged := r.acknowledged,
                              logComplete := r.logComplete)
    ensures RecordKept(s.fs, k, s.spool[k], r)
  {
    hide SoundBound, SoundSlots, SoundLog, Injective, AdmissionBlocked;
    assert RecordFits(s.fs, k, s.spool[k]);
  }

  lemma OneRecordWritten(a: Snapshot, b: Snapshot, k: Key)
    requires OnlyRecordOf(k, a.spool, b.spool) && b == a.(spool := b.spool)
             && RecordKept(a.fs, k, a.spool[k], b.spool[k])
    ensures WritesRecords(a, b)
  {
    hide RecordFits;
  }

  lemma FenceIsGone(mirror: Name, bound: nat, s: Snapshot, k: Key)
    requires Sound(mirror, bound, s) && k in s.spool && OfMirror(s.spool[k], mirror) && s.spool[k].IsFence()
    ensures s.spool[k].state.IsTerminal() && s.running != Some(k)
  {
    hide SoundBound, SoundSlots, SoundLog, Injective;
    assert RecordFits(s.fs, k, s.spool[k]);
    BusyBlocks(mirror, s, k);
  }

  /** An attempt that executes has no plan in its way: with its candidate there, it can make one. */
  lemma RunningCanPlan(mirror: Name, bound: nat, s: Snapshot, k: Key)
    requires Sound(mirror, bound, s) && s.running == Some(k) && Candidate(k) in s.fs
    ensures Plannable(s.fs, k)
  {
    hide Sound;
    RunningIsAlone(mirror, bound, s, k);
  }

  lemma PublishedAchieves(mirror: Name, bound: nat, a: Snapshot, k: Key, outcome: Outcome, b: Snapshot)
    requires Sound(mirror, bound, a) && a.running == Some(k) && b.running.None? && k in a.spool && k in b.spool
    requires GoesOnToPublish(Ran(a.spool[k]), outcome) && Candidate(k) in a.fs
    requires b.spool[k] == CommittedRecord(Prepared(a.fs, k, Ran(a.spool[k]))) && RecordFits(b.fs, k, b.spool[k])
    requires b.shown == Shown(a.shown, a.fs, b.fs) && b.revealed == Revealed(a, k, b.shown)
    ensures FinishAchieves(a, k, outcome, b)
  {
    hide Sound, RecordFits, Prepared;
    SoundIsInjective(mirror, bound, a);
    CommittedSlots(a.fs, b.fs, k, Ran(a.spool[k]));
    assert At(a.fs, Candidate(k)) != At(a.fs, Published);
  }

  /** What admission and the write of its decision make of the namespace and the spool. */
  ghost predicate Decided(
    mirror: Name, bound: nat, a: Snapshot, k: Key, spec: Spec, healthy: bool, passed: bool, written: bool, b: Snapshot)
  {
    && (b.fs == a.fs || (!AdmissionBlocked(a.spool, mirror) && Collected(a.spool, mirror, a.fs, b.fs)))
    && (passed ==> !AdmissionBlocked(a.spool, mirror) && |PrivateGenerations(b.fs)| < bound)
    && (var r := if passed then AcceptedRecord(spec, None) else RejectedRecord(spec, None);
        b.spool == a.spool[k := r] || (b.spool == a.spool && !written))
    && (healthy ==> written)
    && (healthy && !AdmissionBlocked(a.spool, mirror) ==>
          NoGarbage(mirror, a.spool, b.fs) && (passed <==> |PrivateGenerations(b.fs)| < bound))
    && b == a.(fs := b.fs, spool := b.spool)
  }

  lemma StartFollows(
    mirror: Name, bound: nat, a: Snapshot, started: set<Key>, k: Key, spec: Spec, healthy: bool, passed: bool,
    written: bool, b: Snapshot)
    requires Sound(mirror, bound, a) && Recalled(a, started) && k !in started && a.running.None?
    requires spec.document.mode.Atomic? && spec.mirror == mirror
    requires Decided(mirror, bound, a, k, spec, healthy, passed, written, b)
    ensures var c := if passed && written then b.(running := Some(k), bare := true) else b;
            && Sound(mirror, bound, c) && EventStep(mirror, bound, a, Event.Start(k, spec), c)
            && Recalled(c, started + {k}) && (healthy ==> Achieves(mirror, bound, a, Event.Start(k, spec), c))
  {
    hide Sound, Collected, PrivateGenerations, AcceptedRecord, RejectedRecord, AdmissionBlocked, Recalled, Unknown,
         Starts, NoGarbage, EventStep, Achieves;
    var c := if passed && written then b.(running := Some(k), bare := true) else b;
    NewIsUnknown(a, started, k);
    NotBare(mirror, bound, a);
    RecalledStart(a, started + {k}, k, c) by { RecalledMore(a, started, k); }
    StartIsStep(mirror, bound, a, k, spec, passed, written, c);
    StartKeeps(mirror, bound, a, k, spec, c);
    if healthy {
      StartIsAchieved(mirror, bound, a, k, spec, passed, c);
    }
  }

  lemma RecalledMore(a: Snapshot, started: set<Key>, k: Key)
    requires Recalled(a, started)
    ensures Recalled(a, started + {k})
  {
  }

  lemma IdleFinish(mirror: Name, bound: nat, a: Snapshot, k: Key, outcome: Outcome)
    ensures EventStep(mirror, bound, a, Event.Finish(k, outcome), a)
    ensures a.running != Some(k) || a.bare || k !in a.spool || a.spool[k].state.IsTerminal() ==>
      Achieves(mirror, bound, a, Event.Finish(k, outcome), a)
  {
  }

  lemma FinishIsStep(
    mirror: Name, bound: nat, a: Snapshot, k: Key, memory: SpoolRecord, outcome: Outcome, b: Snapshot)
    requires Finishes(mirror, a, k, memory, b)
    ensures EventStep(mirror, bound, a, Event.Finish(k, outcome), b)
  {
  }

  lemma FinishIsAchieved(mirror: Name, bound: nat, a: Snapshot, k: Key, outcome: Outcome, b: Snapshot)
    requires b.running.None? && k in a.spool && k in b.spool
    requires if !GoesOnToPublish(Ran(a.spool[k]), outcome)
             then b.fs == a.fs && b.spool[k] == FinalRecord(Ran(a.spool[k]), outcome)
             else if Candidate(k) in a.fs then FinishAchieves(a, k, outcome, b)
             else b.fs == a.fs && b.spool[k] == Ran(a.spool[k]).Terminal(Failed, Some(InvalidResult))
    ensures Achieves(mirror, bound, a, Event.Finish(k, outcome), b)
  {
    hide FinalRecord, CommittedRecord, Prepared;
  }

  lemma BarredStart(mirror: Name, bound: nat, a: Snapshot, k: Key, spec: Spec)
    ensures EventStep(mirror, bound, a, Event.Start(k, spec), a)
    ensures a.running.Some? || !spec.document.mode.Atomic? || spec.mirror != mirror ==>
      Achieves(mirror, bound, a, Event.Start(k, spec), a)
  {
  }

  lemma StartIsAchieved(mirror: Name, bound: nat, a: Snapshot, k: Key, spec: Spec, passed: bool, b: Snapshot)
    requires passed ==> !AdmissionBlocked(a.spool, mirror)
    requires !AdmissionBlocked(a.spool, mirror) ==>
               NoGarbage(mirror, a.spool, b.fs) && (passed <==> |PrivateGenerations(b.fs)| < bound)
    requires b.spool == a.spool[k := if passed then AcceptedRecord(spec, None) else RejectedRecord(spec, None)]
    requires b.running == if passed then Some(k) else None
    ensures Achieves(mirror, bound, a, Event.Start(k, spec), b)
  {
    hide NoGarbage, PrivateGenerations, AdmissionBlocked, AcceptedRecord, RejectedRecord;
  }

  lemma RecoveredIsNormal(r: SpoolRecord)
    ensures !NeedsNormalizing(RecoveredRecord(r))
  {
  }

  lemma ServedEnds(mirror: Name, a: Snapshot, k: Key, call: RecoveryCall, move: Move, b: Snapshot)
    requires Recovers(mirror, a, k, call, move, b) && RecordFits(a.fs, k, a.spool[k])
    ensures forall bound :: Achieves(mirror, bound, a, RecoverBy(k, call), b)
  {
  }

  /** The namespace and records of a mirror, and the attempt that executes. */
  class History {
    const site: Site
    const bound: nat
    var running: Option<Key>
    var bare: bool

    /** Every attempt a start was ever seen for. */
    var started: set<Key>
    ghost var made: map<Key, Identity>
    ghost var revealed: seq<Key>
    ghost var gone: map<Key, SpoolRecord>

    ghost function Now(): Snapshot
      reads this, site
    {
      Snapshot(site.fs, site.spool, site.shown, running, bare, made, revealed, gone)
    }

    ghost predicate Valid()
      reads this, site
    {
      Sound(site.mirror, bound, Now()) && Recalled(Now(), started)
    }

    constructor (mirror: Name, bound: nat)
      ensures fresh(site) && Valid() && Now() == NOTHING && site.mirror == mirror && this.bound == bound
      ensures started == {}
    {
      site := new Site(mirror);
      this.bound := bound;
      running, bare, started := None, false, {};
      made, revealed, gone := map[], [], map[];
      new;
      NothingIsSound(mirror, bound);
    }

    /** Replaces one record by one that keeps its plan. */
    method WriteRecord(k: Key, r: SpoolRecord, healthy: bool)
      requires Valid() && k in site.spool && RecordKept(site.fs, k, site.spool[k], r)
      modifies site`spool
      ensures Valid() && WritesRecords(old(Now()), Now())
      ensures site.spool == old(site.spool) || site.spool == old(site.spool)[k := r]
      ensures healthy ==> site.spool == old(site.spool)[k := r]
    {
      hide Sound, RecordFits, SamePlan;
      ghost var before := Now();
      var s := site.Write(k, r, healthy);
      WritesKeep(site.mirror, bound, before, Now());
    }

    /** Admission, as far as the namespace goes. */
    method Admit(healthy: bool) returns (passed: bool)
      modifies site`fs
      ensures site.fs == old(site.fs) || (!AdmissionBlocked(site.spool, site.mirror)
                                          && Collected(site.spool, site.mirror, old(site.fs), site.fs))
      ensures passed ==> !AdmissionBlocked(site.spool, site.mirror) && |PrivateGenerations(site.fs)| < bound
      ensures healthy && !AdmissionBlocked(site.spool, site.mirror) ==>
        NoGarbage(site.mirror, site.spool, site.fs) && (passed <==> |PrivateGenerations(site.fs)| < bound)
    {
      hide Collected, PrivateGenerations, IsGarbage;
      if AdmissionBlocked(site.spool, site.mirror) {
        return false;
      }
      var s, removed, remaining := CollectGarbage(site, bound, healthy);
      passed := s.Completed?;
    }

    /** Admission and the record of what it decides. */
    method Decide(k: Key, spec: Spec, healthy: bool) returns (passed: bool, written: bool)
      modifies site`fs, site`spool
      ensures Decided(site.mirror, bound, old(Now()), k, spec, healthy, passed, written, Now())
    {
      hide Collected, PrivateGenerations, AcceptedRecord, RejectedRecord, AdmissionBlocked, NoGarbage;
      passed := Admit(healthy);
      var s := site.Write(k, if passed then AcceptedRecord(spec, None) else RejectedRecord(spec, None), healthy);
      written := s.Completed?;
    }

    method Start(k: Key, spec: Spec, healthy: bool)
      requires Valid()
      modifies this, site`fs, site`spool
      ensures Valid() && EventStep(site.mirror, bound, old(Now()), Event.Start(k, spec), Now())
      ensures healthy && k !in old(started) ==> Achieves(site.mirror, bound, old(Now()), Event.Start(k, spec), Now())
      ensures started <= old(started) + {k}
    {
      hide Sound, Recalled, EventStep, Achieves, Decided;
      ghost var before := Now();
      if running.Some? || k in started || !spec.document.mode.Atomic? || spec.mirror != site.mirror {
        BarredStart(site.mirror, bound, before, k, spec);
        return;
      }
      var passed, written := Decide(k, spec, healthy);
      StartFollows(site.mirror, bound, before, started, k, spec, healthy, passed, written, Now());
      if passed && written {
        running, bare := Some(k), true;
      }
      started := started + {k};
    }

    method Prepare(k: Key, healthy: bool)
      requires Valid()
      modifies this, site`fs
      ensures Valid() && EventStep(site.mirror, bound, old(Now()), Event.Prepare(k), Now())
      ensures healthy ==> Achieves(site.mirror, bound, old(Now()), Event.Prepare(k), Now())
      ensures started == old(started)
    {
      hide Sound, CandidateAdded;
      ghost var before := Now();
      if running != Some(k) || !bare {
        return;
      }
      SoundIsInjective(site.mirror, bound, before);
      var s := PrepareCandidate(site, k, healthy);
      bare := false;
      if Candidate(k) in site.fs {
        made := made[k := site.fs[Candidate(k)]];
      }
      PrepareKeeps(site.mirror, bound, before, k, Now());
    }

    /** The write after a spawn; whether it succeeds is not looked at. */
    method Spawn(k: Key, healthy: bool)
      requires Valid()
      modifies site`spool
      ensures Valid() && EventStep(site.mirror, bound, old(Now()), Event.Spawn(k), Now())
      ensures healthy ==> Achieves(site.mirror, bound, old(Now()), Event.Spawn(k), Now())
    {
      hide Sound, RecordKept;
      RunningIsThere(site.mirror, bound, Now());
      if running == Some(k) && site.spool[k].state.Accepted? {
        EndedKeepsNoPlan(site.mirror, bound, Now(), k, RunningRecord(site.spool[k]));
        WriteRecord(k, RunningRecord(site.spool[k]), healthy);
      }
    }

    method LaunchFails(k: Key, kind: FailureKind, healthy: bool)
      requires Valid()
      modifies this, site`spool
      ensures Valid() && EventStep(site.mirror, bound, old(Now()), Event.LaunchFails(k, kind), Now())
      ensures healthy ==> Achieves(site.mirror, bound, old(Now()), Event.LaunchFails(k, kind), Now())
      ensures started == old(started)
    {
      hide Sound, RecordKept, FinishAchieves, StartAchieves, MayClearFence, NamespaceVerified, Starts, Prepares,
           Finishes, Recovers, Removes, RecordFits;
      ghost var before := Now();
      RunningIsThere(site.mirror, bound, Now());
      if running == Some(k) && !site.spool[k].state.IsTerminal() {
        EndedKeepsNoPlan(site.mirror, bound, Now(), k, LaunchFailure(site.spool[k], kind));
        WriteRecord(k, LaunchFailure(site.spool[k], kind), healthy);
        running, bare := None, false;
        WritesKeep(site.mirror, bound, before, Now());
      }
    }

    /** `finalize`, with the record a task holds after its spawn. */
    method Finish(k: Key, outcome: Outcome, healthy: bool)
      requires Valid()
      modifies this, site
      ensures Valid() && EventStep(site.mirror, bound, old(Now()), Event.Finish(k, outcome), Now())
      ensures healthy ==> Achieves(site.mirror, bound, old(Now()), Event.Finish(k, outcome), Now())
      ensures started == old(started)
    {
      hide Sound, Confined, CommitLeaves, RecordFits, SiteOk, PublicationMoves, FinalRecord, Prepared, EndedTwice,
           EventStep, Achieves, FinishAchieves, GoesOnToPublish, PublicationEnds;
      ghost var before := Now();
      RunningIsThere(site.mirror, bound, Now());
      if running != Some(k) || bare || site.spool[k].state.IsTerminal() {
        IdleFinish(site.mirror, bound, before, k, outcome);
        return;
      }
      RunningSite(site.mirror, bound, before, k);
      SiteParts(site.mirror, site.fs, site.spool, k);
      var memory := Ran(site.spool[k]);
      var s, next, undone, twice := site.Finalize(k, memory, outcome, healthy, Nowhere);
      SiteParts(site.mirror, site.fs, site.spool, k);
      revealed := Revealed(before, k, site.shown);
      running := None;
      assert Finishes(site.mirror, before, k, memory, Now());
      FinishIsStep(site.mirror, bound, before, k, memory, outcome, Now());
      FinishKeeps(site.mirror, bound, before, k, memory, Now());
      if healthy && GoesOnToPublish(memory, outcome) && Candidate(k) in before.fs {
        RunningCanPlan(site.mirror, bound, before, k);
        PublishedAchieves(site.mirror, bound, before, k, outcome, Now());
      }
      if healthy {
        FinishIsAchieved(site.mirror, bound, before, k, outcome, Now());
      }
    }

    method Normalize(k: Key, healthy: bool)
      requires Valid() && k in site.spool
      modifies site`spool
      ensures Valid() && WritesRecords(old(Now()), Now())
      ensures || site.spool == old(site.spool)
              || site.spool == old(site.spool)[k := RecoveredRecord(old(site.spool)[k])]
      ensures healthy && OfMirror(site.spool[k], site.mirror) ==> !NeedsNormalizing(site.spool[k])
    {
      hide Sound, RecordFits, RecoveredRecord, NeedsNormalizing;
      RecoveredIsNormal(site.spool[k]);
      if OfMirror(site.spool[k], site.mirror) && NeedsNormalizing(site.spool[k]) {
        NormalizedKeepsNoPlan(site.mirror, bound, Now(), k);
        WriteRecord(k, RecoveredRecord(site.spool[k]), healthy);
      }
    }

    /** `recover` over the directory: what had no plan yet is ended, unless the write fails. */
    method NormalizeAll(healthy: bool)
      requires Valid() && running.None? && !bare
      modifies site`spool
      ensures Valid() && WritesRecords(old(Now()), Now()) && WritesOnly(old(Now()), Event.Restart, Now())
      ensures healthy ==> forall j :: j in site.spool && OfMirror(site.spool[j], site.mirror) ==>
                            !NeedsNormalizing(site.spool[j])
    {
      hide Sound, WritesRecords, WritesOnly, Recalled, RecoveredRecord;
      ghost var before := Now();
      NothingWritten(before, Now());
      var todo := site.spool.Keys;
      while todo != {}
        invariant todo <= before.spool.Keys == site.spool.Keys && Valid()
        invariant WritesRecords(before, Now()) && WritesOnly(before, Event.Restart, Now())
        invariant forall j :: j in todo ==> site.spool[j] == before.spool[j]
        invariant healthy ==> forall j :: j in site.spool && j !in todo && OfMirror(site.spool[j], site.mirror) ==>
                                !NeedsNormalizing(site.spool[j])
        decreases |todo|
      {
        var k :| k in todo;
        ghost var between := Now();
        Normalize(k, healthy);
        RestartComposes(before, between, Now(), k);
        todo := todo - {k};
      }
    }

    /** The process is gone with everything it ran. */
    method Restart(healthy: bool)
      requires Valid()
      modifies this, site`spool
      ensures Valid() && EventStep(site.mirror, bound, old(Now()), Event.Restart, Now())
      ensures healthy ==> Achieves(site.mirror, bound, old(Now()), Event.Restart, Now())
      ensures started == old(started)
    {
      hide Sound, WritesRecords, WritesOnly, Recalled;
      ghost var before := Now();
      running, bare := None, false;
      ghost var stopped := Now();
      NothingWritten(before, stopped);
      RecalledIdle(before, started, stopped);
      WritesKeep(site.mirror, bound, before, stopped);
      NormalizeAll(healthy);
      RestartAll(before, stopped, Now());
    }

    /** A cancellation becomes durable. */
    method Cancel(k: Key, healthy: bool)
      requires Valid()
      modifies site`spool
      ensures Valid() && EventStep(site.mirror, bound, old(Now()), Event.Cancel(k), Now())
      ensures healthy ==> Achieves(site.mirror, bound, old(Now()), Event.Cancel(k), Now())
    {
      hide Sound, RecordKept;
      if k in site.spool && OfMirror(site.spool[k], site.mirror) && !site.spool[k].state.IsTerminal() {
        FlagKeepsPlan(site.mirror, bound, Now(), k, site.spool[k].(cancelRequested := true));
        WriteRecord(k, site.spool[k].(cancelRequested := true), healthy);
      }
    }

    /** What the server acknowledged is merged into the record. */
    method Report(k: Key, sequence: nat, complete: bool, healthy: bool)
      requires Valid()
      modifies site`spool
      ensures Valid() && EventStep(site.mirror, bound, old(Now()), Event.Report(k, sequence, complete), Now())
      ensures healthy ==> Achieves(site.mirror, bound, old(Now()), Event.Report(k, sequence, complete), Now())
    {
      hide Sound, RecordKept;
      if k in site.spool && OfMirror(site.spool[k], site.mirror)
         && (complete ==> site.spool[k].state.IsTerminal() || running != Some(k))
      {
        var record := site.spool[k];
        var reported := record.(acknowledged := Max(record.acknowledged, sequence),
                                logComplete := record.logComplete || complete);
        FlagKeepsPlan(site.mirror, bound, Now(), k, reported);
        WriteRecord(k, reported, healthy);
      }
    }

    method RecoverBy(k: Key, call: RecoveryCall)
      requires Valid()
      modifies this, site
      ensures Valid() && EventStep(site.mirror, bound, old(Now()), Event.RecoverBy(k, call), Now())
      ensures Achieves(site.mirror, bound, old(Now()), Event.RecoverBy(k, call), Now())
      ensures started == old(started)
    {
      hide Sound, Served, Confined, RecordFits, SiteOk;
      ghost var before := Now();
      if k !in site.spool || !OfMirror(site.spool[k], site.mirror) || site.spool[k].InPhase(Executing) {
        return;
      }
      BusySite(site.mirror, bound, before, k);
      SiteParts(site.mirror, site.fs, site.spool, k);
      ghost var move := site.Serve(k, call);
      SiteParts(site.mirror, site.fs, site.spool, k);
      revealed := Revealed(before, k, site.shown);
      assert Recovers(site.mirror, before, k, call, move, Now());
      ServedEnds(site.mirror, before, k, call, move, Now());
      RecoverKeeps(site.mirror, bound, before, k, call, move, Now());
    }

    method RetryDurability(k: Key, spec: Spec, healthy: bool)
      requires Valid()
      modifies site`spool, site`unsynced
      ensures Valid() && EventStep(site.mirror, bound, old(Now()), Event.RetryDurability(k, spec), Now())
      ensures healthy ==> Achieves(site.mirror, bound, old(Now()), Event.RetryDurability(k, spec), Now())
    {
      hide Sound, SiteOk, FinishAchieves, StartAchieves, MayClearFence, NamespaceVerified, Starts, Prepares, Finishes,
           Recovers, Removes, Conserves, OnlySlotsOf;
      ghost var before := Now();
      if k in site.spool && OfMirror(site.spool[k], site.mirror) && !site.spool[k].InPhase(Executing) {
        BusySite(site.mirror, bound, before, k);
        var s := site.RetryDurability(k, site.mirror, spec, healthy);
        SiteParts(site.mirror, site.fs, site.spool, k);
        OneRecordWritten(before, Now(), k);
        WritesKeep(site.mirror, bound, before, Now());
      }
    }

    method Abandon(k: Key, spec: Spec, healthy: bool)
      requires Valid()
      modifies site`spool
      ensures Valid() && EventStep(site.mirror, bound, old(Now()), Event.Abandon(k, spec), Now())
      ensures healthy ==> Achieves(site.mirror, bound, old(Now()), Event.Abandon(k, spec), Now())
    {
      hide Sound, SiteOk, FinishAchieves, StartAchieves, MayClearFence, NamespaceVerified, Starts, Prepares, Finishes,
           Recovers, Removes;
      ghost var before := Now();
      if k in site.spool && OfMirror(site.spool[k], site.mirror) && !site.spool[k].InPhase(Executing) {
        BusySite(site.mirror, bound, before, k);
        var s := site.Abandon(k, site.mirror, spec, healthy);
        SiteParts(site.mirror, site.fs, site.spool, k);
        OneRecordWritten(before, Now(), k);
        WritesKeep(site.mirror, bound, before, Now());
      }
    }

    method ClearFence(k: Key, spec: Spec, healthy: bool)
      requires Valid()
      modifies this, site`spool
      ensures Valid() && EventStep(site.mirror, bound, old(Now()), Event.ClearFence(k, spec), Now())
      ensures healthy ==> Achieves(site.mirror, bound, old(Now()), Event.ClearFence(k, spec), Now())
      ensures started == old(started)
    {
      hide Sound, OtherRecoverable;
      ghost var before := Now();
      var s := site.ClearFence(k, site.mirror, spec, healthy);
      if k in before.spool && k !in site.spool {
        gone := gone[k := before.spool[k]];
        FenceIsGone(site.mirror, bound, before, k);
        RemovalKeeps(site.mirror, bound, before, k, Now());
      }
    }

    /** Retires a record that is ready for it and whose task is over. */
    method Retire(k: Key, healthy: bool)
      requires Valid()
      modifies this, site`spool
      ensures Valid() && EventStep(site.mirror, bound, old(Now()), Event.Retire(k), Now())
      ensures healthy ==> Achieves(site.mirror, bound, old(Now()), Event.Retire(k), Now())
      ensures started == old(started)
    {
      hide Sound;
      ghost var before := Now();
      if k in site.spool && OfMirror(site.spool[k], site.mirror)
         && site.spool[k].ReadyForCleanup() && running != Some(k)
      {
        var s := site.Retire(k, healthy);
        if k !in site.spool {
          gone := gone[k := before.spool[k]];
          RemovalKeeps(site.mirror, bound, before, k, Now());
        }
      }
    }

    method Perform(e: Event, healthy: bool)
      requires Valid()
      modifies this, site
      ensures Valid() && EventStep(site.mirror, bound, old(Now()), e, Now())
      ensures healthy && (e.Start? ==> e.key !in old(started)) ==> Achieves(site.mirror, bound, old(Now()), e, Now())
      ensures started <= old(started) + Begun([e])
    {
      hide Sound, EventStep, Recalled, Achieves;
      match e {
        case Start(k, spec) => Start(k, spec, healthy);
        case Prepare(k) => Prepare(k, healthy);
        case Spawn(k) => Spawn(k, healthy);
        case LaunchFails(k, kind) => LaunchFails(k, kind, healthy);
        case Finish(k, outcome) => Finish(k, outcome, healthy);
        case Restart => Restart(healthy);
        case Cancel(k) => Cancel(k, healthy);
        case RecoverBy(k, call) => RecoverBy(k, call);
        case Report(k, sequence, complete) => Report(k, sequence, complete, healthy);
        case RetryDurability(k, spec) => RetryDurability(k, spec, healthy);
        case Abandon(k, spec) => Abandon(k, spec, healthy);
        case ClearFence(k, spec) => ClearFence(k, spec, healthy);
        case Retire(k) => Retire(k, healthy);
      }
    }
  }

  /** The snapshots so far follow the events, and each event none of whose calls failed achieved what it is for. */
  ghost predicate Runs(mirror: Name, bound: nat, trace: seq<Snapshot>, events: seq<Event>, faultless: set<nat>) {
    && 0 < |trace| <= |events| + 1 && trace[0] == NOTHING
    && forall i: nat :: i + 1 < |trace| ==>
         && EventStep(mirror, bound, trace[i], events[i], trace[i + 1])
         && (i in faultless && NewlyStarted(events, i) ==> Achieves(mirror, bound, trace[i], events[i], trace[i + 1]))
  }

  lemma NothingHasRun(mirror: Name, bound: nat, events: seq<Event>, faultless: set<nat>)
    ensures Runs(mirror, bound, [NOTHING], events, faultless)
  {
  }

  lemma RunsOn(
    mirror: Name, bound: nat, trace: seq<Snapshot>, events: seq<Event>, faultless: set<nat>, next: Snapshot)
    requires Runs(mirror, bound, trace, events, faultless) && |trace| <= |events|
    requires var i := |trace| - 1;
             && EventStep(mirror, bound, trace[i], events[i], next)
             && (i in faultless && NewlyStarted(events, i) ==> Achieves(mirror, bound, trace[i], events[i], next))
    ensures Runs(mirror, bound, trace + [next], events, faultless)
  {
    hide EventStep, Achieves, NewlyStarted;
  }

  lemma RunsFollow(mirror: Name, bound: nat, trace: seq<Snapshot>, events: seq<Event>, faultless: set<nat>)
    requires Runs(mirror, bound, trace, events, faultless) && |trace| == |events| + 1
    ensures Follows(mirror, bound, trace, events)
    ensures forall i: nat :: i < |events| && i in faultless && NewlyStarted(events, i) ==>
              Achieves(mirror, bound, trace[i], events[i], trace[i + 1])
  {
    hide EventStep, Achieves, NewlyStarted;
  }

  lemma BegunGrows(events: seq<Event>, i: nat)
    requires i < |events|
    ensures Begun(events[..i]) + Begun([events[i]]) <= Begun(events[..i + 1])
  {
    assert events[..i + 1] == events[..i] + [events[i]];
  }

  /**
    Any sequence of calls, failing and crashing anywhere, is a history of the mirror, and
    an event none of whose calls fails achieves what it is for.
   */
  method RunHistory(mirror: Name, bound: nat, events: seq<Event>, faultless: set<nat>)
    returns (h: History, ghost trace: seq<Snapshot>)
    ensures fresh(h) && fresh(h.site) && h.site.mirror == mirror
    ensures Follows(mirror, bound, trace, events) && trace[|events|] == h.Now()
    ensures forall i: nat :: i < |events| && i in faultless && NewlyStarted(events, i) ==>
              Achieves(mirror, bound, trace[i], events[i], trace[i + 1])
    ensures IsLineage(h.site.shown, h.revealed, h.made) && |PrivateGenerations(h.site.fs)| <= bound
  {
    hide Sound, EventStep, IsLineage, PrivateGenerations, Achieves, Begun, Runs;
    h := new History(mirror, bound);
    trace := [h.Now()];
    var i := 0;
    NothingHasRun(mirror, bound, events, faultless);
    while i < |events|
      invariant 0 <= i <= |events| && fresh(h) && fresh(h.site) && h.site.mirror == mirror && h.bound == bound
      invariant h.Valid() && |trace| == i + 1 && trace[i] == h.Now()
      invariant h.started <= Begun(events[..i]) && Runs(mirror, bound, trace, events, faultless)
    {
      h.Perform(events[i], i in faultless);
      RunsOn(mirror, bound, trace, events, faultless, h.Now());
      BegunGrows(events, i);
      trace := trace + [h.Now()];
      i := i + 1;
    }
    RunsFollow(mirror, bound, trace, events, faultless);
    SoundMeans(mirror, bound, h.Now(), Key(0, 0));
  }
}
