/**
  The agent process: its spool directory and active attempts as fields, one method
  per locked section, each proved against the step it performs.
 */
module AgentProcess {
  import opened Common
  import opened Lifecycle
  import opened StoreModel
  import opened Spool
  import opened AgentModel
  import opened AgentHistories

  /** What a restart makes of the records outside `todo`, when the writes in `lost` fail. */
  function RecoveredSpool(before: map<Key, SpoolRecord>, todo: set<Key>, lost: set<Key>): map<Key, SpoolRecord> {
    map k | k in before :: if k in todo || k in lost then before[k] else RecoveredRecord(before[k])
  }

  /** The ends that restart hands to reconciliation. */
  function RecoveredTasks(before: map<Key, SpoolRecord>, todo: set<Key>): map<Key, Task> {
    map k | k in before && k !in todo && NeedsNormalizing(before[k]) :: Task(RecoveredRecord(before[k]), Ended)
  }

  lemma RecoverOne(before: map<Key, SpoolRecord>, todo: set<Key>, lost: set<Key>, k: Key)
    requires k in before && k in todo
    ensures var a := Agent(RecoveredSpool(before, todo, lost), RecoveredTasks(before, todo));
            var next := Agent(RecoveredSpool(before, todo - {k}, lost), RecoveredTasks(before, todo - {k}));
            && k in a.spool && a.spool[k] == before[k] && (forall j :: !AtWork(a, j))
            && if NeedsNormalizing(before[k])
               then next == AfterTask(a, k, RecoveredRecord(before[k]), if k in lost then NotStored else Stored)
               else next == a
  {
    hide RecoveredRecord, NeedsNormalizing;
    AlreadyEnded(before[k]);
  }

  lemma NothingRecovered(before: map<Key, SpoolRecord>, lost: set<Key>)
    ensures RecoveredSpool(before, before.Keys, lost) == before && RecoveredTasks(before, before.Keys) == map[]
  {
  }

  lemma NothingAtWork(before: map<Key, SpoolRecord>)
    ensures forall k, spool :: !AtWork(Agent(spool, RecoveredTasks(before, {})), k)
  {
  }

  /** After a restart only publications are still open, unless a write was lost, and every end waits to be reported. */
  lemma NothingLeftOpen(before: map<Key, SpoolRecord>, lost: set<Key>)
    ensures var spool, tasks := RecoveredSpool(before, {}, lost), RecoveredTasks(before, {});
            && (forall k :: k in spool && k !in lost ==>
                  spool[k].state.IsTerminal() || spool[k].RequiresPublicationRecovery())
            && (forall k :: k in before && !before[k].state.IsTerminal() && !before[k].RequiresPublicationRecovery() ==>
                  k in tasks && tasks[k].stage.Ended? && tasks[k].memory.state.IsTerminal())
  {
  }

  lemma AlreadyEnded(r: SpoolRecord)
    ensures !NeedsNormalizing(r) ==> RecoveredRecord(r) == r
  {
  }

  class Process {
    var spool: map<Key, SpoolRecord>
    var tasks: map<Key, Task>

    function View(): Agent
      reads this
    {
      Agent(spool, tasks)
    }

    constructor ()
      ensures View() == Agent(map[], map[]) && AgentInv(View())
    {
      spool := map[];
      tasks := map[];
    }

    method Write(k: Key, r: SpoolRecord, written: WriteResult) returns (ok: bool)
      modifies `spool
      ensures spool == Replace(old(spool), k, r, written)
      ensures ok == written.Stored?
    {
      if !written.NotStored? {
        spool := spool[k := r];
      }
      ok := written.Stored?;
    }

    /** Scans every record for a fence, or for an atomic start a recovery, of the mirror. */
    method FindBlocker(mirror: Name, atomic: bool) returns (found: bool)
      ensures found <==> exists k :: k in spool && Blocks(spool[k], mirror, atomic)
    {
      found := false;
      var todo := spool.Keys;
      while todo != {}
        invariant todo <= spool.Keys
        invariant forall k :: k in spool && k !in todo ==> !Blocks(spool[k], mirror, atomic)
        decreases |todo|
      {
        var k :| k in todo;
        if Blocks(spool[k], mirror, atomic) {
          return true;
        }
        todo := todo - {k};
      }
    }

    method PublicationAdmission(identity: Option<Name>, spec: Spec, generationsPass: bool) returns (refused: bool)
      ensures refused == AdmissionRefuses(spool, identity, spec, generationsPass)
    {
      var publication := PublicationMirror(spec);
      if identity.Some? && publication.Some? && identity != publication {
        return true;
      }
      var mirror := if identity.Some? then identity else publication;
      if mirror.None? {
        return false;
      }
      var blocked := FindBlocker(mirror.value, publication.Some?);
      refused := blocked || (publication.Some? && !generationsPass);
    }

    method Accept(k: Key, spec: Spec, identity: Option<Name>, admission: Admission) returns (outcome: AcceptOutcome)
      requires AgentInv(View())
      modifies this
      ensures outcome == AcceptResult(old(View()), k, spec, identity, admission)
      ensures View() == AfterAccept(old(View()), k, spec, identity, admission) && AgentInv(View())
    {
      hide AdmissionRefuses, AgentInv;
      AcceptKeepsInv(View(), k, spec, identity, admission);
      if k in spool {
        return if spool[k].spec != spec || spool[k].identity != identity then Conflicting else Known;
      }
      if k in tasks || |tasks| >= admission.maxConcurrent {
        return NoRoom;
      }
      var refused := true;
      if admission.policyAllows {
        refused := PublicationAdmission(identity, spec, admission.generationsPass);
      }
      if refused {
        var _ := Write(k, RejectedRecord(spec, identity), admission.written);
        return RejectedHere;
      }
      var ok := Write(k, AcceptedRecord(spec, identity), admission.written);
      if !ok {
        return NotPersisted;
      }
      tasks := tasks[k := Task(AcceptedRecord(spec, identity), Starting)];
      outcome := AcceptedHere;
    }

    method Cancel(k: Key, spec: Spec, written: WriteResult) returns (outcome: CancelOutcome)
      requires AgentInv(View())
      modifies `spool
      ensures outcome == CancelResult(old(View()), k, spec, written)
      ensures View() == AfterCancel(old(View()), k, spec, written) && AgentInv(View())
    {
      hide AgentInv;
      CancelKeepsInv(View(), k, spec, written);
      var record := if k in spool then spool[k] else CancellationTombstone(spec);
      if record.spec != spec {
        return CancelConflict;
      }
      if record.state.IsTerminal() {
        if k !in spool {
          var ok := Write(k, record, written);
          if !ok {
            return CancelNotPersisted;
          }
        }
        return AlreadyEnded;
      }
      var ok := Write(k, record.(cancelRequested := true), written);
      outcome := if ok then IntentPersisted else CancelNotPersisted;
    }

    /** `execute` after a successful spawn: the write-back merges only the cancellation flag. */
    method Spawned(k: Key, written: WriteResult)
      requires AgentInv(View()) && Enabled(View(), SpawnStep(k, written))
      modifies this
      ensures View() == After(old(View()), SpawnStep(k, written)) && AgentInv(View())
    {
      hide AgentInv;
      SpawnKeepsInv(View(), k, written);
      var record := tasks[k].memory.(state := Running, sequence := tasks[k].memory.sequence + 1);
      if k in spool {
        record := record.(cancelRequested := record.cancelRequested || spool[k].cancelRequested);
      }
      var _ := Write(k, record, written);
      tasks := tasks[k := Task(record, Launched)];
    }

    /** An execution that never got its process; the outcome is reported even if its write fails. */
    method LaunchFailed(k: Key, kind: FailureKind, written: WriteResult)
      requires AgentInv(View()) && Enabled(View(), LaunchFailsStep(k, kind, written))
      modifies this
      ensures View() == After(old(View()), LaunchFailsStep(k, kind, written)) && AgentInv(View())
    {
      hide AgentInv;
      ExecutionKeepsInv(View(), LaunchFailsStep(k, kind, written));
      var record := tasks[k].memory;
      if k in spool {
        record := record.(cancelRequested := record.cancelRequested || spool[k].cancelRequested);
      }
      record :=
        if record.cancelRequested then record.Terminal(Cancelled, None) else record.Terminal(Failed, Some(kind));
      var _ := Write(k, record, written);
      tasks := tasks[k := Task(record, Ended)];
    }

    /** `finalize` of an attempt that does not go on to publish. */
    method Finished(k: Key, outcome: Outcome, written: WriteResult)
      requires AgentInv(View()) && Enabled(View(), FinishStep(k, outcome, written))
      modifies this
      ensures View() == After(old(View()), FinishStep(k, outcome, written)) && AgentInv(View())
    {
      hide AgentInv;
      ExecutionKeepsInv(View(), FinishStep(k, outcome, written));
      var record := tasks[k].memory;
      if k in spool {
        record := record.(cancelRequested := record.cancelRequested || spool[k].cancelRequested);
      }
      if record.cancelRequested {
        record := record.Terminal(Cancelled, None);
      } else {
        match outcome {
          case Exited(success) =>
            record :=
              if success then record.Terminal(Succeeded, None) else record.Terminal(Failed, Some(ProcessFailure));
          case WaitFailed => record := record.Terminal(Interrupted, Some(InterruptedFailure));
          case Shutdown => record := record.Terminal(Interrupted, Some(InterruptedFailure));
          case OutOfTime => record := record.Terminal(TimedOut, Some(TimeoutFailure));
          case CancelSignalled => record := record.Terminal(Cancelled, None);
        }
      }
      var _ := Write(k, record, written);
      tasks := tasks[k := Task(record, Ended)];
    }

    /** The task lets go of the attempt once its outcome has been handed to reconciliation. */
    method Forget(k: Key)
      requires AgentInv(View()) && Enabled(View(), DropStep(k))
      modifies `tasks
      ensures View() == After(old(View()), DropStep(k)) && AgentInv(View())
    {
      hide AgentInv;
      DropKeepsInv(View(), k);
      tasks := Without(tasks, k);
    }

    method Normalize(k: Key, written: WriteResult)
      requires AgentInv(View()) && Enabled(View(), NormalizeStep(k, written))
      modifies this
      ensures View() == After(old(View()), NormalizeStep(k, written)) && AgentInv(View())
    {
      hide AgentInv;
      NormalizeKeepsInv(View(), k, written);
      var record := spool[k];
      if record.cancelRequested {
        record := record.Terminal(Cancelled, None);
      } else {
        record := record.Terminal(Interrupted, Some(InterruptedFailure));
      }
      var _ := Write(k, record, written);
      tasks := tasks[k := Task(record, Ended)];
    }

    /**
      A restart: nothing runs any more, and every open record without a publication to
      recover is ended; the ends are reported whether or not their writes were lost.
     */
    method Recover(lost: set<Key>)
      requires AgentInv(View())
      modifies this
      ensures View() == Agent(RecoveredSpool(old(spool), {}, lost), RecoveredTasks(old(spool), {}))
      ensures AgentInv(View()) && forall k :: !AtWork(View(), k)
      ensures forall k :: k in spool && k !in lost ==>
        spool[k].state.IsTerminal() || spool[k].RequiresPublicationRecovery()
    {
      hide AgentInv, RecoveredRecord, NeedsNormalizing, AfterTask, RecoveredSpool, RecoveredTasks;
      ghost var before := spool;
      tasks := map[];
      EmptyKeepsInv(Agent(before, old(tasks)));
      var todo := spool.Keys;
      NothingRecovered(before, lost);
      while todo != {}
        invariant todo <= before.Keys && AgentInv(View())
        invariant View() == Agent(RecoveredSpool(before, todo, lost), RecoveredTasks(before, todo))
        decreases |todo|
      {
        var k :| k in todo;
        RecoverOne(before, todo, lost, k);
        if NeedsNormalizing(spool[k]) {
          Normalize(k, if k in lost then NotStored else Stored);
        }
        todo := todo - {k};
      }
      NothingAtWork(before);
      NothingLeftOpen(before, lost);
    }

    /** The server's answer to an event, merged into the record now on disk. */
    method EventAcknowledged(k: Key, sequence: nat)
      requires AgentInv(View()) && k in spool
      modifies `spool
      ensures View() == After(old(View()), AcknowledgeStep(k, sequence)) && AgentInv(View())
    {
      hide AgentInv;
      BookkeepingKeepsInv(View(), AcknowledgeStep(k, sequence));
      var latest := spool[k];
      latest := latest.(acknowledged := if latest.acknowledged < sequence then sequence else latest.acknowledged);
      spool := spool[k := latest];
    }

    /** Retires the record once nothing of it is left to report or to protect. */
    method RetireIfReady(k: Key) returns (retired: bool)
      requires AgentInv(View()) && k in spool
      modifies `spool
      ensures retired == old(spool)[k].ReadyForCleanup()
      ensures retired ==> View() == After(old(View()), RetireStep(k))
      ensures !retired ==> View() == old(View())
      ensures AgentInv(View())
    {
      hide AgentInv;
      retired := spool[k].ReadyForCleanup();
      if retired {
        StepKeepsInv(View(), RetireStep(k));
        spool := Without(spool, k);
      }
    }

    /** Refuses the whole reset when any record holds protected evidence; otherwise nothing is left. */
    method ResetSpool() returns (refused: bool)
      requires AgentInv(View()) && tasks == map[]
      modifies `spool
      ensures refused == AnyProtected(old(spool))
      ensures View() == After(old(View()), ResetStep) && AgentInv(View())
    {
      hide AgentInv;
      EmptyKeepsInv(View());
      refused := false;
      var todo := spool.Keys;
      while todo != {}
        invariant todo <= spool.Keys && spool == old(spool)
        invariant forall k :: k in spool && k !in todo ==> !spool[k].HasProtectedPublicationEvidence()
        decreases |todo|
      {
        var k :| k in todo;
        if spool[k].HasProtectedPublicationEvidence() {
          return true;
        }
        todo := todo - {k};
      }
      while spool != map[]
        invariant spool.Keys <= old(spool).Keys
        decreases |spool|
      {
        var k :| k in spool;
        assert Without(spool, k).Keys == spool.Keys - {k};
        spool := Without(spool, k);
      }
    }

    /** Abandons exactly the addressed publication, once the fence is on disk; a failing write may leave it there. */
    method Abandon(k: Key, mirror: Name, spec: Spec, written: WriteResult) returns (done: bool)
      requires AgentInv(View()) && !AtWork(View(), k)
      modifies `spool
      ensures done == (MayAbandon(old(spool), k, mirror, spec) && written.Stored?)
      ensures MayAbandon(old(spool), k, mirror, spec) ==>
        View() == After(old(View()), AbandonStep(k, mirror, spec, written))
      ensures !MayAbandon(old(spool), k, mirror, spec) ==> View() == old(View())
      ensures AgentInv(View())
    {
      hide AgentInv;
      if k !in spool || !IsExactly(spool[k], mirror, spec) || !spool[k].InPhase(VisiblePendingDurability) {
        return false;
      }
      BookkeepingKeepsInv(View(), AbandonStep(k, mirror, spec, written));
      done := Write(k, FencedRecord(spool[k]), written);
    }

    method FindRecoverable(k: Key, mirror: Name) returns (found: bool)
      ensures found == OtherRecoverable(spool, k, mirror)
    {
      found := false;
      var todo := spool.Keys - {k};
      while todo != {}
        invariant todo <= spool.Keys - {k}
        invariant forall j :: j in spool && j != k && j !in todo ==>
          !(spool[j].RequiresPublicationRecovery() && spool[j].publication.value.mirror == mirror)
        decreases |todo|
      {
        var j :| j in todo;
        if spool[j].RequiresPublicationRecovery() && spool[j].publication.value.mirror == mirror {
          return true;
        }
        todo := todo - {j};
      }
    }

    method ClearFence(k: Key, mirror: Name, spec: Spec, verified: bool) returns (cleared: bool)
      requires AgentInv(View())
      modifies `spool
      ensures cleared == MayClearFence(old(spool), k, mirror, spec, verified)
      ensures cleared ==> View() == After(old(View()), ClearFenceStep(k, mirror, spec, verified))
      ensures !cleared ==> View() == old(View())
      ensures AgentInv(View())
    {
      hide AgentInv;
      if k !in spool || !IsExactly(spool[k], mirror, spec) || !spool[k].IsFence() {
        return false;
      }
      if spool[k].acknowledged < spool[k].sequence || !spool[k].logComplete || !verified {
        return false;
      }
      var other := FindRecoverable(k, mirror);
      if other {
        return false;
      }
      StepKeepsInv(View(), ClearFenceStep(k, mirror, spec, verified));
      spool := Without(spool, k);
      cleared := true;
    }
  }
}
