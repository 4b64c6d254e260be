/**
  Publication modes and active runs: while a run of a mirror is active, the mirror's
  documents keep the mode the run was created under.
 */
module StoreModes {
  import opened Common
  import opened Lifecycle
  import opened Schedule
  import opened StoreModel
  import opened StoreRuns
  import opened StoreApply
  import opened StoreHistory

  /** What an active run executes is published in the mode of its mirror's current document. */
  predicate ModeAgrees(db: Db, id: RunId)
    requires id in db.runs
  {
    var current, own := CurrentDocument(db, db.runs[id].mirror), RunDocument(db, id);
    current.Some? && own.Some? && current.value.mode == own.value.mode
  }

  ghost predicate ModesAgree(db: Db) {
    forall id :: id in db.runs && db.runs[id].state.IsActive() ==> ModeAgrees(db, id)
  }

  /**
    Exactly what makes a bundle on the current revision busy: an active run of a mirror it
    gives to another node while managed, or publishes in another mode.
   */
  predicate Disturbs(db: Db, bundle: Bundle, m: Name) {
    && m in bundle && m in db.mirrors && HasActiveRun(db, m)
    && ((db.mirrors[m].managed && db.mirrors[m].owner != bundle[m].owner)
        || (CurrentDocument(db, m).Some? && CurrentDocument(db, m).value.mode != bundle[m].document.mode))
  }

  lemma BusyExactly(db: Db, bundle: Bundle, base: nat, now: int, calendar: Calendar)
    requires RunsInv(db) && db.revision == base
    ensures ApplyResult(db, bundle, base).ConfigBusy? <==> exists m :: m in bundle && Disturbs(db, bundle, m)
    ensures ApplyResult(db, bundle, base).ConfigBusy? ==> AfterApply(db, bundle, base, now, calendar) == db
  {
    hide RunsInv, HasActiveRun, AfterApply;
    forall m | m in bundle ensures Disturbs(db, bundle, m) <==> DisturbedHere(db, bundle, m) {
      DisturbedExactly(db, bundle, m);
    }
    if Blocked(db, bundle) {
      var m :| m in Plan(db, bundle) && HighImpact(db, bundle, m) && HasActiveRun(db, m);
      assert m in bundle && DisturbedHere(db, bundle, m);
    }
    if m :| m in bundle && Disturbs(db, bundle, m) {
      assert m in Plan(db, bundle) && HighImpact(db, bundle, m) && HasActiveRun(db, m);
    }
    RefusedApplyChangesNothing(db, bundle, base, now, calendar);
  }

  predicate DisturbedHere(db: Db, bundle: Bundle, m: Name) {
    m in Plan(db, bundle) && HighImpact(db, bundle, m) && HasActiveRun(db, m)
  }

  lemma DisturbedExactly(db: Db, bundle: Bundle, m: Name)
    requires RunsInv(db) && m in bundle
    ensures Disturbs(db, bundle, m) <==> DisturbedHere(db, bundle, m)
  {
    hide OneActive, RunOk, KeyOk;
    if m in db.mirrors {
      ValidCurrentDocument(db, m);
    } else if HasActiveRun(db, m) {
      var id :| id in db.runs && IsActiveRunOf(db, m, id);
      RunHasMirror(db, id);
    }
  }

  lemma RunHasMirror(db: Db, id: RunId)
    requires RunsInv(db) && id in db.runs
    ensures db.runs[id].mirror in db.mirrors
  {
    assert RunOk(db, id);
  }

  // Every transaction keeps the modes

  /** The rows a run's document and its mirror's current one are read from. */
  ghost predicate DocumentsStay(db: Db, after: Db) {
    after.mirrors == db.mirrors && after.generations == db.generations
  }

  lemma OnlyApplyWritesDocuments(db: Db, txn: Txn, calendar: Calendar)
    requires WellPosed(db, txn) && !txn.ApplyTxn?
    ensures DocumentsStay(db, Commit(db, txn, calendar))
  {
    hide PollPicks, Poll, AfterEvent, TickResolves, DueRow, TickedRow, HasDispatched, TerminalRearm, ArmWith,
         Dispatched, CancelUndispatchedAttempts, ManualResult;
    match txn
    case PollTxn(node, now, capacity, atomicReady, choice) =>
      PollKeepsDocuments(db, node, now, capacity, atomicReady, choice);
    case EventTxn(key, event, now) => EventKeepsDocuments(db, key, event, now, calendar);
    case _ =>
  }

  lemma PollKeepsDocuments(db: Db, node: Name, now: int, capacity: bool, atomicReady: bool, choice: PollChoice)
    requires PollPicks(db, node, now, capacity, choice)
    ensures DocumentsStay(db, Poll(db, node, now, capacity, atomicReady, choice).db)
  {
    hide AnyCancel, AnyRedelivery, AnyManual, AnyRetry, AnyScheduled, HasActiveRun;
  }

  lemma EventKeepsDocuments(db: Db, key: Key, event: AttemptEvent, now: int, calendar: Calendar)
    ensures DocumentsStay(db, AfterEvent(db, key, event, now, calendar))
  {
    hide AfterEvent, EventResult, RunAfterEvent;
    if EventResult(db, key, event, now).Applied? {
      AppliedEventRows(db, key, event, now, calendar);
    } else {
      UnappliedEventChangesNothing(db, key, event, now, calendar);
    }
  }

  /** A run is created for its mirror's current generation. */
  lemma NewRunsAreCurrent(db: Db, txn: Txn, calendar: Calendar, id: RunId)
    requires WellPosed(db, txn) && !txn.ApplyTxn? && id in Commit(db, txn, calendar).runs && id !in db.runs
    ensures var r := Commit(db, txn, calendar).runs[id];
            r.mirror in db.mirrors && r.generation == db.mirrors[r.mirror].generation
  {
    hide AfterEvent, Poll, PollPicks, TickResolves, DueRow, TickedRow, HasDispatched, TerminalRearm, ArmWith,
         Dispatched, CancelUndispatchedAttempts, HasActiveRun;
    match txn
    case EventTxn(key, event, now) => EventedRunKeys(db, key, event, now, calendar);
    case PollTxn(node, now, capacity, atomicReady, choice) =>
      PolledRunsAreCurrent(db, node, now, capacity, atomicReady, choice, id);
    case _ =>
  }

  lemma PolledRunsAreCurrent(
    db: Db, node: Name, now: int, capacity: bool, atomicReady: bool, choice: PollChoice, id: RunId)
    requires PollPicks(db, node, now, capacity, choice)
    ensures var after := Poll(db, node, now, capacity, atomicReady, choice).db;
            id in after.runs && id !in db.runs ==>
              after.runs[id].mirror in db.mirrors
              && after.runs[id].generation == db.mirrors[after.runs[id].mirror].generation
  {
    hide AnyCancel, AnyRedelivery, AnyManual, AnyRetry, AnyScheduled, HasActiveRun;
  }

  lemma SteadyDocumentsKeepModes(db: Db, txn: Txn, calendar: Calendar, id: RunId)
    requires RunsInv(db) && ModesAgree(db) && WellPosed(db, txn) && !txn.ApplyTxn?
    requires id in Commit(db, txn, calendar).runs && Commit(db, txn, calendar).runs[id].state.IsActive()
    ensures ModeAgrees(Commit(db, txn, calendar), id)
  {
    hide Commit, PollPicks, AttemptsGrow, RunOk, KeyOk, OneActive;
    var after := Commit(db, txn, calendar);
    CommitGrows(db, txn, calendar);
    OnlyApplyWritesDocuments(db, txn, calendar);
    if id in db.runs {
      assert ModeAgrees(db, id);
    } else {
      NewRunsAreCurrent(db, txn, calendar, id);
      ValidCurrentDocument(db, after.runs[id].mirror);
    }
  }

  /** A committed bundle keeps the mode of every mirror with an active run. */
  lemma ApplyKeepsMode(db: Db, bundle: Bundle, base: nat, now: int, calendar: Calendar, id: RunId)
    requires RunsInv(db) && ValidBundle(bundle) && ApplyResult(db, bundle, base).ConfigApplied?
    requires id in db.runs && db.runs[id].state.IsActive()
    ensures var m, after := db.runs[id].mirror, AfterApply(db, bundle, base, now, calendar);
            && CurrentDocument(db, m).Some? && CurrentDocument(after, m).Some?
            && CurrentDocument(after, m).value.mode == CurrentDocument(db, m).value.mode
  {
    hide RunsInv, AfterApply, Blocked, ValidBundle, HasActiveRun, Reconfigured, CurrentDocument, PlannedChange;
    var m := db.runs[id].mirror;
    RunHasMirror(db, id);
    ApplyIsReconfigured(db, bundle, base, now, calendar);
    BusyExactly(db, bundle, base, now, calendar);
    ActiveMirror(db, id);
    assert m in bundle ==> !Disturbs(db, bundle, m);
    DocumentAfterApply(db, bundle, m, now, calendar);
  }

  lemma ActiveMirror(db: Db, id: RunId)
    requires id in db.runs && db.runs[id].state.IsActive()
    ensures HasActiveRun(db, db.runs[id].mirror)
  {
    assert IsActiveRunOf(db, db.runs[id].mirror, id);
  }

  lemma DocumentAfterApply(db: Db, bundle: Bundle, m: Name, now: int, calendar: Calendar)
    requires RunsInv(db) && m in db.mirrors
    ensures CurrentDocument(db, m).Some?
    ensures CurrentDocument(Reconfigured(db, bundle, now, calendar), m) ==
            if m in bundle then Some(bundle[m].document) else CurrentDocument(db, m)
  {
    hide Reconfigured, OneActive, RunOk, KeyOk;
    ValidCurrentDocument(db, m);
    ReconfiguredMirror(db, bundle, m, now, calendar);
    ReconfiguredGenerations(db, bundle, now, calendar);
    if m in bundle && PlannedChange(db, bundle, m).Some? {
      WrittenGeneration(db, bundle, m, now, calendar);
    }
  }

  lemma AppliedRunKeepsMode(db: Db, bundle: Bundle, base: nat, now: int, calendar: Calendar, id: RunId)
    requires RunsInv(db) && ModesAgree(db) && ValidBundle(bundle) && ApplyResult(db, bundle, base).ConfigApplied?
    requires id in AfterApply(db, bundle, base, now, calendar).runs
    requires AfterApply(db, bundle, base, now, calendar).runs[id].state.IsActive()
    ensures ModeAgrees(AfterApply(db, bundle, base, now, calendar), id)
  {
    hide RunsInv, AfterApply, Blocked, ValidBundle, Reconfigured, CurrentDocument, RunDocument, RunOk;
    ApplyIsReconfigured(db, bundle, base, now, calendar);
    ReconfiguredRunKeys(db, bundle, now, calendar);
    AppliedIsNotBlocked(db, bundle, base);
    ApplyKeepsOneRun(db, bundle, id, now, calendar);
    ApplyKeepsMode(db, bundle, base, now, calendar, id);
    assert ModeAgrees(db, id);
  }

  lemma CommitKeepsModes(db: Db, txn: Txn, calendar: Calendar)
    requires RunsInv(db) && ModesAgree(db) && WellPosed(db, txn)
    ensures ModesAgree(Commit(db, txn, calendar))
  {
    hide RunsInv, AfterApply, ApplyResult, ValidBundle, PollPicks, ModeAgrees;
    forall id | id in Commit(db, txn, calendar).runs && Commit(db, txn, calendar).runs[id].state.IsActive()
      ensures ModeAgrees(Commit(db, txn, calendar), id)
    {
      if !txn.ApplyTxn? {
        SteadyDocumentsKeepModes(db, txn, calendar, id);
      } else if ApplyResult(db, txn.bundle, txn.base).ConfigApplied? {
        AppliedRunKeepsMode(db, txn.bundle, txn.base, txn.now, calendar, id);
      } else {
        RefusedApplyChangesNothing(db, txn.bundle, txn.base, txn.now, calendar);
      }
    }
  }

  lemma {:induction false} ModesAlwaysAgree(db: Db, txns: seq<Txn>, after: Db, calendar: Calendar)
    requires RunsInv(db) && ModesAgree(db) && History(db, txns, after, calendar)
    ensures RunsInv(after) && ModesAgree(after)
    decreases |txns|
  {
    hide RunsInv, ModesAgree, Commit, RepeatsOldOutcome, ValidBundle, PollPicks;
    if txns != [] {
      CommitKeepsRuns(db, txns[0], calendar);
      CommitKeepsModes(db, txns[0], calendar);
      ModesAlwaysAgree(Commit(db, txns[0], calendar), txns[1..], after, calendar);
    }
  }

  /**
    In every history of a store an active run is published in its mirror's current mode, and
    a bundle that would give the mirror another mode is refused whole.
   */
  lemma ActiveRunFixesTheMode(
    txns: seq<Txn>, db: Db, calendar: Calendar, id: RunId, bundle: Bundle, base: nat, now: int)
    requires History(EMPTY_DB, txns, db, calendar) && id in db.runs && db.runs[id].state.IsActive()
    ensures ModeAgrees(db, id)
    ensures db.runs[id].mirror in bundle
            && bundle[db.runs[id].mirror].document.mode != RunDocument(db, id).value.mode ==>
              !ApplyResult(db, bundle, base).ConfigApplied? && AfterApply(db, bundle, base, now, calendar) == db
  {
    hide RunsInv, History, AfterApply, Blocked, HasActiveRun;
    EmptyStoreIsSound();
    ModesAlwaysAgree(EMPTY_DB, txns, db, calendar);
    RunHasMirror(db, id);
    ActiveMirror(db, id);
    RefusedApplyChangesNothing(db, bundle, base, now, calendar);
    if db.revision == base {
      BusyExactly(db, bundle, base, now, calendar);
    }
  }
}
