/**
  What the transactions keep about schedules: rows match the current documents,
  interval schedules never die, and missed due times coalesce into one intent.
 */
module StoreSchedules {
  import opened Common
  import opened Lifecycle
  import opened Schedule
  import opened StoreModel
  import opened StoreRuns
  import opened StoreApply

  ghost predicate RowOk(db: Db, m: Name, row: ScheduleRow) {
    && Eligible(db, m) && CurrentDocument(db, m).Some?
    && CurrentDocument(db, m).value.schedule == Some(row.config)
    && Coherent(row.runtime)
    && (row.config.Cron? ==> row.runtime.nextDue.Some?)
  }

  ghost predicate WantsRow(db: Db, m: Name) {
    Eligible(db, m) && CurrentDocument(db, m).Some? && CurrentDocument(db, m).value.schedule.Some?
  }

  /** A mirror has a schedule row exactly when it is eligible and its document has a schedule. */
  ghost predicate SchedulesInv(db: Db) {
    && (forall m :: m in db.schedules ==> RowOk(db, m, db.schedules[m]))
    && (forall m :: m in db.mirrors && WantsRow(db, m) ==> m in db.schedules)
  }

  predicate ActiveOwned(db: Db, m: Name) {
    exists id :: id in db.runs && IsActiveRunOf(db, m, id) && m in db.mirrors
      && db.runs[id].owner == db.mirrors[m].owner
  }

  /** The schedule can still produce a run: it is armed, intends one, or has one whose end will re-arm it. */
  predicate Alive(db: Db, m: Name)
    requires m in db.schedules
  {
    db.schedules[m].runtime.nextDue.Some? || db.schedules[m].runtime.catchUpPending || ActiveOwned(db, m)
  }

  ghost predicate IntervalsAlive(db: Db) {
    forall m :: m in db.schedules && db.schedules[m].config.Interval? ==> Alive(db, m)
  }

  /** Every active run still belongs to its mirror's owner. */
  ghost predicate OwnersAgree(db: Db) {
    forall id :: id in db.runs && db.runs[id].state.IsActive() ==>
      db.runs[id].mirror in db.mirrors && db.runs[id].owner == db.mirrors[db.runs[id].mirror].owner
  }

  ghost predicate ScheduleState(db: Db) {
    RunsInv(db) && SchedulesInv(db) && OwnersAgree(db) && IntervalsAlive(db)
  }

  /** Intent starts at the due time it was missed at and then keeps it until it is cleared. */
  predicate IntentStep(before: ScheduleRow, after: ScheduleRow) {
    after.runtime.catchUpPending ==>
      after.runtime.catchUpSince ==
      if before.runtime.catchUpPending then before.runtime.catchUpSince else before.runtime.nextDue
  }

  ghost predicate IntentCoalesces(db: Db, after: Db) {
    forall m :: m in db.schedules && m in after.schedules ==> IntentStep(db.schedules[m], after.schedules[m])
  }

  // Transactions that leave mirrors and documents alone

  ghost predicate SameMirrors(db: Db, after: Db) {
    after.mirrors == db.mirrors && after.generations == db.generations && after.schedules.Keys == db.schedules.Keys
  }

  lemma RowsStayOk(db: Db, after: Db)
    requires SchedulesInv(db) && SameMirrors(db, after)
    requires forall m :: m in after.schedules ==>
      after.schedules[m].config == db.schedules[m].config && Coherent(after.schedules[m].runtime) &&
      (after.schedules[m].config.Cron? ==> after.schedules[m].runtime.nextDue.Some?)
    ensures SchedulesInv(after)
  {
    forall m | m in after.schedules ensures RowOk(after, m, after.schedules[m]) {
      assert RowOk(db, m, db.schedules[m]);
    }
    forall m | m in after.mirrors && WantsRow(after, m) ensures m in after.schedules {
      assert WantsRow(db, m);
    }
  }

  lemma CreatedRunKeepsSchedules(db: Db, after: Db, m: Name, newId: RunId, r: Run)
    requires SchedulesInv(db) && OwnersAgree(db) && IntervalsAlive(db) && newId !in db.runs && m in db.mirrors
    requires r.mirror == m && r.owner == db.mirrors[m].owner && r.state.IsActive()
    requires after == db.(runs := db.runs[newId := r], schedules := ClearIntent(db.schedules, m))
    ensures SchedulesInv(after) && OwnersAgree(after) && IntervalsAlive(after) && IntentCoalesces(db, after)
  {
    CreatedRunKeepsRows(db, after, m);
    hide SchedulesInv, IntentCoalesces;
    assert IsActiveRunOf(after, m, newId);
    OtherSchedulesStayAlive(db, after, m);
  }

  lemma CreatedRunKeepsRows(db: Db, after: Db, m: Name)
    requires SchedulesInv(db) && SameMirrors(db, after) && after.schedules == ClearIntent(db.schedules, m)
    ensures SchedulesInv(after) && IntentCoalesces(db, after)
  {
    forall x | x in db.schedules ensures RowOk(db, x, db.schedules[x]) {
    }
    RowsStayOk(db, after);
  }

  lemma ManualKeepsSchedules(db: Db, m: Name, request: string, prior: Option<RunId>, newId: RunId, now: int)
    requires ScheduleState(db) && newId !in db.runs
    ensures ScheduleState(AfterManual(db, m, request, prior, newId, now))
    ensures IntentCoalesces(db, AfterManual(db, m, request, prior, newId, now))
  {
    hide RunsInv, SchedulesInv, OwnersAgree, IntervalsAlive;
    var after := AfterManual(db, m, request, prior, newId, now);
    ManualKeepsRuns(db, m, request, prior, newId, now);
    if ManualResult(db, m, prior, newId).Created? {
      CreatedRunKeepsSchedules(db, after, m, newId, after.runs[newId]);
    }
  }

  /** A transaction that ends no active run keeps alive every row it leaves alone. */
  lemma OtherSchedulesStayAlive(db: Db, after: Db, m: Name)
    requires SameMirrors(db, after) && IntervalsAlive(db)
    requires forall id :: id in db.runs ==>
      id in after.runs && after.runs[id].mirror == db.runs[id].mirror && after.runs[id].owner == db.runs[id].owner &&
      (db.runs[id].mirror != m && db.runs[id].state.IsActive() ==> after.runs[id].state.IsActive())
    requires forall x :: x in db.schedules && x != m ==> after.schedules[x] == db.schedules[x]
    requires m in after.schedules && after.schedules[m].config.Interval? ==> Alive(after, m)
    ensures IntervalsAlive(after)
  {
    forall x | x in after.schedules && after.schedules[x].config.Interval? ensures Alive(after, x) {
      if x != m {
        assert Alive(db, x);
        if ActiveOwned(db, x) {
          var id :| id in db.runs && IsActiveRunOf(db, x, id) && db.runs[id].owner == db.mirrors[x].owner;
          assert IsActiveRunOf(after, x, id);
        }
      }
    }
  }

  lemma DispatchKeepsSchedules(db: Db, id: RunId, no: nat, document: Document, now: int)
    requires SchedulesInv(db) && OwnersAgree(db) && IntervalsAlive(db) && id in db.runs
    ensures SchedulesInv(PersistDispatch(db, id, no, document, now))
    ensures OwnersAgree(PersistDispatch(db, id, no, document, now))
    ensures IntervalsAlive(PersistDispatch(db, id, no, document, now))
  {
    var after := PersistDispatch(db, id, no, document, now);
    RowsStayOkAll(db, after);
    RunsKeepSchedulesAlive(db, after);
  }

  lemma RowsStayOkAll(db: Db, after: Db)
    requires SchedulesInv(db) && SameMirrors(db, after) && after.schedules == db.schedules
    ensures SchedulesInv(after)
  {
    forall m | m in db.schedules ensures RowOk(db, m, db.schedules[m]) {
    }
    RowsStayOk(db, after);
  }

  lemma RunsKeepSchedulesAlive(db: Db, after: Db)
    requires SameMirrors(db, after) && after.schedules == db.schedules && IntervalsAlive(db)
    requires forall id :: id in db.runs ==>
      id in after.runs && after.runs[id].mirror == db.runs[id].mirror && after.runs[id].owner == db.runs[id].owner &&
      (db.runs[id].state.IsActive() ==> after.runs[id].state.IsActive())
    ensures IntervalsAlive(after)
  {
    forall x | x in after.schedules && after.schedules[x].config.Interval? ensures Alive(after, x) {
      assert Alive(db, x);
      if ActiveOwned(db, x) {
        var id :| id in db.runs && IsActiveRunOf(db, x, id) && db.runs[id].owner == db.mirrors[x].owner;
        assert IsActiveRunOf(after, x, id);
      }
    }
  }

  lemma MaterializeKeepsSchedules(db: Db, m: Name, newId: RunId, now: int)
    requires SchedulesInv(db) && OwnersAgree(db) && IntervalsAlive(db)
    requires m in db.schedules && m in db.mirrors && newId !in db.runs
    ensures var staged := Materialize(db, m, newId, now);
            SchedulesInv(staged) && OwnersAgree(staged) && IntervalsAlive(staged) && IntentCoalesces(db, staged)
  {
    hide SchedulesInv, OwnersAgree, IntervalsAlive, IntentCoalesces, ClearIntent;
    var staged := Materialize(db, m, newId, now);
    CreatedRunKeepsSchedules(db, staged, m, newId, staged.runs[newId]);
  }

  lemma PollKeepsSchedules(db: Db, node: Name, now: int, capacity: bool, atomicReady: bool, choice: PollChoice)
    requires ScheduleState(db) && PollPicks(db, node, now, capacity, choice)
    ensures ScheduleState(Poll(db, node, now, capacity, atomicReady, choice).db)
    ensures IntentCoalesces(db, Poll(db, node, now, capacity, atomicReady, choice).db)
  {
    hide RunsInv, SchedulesInv, IntervalsAlive, OwnersAgree, Alive;
    PollKeepsRuns(db, node, now, capacity, atomicReady, choice);
    match choice
    case Redeliver(k) =>
      RedeliveryKeepsSchedules(db, k, now);
    case StartManual(id) =>
      if Dispatchable(db, id, 1, atomicReady) {
        DispatchKeepsSchedules(db, id, 1, RunDocument(db, id).value, now);
      }
    case StartRetry(id) =>
      var no := db.runs[id].attemptCount + 1;
      if Dispatchable(db, id, no, atomicReady) {
        DispatchKeepsSchedules(db, id, no, RunDocument(db, id).value, now);
      }
    case StartScheduled(m, newId) =>
      var staged := Materialize(db, m, newId, now);
      MaterializeKeepsSchedules(db, m, newId, now);
      if Dispatchable(staged, newId, 1, atomicReady) {
        DispatchKeepsSchedules(staged, newId, 1, RunDocument(staged, newId).value, now);
      }
    case _ =>
  }

  lemma RedeliveryKeepsSchedules(db: Db, k: Key, now: int)
    requires SchedulesInv(db) && OwnersAgree(db) && IntervalsAlive(db) && k in db.attempts
    ensures var after := db.(attempts := db.attempts[k := db.attempts[k].(
                               dispatches := db.attempts[k].dispatches + 1, lastDispatchAt := now)]);
            SchedulesInv(after) && OwnersAgree(after) && IntervalsAlive(after)
  {
    var after := db.(attempts := db.attempts[k := db.attempts[k].(
                       dispatches := db.attempts[k].dispatches + 1, lastDispatchAt := now)]);
    RowsStayOkAll(db, after);
    RunsKeepSchedulesAlive(db, after);
  }

  // Ending a run re-arms its interval

  lemma RearmedRow(db: Db, r: Run, now: int, calendar: Calendar)
    requires SchedulesInv(db)
    ensures ArmWith(db.schedules, r.mirror, TerminalRearm(db, r, now, calendar), now).Keys == db.schedules.Keys
    ensures r.mirror in db.schedules && db.schedules[r.mirror].config.Interval? && OwnerHolds(db, r) ==>
      ArmWith(db.schedules, r.mirror, TerminalRearm(db, r, now, calendar), now)[r.mirror].runtime.nextDue.Some?
    ensures forall m :: m in db.schedules ==>
      var row := ArmWith(db.schedules, r.mirror, TerminalRearm(db, r, now, calendar), now)[m];
      && row.config == db.schedules[m].config && Coherent(row.runtime) && IntentStep(db.schedules[m], row)
      && (row.config.Cron? ==> row.runtime.nextDue.Some?)
      && (m != r.mirror ==> row == db.schedules[m])
      && (row.runtime.nextDue.Some? || row == db.schedules[m])
  {
    forall m | m in db.schedules ensures RowOk(db, m, db.schedules[m]) {
    }
  }

  /** The run `id` changed, perhaps ended, and its mirror's row was armed if it did. */
  ghost predicate RunChanged(db: Db, after: Db, id: RunId, next: Run, armed: bool, now: int, calendar: Calendar) {
    && id in db.runs && after.runs == db.runs[id := next]
    && next.mirror == db.runs[id].mirror && next.owner == db.runs[id].owner
    && (next.state.IsActive() ==> db.runs[id].state.IsActive())
    && after.mirrors == db.mirrors && after.generations == db.generations
    && after.schedules ==
       (if armed
        then ArmWith(db.schedules, next.mirror, TerminalRearm(db, db.runs[id], now, calendar), now)
        else db.schedules)
    && (!next.state.IsActive() && db.runs[id].state.IsActive() ==> armed)
  }

  lemma RunChangeKeepsRows(db: Db, after: Db, id: RunId, next: Run, armed: bool, now: int, calendar: Calendar)
    requires SchedulesInv(db) && RunChanged(db, after, id, next, armed, now, calendar)
    ensures SchedulesInv(after) && IntentCoalesces(db, after)
  {
    hide TerminalRearm, ArmWith;
    RearmedRow(db, db.runs[id], now, calendar);
    forall x | x in db.schedules ensures RowOk(db, x, db.schedules[x]) {
    }
    RowsStayOk(db, after);
  }

  lemma RunChangeKeepsOwners(db: Db, after: Db, id: RunId, next: Run, armed: bool, now: int, calendar: Calendar)
    requires OwnersAgree(db) && RunChanged(db, after, id, next, armed, now, calendar)
    ensures OwnersAgree(after)
  {
    hide TerminalRearm, ArmWith;
  }

  lemma ScheduledIsEligible(db: Db, m: Name)
    requires SchedulesInv(db) && m in db.schedules
    ensures Eligible(db, m)
  {
    assert RowOk(db, m, db.schedules[m]);
  }

  /** The changed run's own mirror: another run of it is untouched, and this one is armed for if it ends. */
  lemma ChangedMirrorStaysAlive(db: Db, after: Db, id: RunId, next: Run, armed: bool, now: int, calendar: Calendar)
    requires SchedulesInv(db) && OneActive(db.runs) && RunChanged(db, after, id, next, armed, now, calendar)
    requires next.mirror in db.schedules && next.mirror in after.schedules
    requires after.schedules[next.mirror].config.Interval? && Alive(db, next.mirror)
    ensures Alive(after, next.mirror)
  {
    hide TerminalRearm, ArmWith, SchedulesInv;
    var m := next.mirror;
    ScheduledIsEligible(db, m);
    RearmedRow(db, db.runs[id], now, calendar);
    if !after.schedules[m].runtime.nextDue.Some? && ActiveOwned(db, m) {
      var j :| j in db.runs && IsActiveRunOf(db, m, j) && db.runs[j].owner == db.mirrors[m].owner;
      assert j != id || next.state.IsActive();
      assert IsActiveRunOf(after, m, j);
    }
  }

  lemma RunChangeKeepsAlive(db: Db, after: Db, id: RunId, next: Run, armed: bool, now: int, calendar: Calendar)
    requires SchedulesInv(db) && OwnersAgree(db) && IntervalsAlive(db) && OneActive(db.runs)
    requires RunChanged(db, after, id, next, armed, now, calendar)
    ensures IntervalsAlive(after)
  {
    hide TerminalRearm, ArmWith, SchedulesInv, Alive, OneActive;
    var m := next.mirror;
    RearmedRow(db, db.runs[id], now, calendar);
    if m in after.schedules && after.schedules[m].config.Interval? {
      assert Alive(db, m);
      ChangedMirrorStaysAlive(db, after, id, next, armed, now, calendar);
    }
    OtherSchedulesStayAlive(db, after, m);
  }

  /** Ending, or not, the run `id` and arming its row keeps schedules matched and alive. */
  lemma RunEndKeepsSchedules(db: Db, after: Db, id: RunId, next: Run, armed: bool, now: int, calendar: Calendar)
    requires SchedulesInv(db) && OwnersAgree(db) && IntervalsAlive(db) && OneActive(db.runs)
    requires RunChanged(db, after, id, next, armed, now, calendar)
    ensures SchedulesInv(after) && OwnersAgree(after) && IntervalsAlive(after) && IntentCoalesces(db, after)
  {
    hide SchedulesInv, OwnersAgree, IntervalsAlive, OneActive, RunChanged, IntentCoalesces;
    RunChangeKeepsRows(db, after, id, next, armed, now, calendar);
    RunChangeKeepsOwners(db, after, id, next, armed, now, calendar);
    RunChangeKeepsAlive(db, after, id, next, armed, now, calendar);
  }

  lemma CancelRequestKeepsSchedules(db: Db, id: RunId, now: int, calendar: Calendar)
    requires ScheduleState(db)
    ensures ScheduleState(AfterCancelRequest(db, id, now, calendar))
    ensures IntentCoalesces(db, AfterCancelRequest(db, id, now, calendar))
  {
    hide SchedulesInv, IntervalsAlive, OwnersAgree, TerminalRearm, ArmWith, Alive, RunOk, KeyOk, MirrorsOk;
    CancelRequestKeepsRuns(db, id, now, calendar);
    if id in db.runs && !db.runs[id].state.IsTerminal() {
      var after := AfterCancelRequest(db, id, now, calendar);
      RunEndKeepsSchedules(db, after, id, after.runs[id], !Dispatched(db, id), now, calendar);
    }
  }

  lemma EventKeepsSchedules(db: Db, key: Key, event: AttemptEvent, now: int, calendar: Calendar)
    requires ScheduleState(db) && !RepeatsOldOutcome(db, key, event, now)
    ensures ScheduleState(AfterEvent(db, key, event, now, calendar))
    ensures IntentCoalesces(db, AfterEvent(db, key, event, now, calendar))
  {
    hide SchedulesInv, IntervalsAlive, OwnersAgree, TerminalRearm, ArmWith, Alive, RunOk, KeyOk, MirrorsOk,
         RepeatsOldOutcome, DecideRetry;
    EventKeepsRuns(db, key, event, now, calendar);
    if EventResult(db, key, event, now).Applied? {
      AppliedEventRows(db, key, event, now, calendar);
      var after := AfterEvent(db, key, event, now, calendar);
      var projection := ProjectAttemptEvent(db.attempts[key].state, event);
      var armed :=
        projection.RunOutcome? && DecideRetry(RetryContextOf(db, key, event.state, now)).Final?;
      RunEndKeepsSchedules(db, after, key.run, after.runs[key.run], armed, now, calendar);
    }
  }

  // Ticks

  lemma TickedRows(db: Db, m: Name, now: int, calendar: Calendar)
    requires SchedulesInv(db) && ValidCalendar(calendar) && m in db.schedules
    ensures AfterTick(db, now, calendar).schedules.Keys == db.schedules.Keys
    ensures var row := AfterTick(db, now, calendar).schedules[m];
            && row.config == db.schedules[m].config && Coherent(row.runtime) && IntentStep(db.schedules[m], row)
            && (row.config.Cron? ==> row.runtime.nextDue.Some?)
            && (row.runtime.nextDue.Some? || row.runtime.catchUpPending || row == db.schedules[m]
                || (DueRow(db, m, now) && row.config.Interval? && HasActiveRun(db, m)))
            && (DueRow(db, m, now) && row.config.Interval? && HasActiveRun(db, m) ==>
                  row.runtime.nextDue.None? && !row.runtime.catchUpPending)
  {
    hide HasActiveRun;
    forall x | x in db.schedules ensures RowOk(db, x, db.schedules[x]) {
    }
    if DueRow(db, m, now) {
      EvaluationKeepsCoherence(db.schedules[m].config, db.schedules[m].runtime, now, HasActiveRun(db, m), calendar);
    }
  }

  lemma TickKeepsRows(db: Db, now: int, calendar: Calendar)
    requires SchedulesInv(db) && ValidCalendar(calendar)
    ensures SchedulesInv(AfterTick(db, now, calendar)) && IntentCoalesces(db, AfterTick(db, now, calendar))
  {
    hide SchedulesInv, Coherent, DueRow, TickedRow;
    var after := AfterTick(db, now, calendar);
    forall m | m in db.schedules
      ensures m in after.schedules && after.schedules[m].config == db.schedules[m].config
      ensures Coherent(after.schedules[m].runtime) && IntentStep(db.schedules[m], after.schedules[m])
      ensures after.schedules[m].config.Cron? ==> after.schedules[m].runtime.nextDue.Some?
    {
      TickedRows(db, m, now, calendar);
    }
    RowsStayOk(db, after);
  }

  /** A due interval row whose only active run belongs to another node. */
  ghost predicate DueBehindForeignRun(db: Db, m: Name, now: int) {
    && m in db.schedules && db.schedules[m].config.Interval? && DueRow(db, m, now)
    && HasActiveRun(db, m) && !ActiveOwned(db, m)
  }

  /** A tick keeps every interval schedule alive exactly when none is due behind another node's run. */
  lemma TickKeepsIntervalsAliveExactly(db: Db, now: int, calendar: Calendar)
    requires SchedulesInv(db) && ValidCalendar(calendar) && IntervalsAlive(db)
    ensures IntervalsAlive(AfterTick(db, now, calendar)) <==>
            forall m :: m in db.schedules ==> !DueBehindForeignRun(db, m, now)
  {
    hide SchedulesInv, Coherent, DueRow, TickedRow;
    var after := AfterTick(db, now, calendar);
    forall m | m in db.schedules
      ensures after.schedules.Keys == db.schedules.Keys
      ensures db.schedules[m].config.Interval? ==> (Alive(after, m) <==> !DueBehindForeignRun(db, m, now))
      ensures after.schedules[m].config == db.schedules[m].config
    {
      TickedRows(db, m, now, calendar);
      assert ActiveOwned(after, m) <==> ActiveOwned(db, m) by {
        SameRunsSameOwned(db, after, m);
      }
      if db.schedules[m].config.Interval? {
        assert Alive(db, m);
        if ActiveOwned(db, m) {
          OwnedIsActive(db, m);
        }
      }
    }
    if exists m :: m in db.schedules && DueBehindForeignRun(db, m, now) {
      var m :| m in db.schedules && DueBehindForeignRun(db, m, now);
      assert m in after.schedules && !Alive(after, m);
    }
  }

  lemma SameRunsSameOwned(db: Db, after: Db, m: Name)
    requires after.runs == db.runs && after.mirrors == db.mirrors
    ensures ActiveOwned(after, m) <==> ActiveOwned(db, m)
  {
    if ActiveOwned(db, m) {
      var id :| id in db.runs && IsActiveRunOf(db, m, id) && db.runs[id].owner == db.mirrors[m].owner;
      assert IsActiveRunOf(after, m, id);
    }
    if ActiveOwned(after, m) {
      var id :| id in after.runs && IsActiveRunOf(after, m, id) && after.runs[id].owner == after.mirrors[m].owner;
      assert IsActiveRunOf(db, m, id);
    }
  }

  lemma OwnedIsActive(db: Db, m: Name)
    requires ActiveOwned(db, m)
    ensures HasActiveRun(db, m)
  {
    var id :| id in db.runs && IsActiveRunOf(db, m, id) && db.runs[id].owner == db.mirrors[m].owner;
    assert IsActiveRunOf(db, m, id);
  }

  lemma TickKeepsSchedules(db: Db, now: int, calendar: Calendar)
    requires ScheduleState(db) && ValidCalendar(calendar)
    ensures ScheduleState(AfterTick(db, now, calendar))
    ensures IntentCoalesces(db, AfterTick(db, now, calendar))
  {
    hide RunsInv, SchedulesInv, IntervalsAlive, IntentCoalesces;
    TickKeepsRuns(db, now, calendar);
    TickKeepsRows(db, now, calendar);
    forall m | m in db.schedules ensures !DueBehindForeignRun(db, m, now) {
      if HasActiveRun(db, m) {
        var id :| id in db.runs && IsActiveRunOf(db, m, id);
        assert ActiveOwned(db, m);
      }
    }
    TickKeepsIntervalsAliveExactly(db, now, calendar);
  }

  // Restore

  /**
    An offline restore re-arms nothing: it keeps interval schedules alive exactly
    when every one of them was armed or intended a run without counting on an open run.
   */
  lemma RestoreKeepsIntervalsAliveExactly(db: Db)
    requires RunsInv(db)
    ensures IntervalsAlive(AfterRestore(db)) <==>
            forall m :: m in db.schedules && db.schedules[m].config.Interval? ==>
                          db.schedules[m].runtime.nextDue.Some? || db.schedules[m].runtime.catchUpPending
  {
    hide RunsInv, HasDispatched;
    var after := AfterRestore(db);
    RestoreKeepsRuns(db);
    forall m | m in db.schedules ensures m in after.schedules && after.schedules[m] == db.schedules[m] {
    }
    if IntervalsAlive(after) {
      forall m | m in db.schedules && db.schedules[m].config.Interval?
        ensures db.schedules[m].runtime.nextDue.Some? || db.schedules[m].runtime.catchUpPending
      {
        assert Alive(after, m);
      }
    }
  }

  // Configuration changes

  lemma ReconfiguredSchedule(db: Db, bundle: Bundle, m: Name, now: int, calendar: Calendar)
    ensures var after := Reconfigured(db, bundle, now, calendar);
            var row :=
              match PlannedChange(db, bundle, m)
              case None => if m in db.schedules then Some(db.schedules[m]) else None
              case Some(change) =>
                if m in bundle then ScheduleAfterChange(db, m, bundle[m], change, now, calendar) else None;
            (m in after.schedules <==> row.Some? && (m in db.schedules || m in bundle)) &&
            (m in after.schedules ==> after.schedules[m] == row.value)
  {
    hide RunAfterChange, AttemptAfterChange, ScheduleAfterChange, Eligible, CurrentDocument;
    assert PlannedChange(db, bundle, m).Some? ==> m in Plan(db, bundle).Keys by {
      if m !in db.mirrors && m !in bundle {
        assert PlannedChange(db, bundle, m).None?;
      }
    }
  }

  lemma ApplyKeepsOneRow(db: Db, bundle: Bundle, m: Name, now: int, calendar: Calendar)
    requires RunsInv(db) && SchedulesInv(db)
    ensures var after := Reconfigured(db, bundle, now, calendar);
            && (m in after.schedules ==> RowOk(after, m, after.schedules[m]))
            && (m in after.mirrors && WantsRow(after, m) ==> m in after.schedules)
            && (m in after.schedules && m in db.schedules ==> IntentStep(db.schedules[m], after.schedules[m]))
            && (m in after.schedules ==>
                  after.schedules[m].runtime.nextDue.Some?
                  || (m in db.schedules && after.schedules[m] == db.schedules[m]))
  {
    hide Reconfigured, RunOk, KeyOk, HighImpact;
    ReconfiguredSchedule(db, bundle, m, now, calendar);
    if m in db.schedules {
      assert RowOk(db, m, db.schedules[m]);
    }
    if m in db.mirrors {
      ReconfiguredMirror(db, bundle, m, now, calendar);
      assert MirrorOk(db.mirrors, db.generations, m);
      ReconfiguredGenerations(db, bundle, now, calendar);
    } else {
      NewMirror(db, bundle, m, now, calendar);
    }
    if m in bundle && PlannedChange(db, bundle, m).Some? {
      WrittenGeneration(db, bundle, m, now, calendar);
    }
  }

  /** A removed mirror added back on another node while its last dispatched attempt is still out. */
  ghost predicate ReaddedElsewhere(db: Db, bundle: Bundle, m: Name) {
    && m in db.mirrors && !db.mirrors[m].managed && m in bundle && bundle[m].owner != db.mirrors[m].owner
    && HasActiveRun(db, m)
  }

  lemma AttemptOutSurvivesApply(db: Db, bundle: Bundle, id: RunId, now: int, calendar: Calendar)
    requires RunsInv(db) && id in db.runs && ViewOf(db, id).AttemptOut()
    ensures id in Reconfigured(db, bundle, now, calendar).runs
    ensures Reconfigured(db, bundle, now, calendar).runs[id] == db.runs[id]
  {
    hide Reconfigured, PlannedChange, MirrorsOk, OneActive, KeyOk;
    ReconfiguredRun(db, bundle, id, now, calendar);
    WaitingRunHasNoDispatch(db, id);
  }

  lemma ActiveRunOwnerAfterApply(db: Db, bundle: Bundle, id: RunId, now: int, calendar: Calendar)
    requires RunsInv(db) && ValidBundle(bundle) && OwnersAgree(db) && !Blocked(db, bundle)
    requires id in db.runs && !ReaddedElsewhere(db, bundle, db.runs[id].mirror)
    ensures var after := Reconfigured(db, bundle, now, calendar);
            id in after.runs && (after.runs[id].state.IsActive() ==>
                                   after.runs[id].mirror in after.mirrors &&
                                   after.runs[id].owner == after.mirrors[after.runs[id].mirror].owner)
  {
    hide Reconfigured, HighImpact, RunOk, KeyOk, MirrorsOk, Blocked;
    var m := db.runs[id].mirror;
    ApplyKeepsOneRun(db, bundle, id, now, calendar);
    ReconfiguredRun(db, bundle, id, now, calendar);
    if db.runs[id].state.IsActive() {
      ReconfiguredMirror(db, bundle, m, now, calendar);
      ActiveRunIsNotMoved(db, bundle, id);
      assert IsActiveRunOf(db, m, id);
    }
  }

  /** A committed bundle keeps run and mirror owners in agreement exactly when it re-adds no mirror elsewhere. */
  lemma ApplyKeepsOwnersExactly(db: Db, bundle: Bundle, now: int, calendar: Calendar)
    requires RunsInv(db) && ValidBundle(bundle) && OwnersAgree(db) && !Blocked(db, bundle)
    ensures OwnersAgree(Reconfigured(db, bundle, now, calendar)) <==>
            forall m :: m in bundle ==> !ReaddedElsewhere(db, bundle, m)
  {
    hide Reconfigured, RunsInv, Blocked, ValidBundle;
    var after := Reconfigured(db, bundle, now, calendar);
    ReconfiguredRunKeys(db, bundle, now, calendar);
    if forall m :: m in bundle ==> !ReaddedElsewhere(db, bundle, m) {
      forall id | id in after.runs && after.runs[id].state.IsActive()
        ensures after.runs[id].mirror in after.mirrors &&
                after.runs[id].owner == after.mirrors[after.runs[id].mirror].owner
      {
        ActiveRunOwnerAfterApply(db, bundle, id, now, calendar);
      }
    } else {
      var m :| m in bundle && ReaddedElsewhere(db, bundle, m);
      var id :| id in db.runs && IsActiveRunOf(db, m, id);
      RemovedMirrorsRunIsOut(db, id);
      AttemptOutSurvivesApply(db, bundle, id, now, calendar);
      ReconfiguredMirror(db, bundle, m, now, calendar);
      assert after.runs[id].owner != after.mirrors[m].owner;
    }
  }

  lemma RemovedMirrorsRunIsOut(db: Db, id: RunId)
    requires RunsInv(db) && id in db.runs && db.runs[id].state.IsActive() && !Eligible(db, db.runs[id].mirror)
    ensures ViewOf(db, id).AttemptOut()
  {
    assert RunOk(db, id);
  }

  lemma UnchangedRowStaysAlive(db: Db, bundle: Bundle, m: Name, now: int, calendar: Calendar)
    requires ScheduleState(db) && ValidBundle(bundle) && !Blocked(db, bundle)
    requires !ReaddedElsewhere(db, bundle, m)
    requires m in db.schedules && db.schedules[m].config.Interval?
    requires m in Reconfigured(db, bundle, now, calendar).schedules
    requires Reconfigured(db, bundle, now, calendar).schedules[m] == db.schedules[m]
    ensures Alive(Reconfigured(db, bundle, now, calendar), m)
  {
    hide Reconfigured, RunsInv, Blocked, ValidBundle, HighImpact, SchedulesInv;
    var after := Reconfigured(db, bundle, now, calendar);
    assert Alive(db, m);
    if ActiveOwned(db, m) {
      var id :| id in db.runs && IsActiveRunOf(db, m, id) && db.runs[id].owner == db.mirrors[m].owner;
      EligibleRowKeepsRun(db, bundle, m, id, now, calendar);
      ActiveRunOwnerAfterApply(db, bundle, id, now, calendar);
      assert IsActiveRunOf(after, m, id);
    }
  }

  lemma EligibleRowKeepsRun(db: Db, bundle: Bundle, m: Name, id: RunId, now: int, calendar: Calendar)
    requires RunsInv(db) && !Blocked(db, bundle) && IsActiveRunOf(db, m, id)
    requires m in Reconfigured(db, bundle, now, calendar).schedules
    ensures id in Reconfigured(db, bundle, now, calendar).runs
    ensures Reconfigured(db, bundle, now, calendar).runs[id] == db.runs[id]
  {
    hide Reconfigured, RunsInv, Blocked, HighImpact, Eligible;
    ReconfiguredSchedule(db, bundle, m, now, calendar);
    ReconfiguredRun(db, bundle, id, now, calendar);
    ActiveRunIsNotMoved(db, bundle, id);
  }

  /** A committed bundle that re-adds no mirror elsewhere keeps every schedule matched, coalesced and alive. */
  lemma ApplyKeepsSchedules(db: Db, bundle: Bundle, base: nat, now: int, calendar: Calendar)
    requires ScheduleState(db) && ValidBundle(bundle)
    requires forall m :: m in bundle ==> !ReaddedElsewhere(db, bundle, m)
    ensures ScheduleState(AfterApply(db, bundle, base, now, calendar))
    ensures IntentCoalesces(db, AfterApply(db, bundle, base, now, calendar))
  {
    hide Reconfigured, RunsInv, Blocked, ValidBundle, OwnersAgree, RowOk, WantsRow, Alive, IntentStep, AfterApply;
    ApplyKeepsRuns(db, bundle, base, now, calendar);
    if ApplyResult(db, bundle, base).ConfigApplied? {
      var after := Reconfigured(db, bundle, now, calendar);
      ApplyIsReconfigured(db, bundle, base, now, calendar);
      ApplyKeepsOwnersExactly(db, bundle, now, calendar);
      forall m
        ensures m in after.schedules ==> RowOk(after, m, after.schedules[m])
        ensures m in after.mirrors && WantsRow(after, m) ==> m in after.schedules
        ensures m in after.schedules && m in db.schedules ==> IntentStep(db.schedules[m], after.schedules[m])
        ensures m in after.schedules && after.schedules[m].config.Interval? ==> Alive(after, m)
      {
        ApplyKeepsOneRow(db, bundle, m, now, calendar);
        if m in after.schedules && after.schedules[m].config.Interval? {
          if after.schedules[m].runtime.nextDue.Some? {
            ArmedIsAlive(after, m);
          } else {
            UnchangedRowStaysAlive(db, bundle, m, now, calendar);
          }
        }
      }
    } else {
      RefusedApplyChangesNothing(db, bundle, base, now, calendar);
      IntentKept(db);
    }
  }

  lemma ArmedIsAlive(db: Db, m: Name)
    requires m in db.schedules && db.schedules[m].runtime.nextDue.Some?
    ensures Alive(db, m)
  {
  }

  lemma IntentKept(db: Db)
    ensures IntentCoalesces(db, db)
  {
  }
}
