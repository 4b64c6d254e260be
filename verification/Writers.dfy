/**
  The single writer under the server's own condition: that no event it applies repeats,
  under a new number, the end of an attempt whose successor is out. Nothing here looks
  at how agents number their outcomes.
 */
module Writers {
  import opened Common
  import opened Lifecycle
  import opened Schedule
  import opened StoreModel
  import opened StoreRuns
  import opened StoreHistory
  import opened Spool
  import opened AgentModel
  import opened AgentHistories
  import opened Delivery
  import opened System
  import opened Safety
  import opened Launches

  ghost predicate NoOldOutcome(w: World, step: WorldStep) {
    step.EventArrives? ==> !RepeatsOldOutcome(w.db, step.key, step.event, step.now)
  }

  ghost predicate RepeatsNothing(w: World, steps: seq<WorldStep>, calendar: Calendar)
    decreases |steps|
  {
    steps != [] && CanStep(w, steps[0]) ==>
      NoOldOutcome(w, steps[0]) && RepeatsNothing(AfterWorld(w, steps[0], calendar), steps[1..], calendar)
  }

  /** Whatever the server holds of an attempt was once sent. */
  ghost predicate Told(w: World) {
    forall k :: k in w.db.attempts && !w.db.attempts[k].state.Queued? ==> ServerEntry(w, k) in ChannelOf(w, k).sent
  }

  ghost predicate OpenInv(w: World) {
    RunsInv(w.db) && OnceInv(w) && Told(w)
  }

  /** A step keeps the run invariant exactly when it applies no old outcome. */
  lemma StepKeepsRunsExactly(w: World, step: WorldStep, calendar: Calendar)
    requires RunsInv(w.db) && CanStep(w, step)
    ensures RunsInv(AfterWorld(w, step, calendar).db) <==> NoOldOutcome(w, step)
  {
    hide RunsInv, Commit, Poll, PollPicks, AfterAccept, AfterCancel, AfterEvent, WellPosed, After, Enabled, MayReport,
         Noted, RepeatsOldOutcome, KeepsOneNumber;
    match step
    case ServerActs(txn) => ServerTxnKeepsRows(w.db, txn, calendar);
    case AgentPolls(node, now, capacity, atomicReady, choice, _) =>
      PollKeepsRuns(w.db, node, now, capacity, atomicReady, choice);
    case EventArrives(k, event, now) => EventKeepsRunsExactly(w.db, k, event, now, calendar);
    case _ =>
  }

  lemma SentGrows(w: World, step: WorldStep, calendar: Calendar)
    requires CanStep(w, step)
    ensures forall k :: ChannelOf(w, k).sent <= ChannelOf(AfterWorld(w, step, calendar), k).sent
  {
    hide Commit, Poll, PollPicks, AfterAccept, AfterCancel, AfterEvent, WellPosed, After, Enabled, MayReport, Noted;
    NotedKeepsSent();
  }

  lemma NotedKeepsSent()
    ensures forall c, a, k :: Noted(c, a, k).sent == c.sent
  {
  }

  lemma StepKeepsTold(w: World, step: WorldStep, calendar: Calendar)
    requires OpenInv(w) && CanStep(w, step)
    ensures Told(AfterWorld(w, step, calendar))
  {
    hide RunsInv, OnceInv, Commit, Poll, PollPicks, AfterAccept, AfterCancel, AfterEvent, WellPosed, After, Enabled,
         MayReport, Noted, ChannelOf;
    SentGrows(w, step, calendar);
    match step
    case ServerActs(txn) => ServerTxnKeepsRows(w.db, txn, calendar);
    case AgentPolls(node, now, capacity, atomicReady, choice, _) =>
      OnceRowsAreSilent(w) by { OpenIsOnce(w); }
      PollAnswers(w.db, node, now, capacity, atomicReady, choice);
    case EventArrives(k, event, now) => EventIsTold(w, k, event, now, calendar);
    case _ =>
  }

  lemma OpenIsOnce(w: World)
    requires OpenInv(w)
    ensures OnceInv(w)
  {
  }

  lemma EventIsTold(w: World, k: Key, event: AttemptEvent, now: int, calendar: Calendar)
    requires Told(w) && k in w.channels && event in w.channels[k].sent
    ensures Told(w.(db := AfterEvent(w.db, k, event, now, calendar)))
  {
    hide AfterEvent, EventResult;
    if EventResult(w.db, k, event, now).Applied? {
      AppliedEventRows(w.db, k, event, now, calendar);
    } else {
      UnappliedEventChangesNothing(w.db, k, event, now, calendar);
    }
  }

  lemma {:induction false} ReachableIsOpen(w: World, steps: seq<WorldStep>, after: World, calendar: Calendar)
    requires OpenInv(w) && Reaches(w, steps, after, calendar) && RepeatsNothing(w, steps, calendar)
    ensures OpenInv(after)
    decreases |steps|
  {
    hide RunsInv, OnceInv, Told, CanStep, AfterWorld, NoOldOutcome;
    if steps != [] {
      StepKeepsRunsExactly(w, steps[0], calendar);
      StepKeepsOnce(w, steps[0], calendar);
      StepKeepsTold(w, steps[0], calendar);
      ReachableIsOpen(AfterWorld(w, steps[0], calendar), steps[1..], after, calendar);
    }
  }

  /** A process is yet to start, or may be alive, only for an attempt that is open on the server. */
  lemma LiveIsOpen(w: World, n: Name, k: Key)
    requires OpenInv(w) && Safety.Executing(w, n, k)
    ensures k in w.db.attempts && !w.db.attempts[k].state.IsTerminal() && OwnerOf(w.db, k) == n
    ensures w.agents[n].tasks[k].memory.spec == w.db.attempts[k].spec
  {
    hide RunsInv, OnceInv;
    OnceKnown(w, n, k);
    LiveIsUnreported(n, w.db.attempts[k], w.agents[n], k, ChannelOf(w, k));
  }

  lemma LiveIsUnreported(n: Name, row: Attempt, a: Agent, k: Key, c: Channel)
    requires AgentInv(a) && Once(LocalOf(n, row, a, k, c)) && Live(a, k)
    ensures a.tasks[k].memory.spec == row.spec && forall e :: e in c.sent ==> !e.state.IsTerminal()
  {
    assert TaskOk(a.tasks[k], a.spool[k]);
  }

  /** One writer for each mirror in every state reached without an old outcome applied anew. */
  lemma OneWriterUnlessRepeated(w: World, steps: seq<WorldStep>, after: World, calendar: Calendar)
    requires Fresh(w) && Reaches(w, steps, after, calendar) && RepeatsNothing(w, steps, calendar)
    ensures OneWriter(after)
  {
    hide RunsInv, OnceInv, Safety.Executing, MirrorOfTask, Reaches, RepeatsNothing;
    FreshIsOpen(w);
    ReachableIsOpen(w, steps, after, calendar);
    forall n, k, m, l | Safety.Executing(after, n, k) && Safety.Executing(after, m, l) &&
                        MirrorOfTask(after, n, k) == MirrorOfTask(after, m, l)
      ensures n == m && k == l
    {
      SameMirrorSameWriter(after, n, k, m, l);
    }
  }

  lemma SameMirrorSameWriter(w: World, n: Name, k: Key, m: Name, l: Key)
    requires OpenInv(w) && Safety.Executing(w, n, k) && Safety.Executing(w, m, l)
    requires MirrorOfTask(w, n, k) == MirrorOfTask(w, m, l)
    ensures n == m && k == l
  {
    hide RunsInv, OnceInv, Told;
    LiveIsOpen(w, n, k);
    LiveIsOpen(w, m, l);
    OneLiveAttemptPerMirror(w.db, k, l);
  }

  lemma FreshIsOpen(w: World)
    requires Fresh(w)
    ensures OpenInv(w)
  {
    EmptyStoreIsSound();
    FreshIsOnce(w);
  }

  /** One number for each end is enough for that: under it no old outcome is ever applied anew. */
  lemma {:induction false} OneNumberRepeatsNothing(w: World, steps: seq<WorldStep>, after: World, calendar: Calendar)
    requires WorldInv(w) && Reaches(w, steps, after, calendar) && EndsOnce(w, steps, calendar)
    ensures RepeatsNothing(w, steps, calendar)
    decreases |steps|
  {
    hide WorldInv, CanStep, AfterWorld, OneNumber, RepeatsOldOutcome;
    if steps != [] {
      StepRepeatsNothing(w, steps[0]);
      StepKeepsWorld(w, steps[0], calendar);
      OneNumberRepeatsNothing(AfterWorld(w, steps[0], calendar), steps[1..], after, calendar);
    }
  }

  lemma StepRepeatsNothing(w: World, step: WorldStep)
    requires WorldInv(w) && CanStep(w, step)
    ensures NoOldOutcome(w, step)
  {
    hide WorldInv, RepeatsOldOutcome;
    if step.EventArrives? {
      ArrivingEvent(w, step.key, step.event, step.now);
    }
  }
}
