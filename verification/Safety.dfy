/**
  What holds in every state the whole system reaches, whatever is lost, repeated,
  delayed or crashes on the way.
 */
module Safety {
  import opened Common
  import opened Lifecycle
  import opened Schedule
  import opened StoreModel
  import opened StoreRuns
  import opened StoreHistory
  import opened Spool
  import opened AgentModel
  import opened AgentHistories
  import opened Delivery
  import opened System

  ghost predicate Reaches(w: World, steps: seq<WorldStep>, after: World, calendar: Calendar)
    decreases |steps|
  {
    if steps == [] then after == w
    else CanStep(w, steps[0]) && Reaches(AfterWorld(w, steps[0], calendar), steps[1..], after, calendar)
  }

  /** No failing write and no undone publication makes an attempt end under a second number. */
  ghost predicate EndsOnce(w: World, steps: seq<WorldStep>, calendar: Calendar)
    decreases |steps|
  {
    steps != [] && CanStep(w, steps[0]) ==>
      OneNumber(w, steps[0]) && EndsOnce(AfterWorld(w, steps[0], calendar), steps[1..], calendar)
  }

  /** An empty store and any number of agents that have done nothing. */
  predicate Fresh(w: World) {
    w.db == EMPTY_DB && w.channels == map[] && forall n :: n in w.agents ==> w.agents[n] == Agent(map[], map[])
  }

  lemma {:induction false} ReachableIsSound(w: World, steps: seq<WorldStep>, after: World, calendar: Calendar)
    requires WorldInv(w) && Reaches(w, steps, after, calendar) && EndsOnce(w, steps, calendar)
    ensures WorldInv(after)
    decreases |steps|
  {
    hide WorldInv, CanStep, AfterWorld, OneNumber;
    if steps != [] {
      StepKeepsWorld(w, steps[0], calendar);
      ReachableIsSound(AfterWorld(w, steps[0], calendar), steps[1..], after, calendar);
    }
  }

  lemma FreshIsSound(w: World)
    requires Fresh(w)
    ensures WorldInv(w)
  {
  }

  // Single writer

  predicate Executing(w: World, n: Name, k: Key) {
    n in w.agents && Live(w.agents[n], k)
  }

  function MirrorOfTask(w: World, n: Name, k: Key): Name
    requires Executing(w, n, k)
  {
    w.agents[n].tasks[k].memory.spec.mirror
  }

  /** An executing attempt is open on the server, its owner's, and exactly what the server dispatched. */
  lemma ExecutingIsOpen(w: World, n: Name, k: Key)
    requires WorldInv(w) && Executing(w, n, k)
    ensures k in w.db.attempts && !w.db.attempts[k].state.IsTerminal() && OwnerOf(w.db, k) == n
    ensures w.agents[n].tasks[k].memory.spec == w.db.attempts[k].spec
  {
    hide RunsInv, AgentInv, KeyInv, LocalAt;
    KnownKey(w, n, k);
    var a := w.agents[n];
    LocalParts(n, w.db.attempts[k], a, k, ChannelOf(w, k));
    LiveRecord(a, k);
    LiveTaskOpenRow(LocalAt(w, k));
  }

  lemma LiveRecord(a: Agent, k: Key)
    requires AgentInv(a) && Live(a, k)
    ensures k in a.spool && !a.spool[k].state.IsTerminal() && a.tasks[k].memory.spec == a.spool[k].spec
  {
    assert TaskOk(a.tasks[k], a.spool[k]);
  }

  lemma LiveTaskOpenRow(l: Local)
    requires KeyInv(l) && l.record.Some? && l.live
    ensures !l.row.state.IsTerminal() && l.record.value.spec == l.row.spec
  {
  }

  /** At most one attempt of a mirror executes, on all nodes together. */
  lemma SingleWriter(w: World, n: Name, k: Key, m: Name, l: Key)
    requires WorldInv(w) && Executing(w, n, k) && Executing(w, m, l)
    requires MirrorOfTask(w, n, k) == MirrorOfTask(w, m, l)
    ensures n == m && k == l
  {
    hide RunsInv, AgentInv, KeyInv;
    ExecutingIsOpen(w, n, k);
    ExecutingIsOpen(w, m, l);
    OneLiveAttemptPerMirror(w.db, k, l);
  }

  ghost predicate OneWriter(w: World) {
    forall n, k, m, l | Executing(w, n, k) && Executing(w, m, l) && MirrorOfTask(w, n, k) == MirrorOfTask(w, m, l) ::
      n == m && k == l
  }

  /** Never two writers for one mirror, in any state reached from fresh stores and agents. */
  lemma NeverTwoWriters(w: World, steps: seq<WorldStep>, after: World, calendar: Calendar)
    requires Fresh(w) && Reaches(w, steps, after, calendar) && EndsOnce(w, steps, calendar)
    ensures OneWriter(after)
  {
    hide WorldInv, Executing, MirrorOfTask;
    FreshIsSound(w);
    ReachableIsSound(w, steps, after, calendar);
    forall n, k, m, l | Executing(after, n, k) && Executing(after, m, l) &&
                        MirrorOfTask(after, n, k) == MirrorOfTask(after, m, l)
      ensures n == m && k == l
    {
      SingleWriter(after, n, k, m, l);
    }
  }

  // Event refinement

  /** An agent never believes more acknowledged than the server has. */
  lemma AcknowledgementNeverAhead(w: World, n: Name, k: Key)
    requires WorldInv(w) && n in w.agents && k in w.agents[n].spool
    ensures k in w.db.attempts && w.agents[n].spool[k].acknowledged <= w.db.attempts[k].lastSequence
  {
    hide RunsInv, AgentInv, KeyInv, LocalAt;
    KnownKey(w, n, k);
    LocalParts(n, w.db.attempts[k], w.agents[n], k, ChannelOf(w, k));
    ShapeOf(LocalAt(w, k));
  }

  /** What the server last applied of an attempt. */
  function ServerEntry(w: World, k: Key): AttemptEvent
    requires k in w.db.attempts
  {
    AttemptEvent(w.db.attempts[k].lastSequence, w.db.attempts[k].state)
  }

  /**
    The server's state and sequence number are an entry of the attempt's durable
    history exactly unless they are an end the agent reported from memory and could
    not write.
   */
  lemma ServerFollowsHistoryExactly(w: World, k: Key)
    requires WorldInv(w) && k in w.db.attempts && !w.db.attempts[k].state.Queued?
    ensures var entry, c := ServerEntry(w, k), ChannelOf(w, k);
            FromHistory(entry, c.durable) <==> !(entry in c.lost && entry !in c.durable)
  {
    hide RunsInv, AgentInv, LocalOf, OutcomeKnown, Unheard, InProgress;
    var n := OwnerOf(w.db, k);
    LocalParts(n, w.db.attempts[k], AgentAt(w, n), k, ChannelOf(w, k));
    assert KeyInv(LocalAt(w, k));
  }

  /** The write that ends an execution replaces the record, whatever it then answers. */
  predicate EndIsWritten(w: World, step: WorldStep) {
    step.AgentActs? && step.node in w.agents ==>
      match step.step
      case LaunchFailsStep(_, _, written) => !written.NotStored?
      case FinishStep(_, _, written) => !written.NotStored?
      case NormalizeStep(_, written) => !written.NotStored?
      case PublishStep(k, ended) =>
        k in w.agents[step.node].spool && Entry(w.agents[step.node].spool[k]) == Entry(ended)
      case _ => true
  }

  ghost predicate EndsAreWritten(w: World, steps: seq<WorldStep>, calendar: Calendar)
    decreases |steps|
  {
    steps != [] && CanStep(w, steps[0]) ==>
      EndIsWritten(w, steps[0]) && EndsAreWritten(AfterWorld(w, steps[0], calendar), steps[1..], calendar)
  }

  ghost predicate NothingLost(w: World) {
    forall k :: ChannelOf(w, k).lost == {}
  }

  lemma NotedLosesNothing(n: Name, row: Attempt, a: Agent, agent: Agent, k: Key, c: Channel, next: Channel)
    requires KeyInv(LocalOf(n, row, a, k, c)) && c.lost == {} && next.lost == {} && next.durable == c.durable
    requires MemoryIn(agent, k).Some? && MemoryIn(agent, k) != MemoryIn(a, k) ==>
      k in agent.spool && Entry(agent.spool[k]) == Entry(MemoryIn(agent, k).value)
    ensures Noted(next, agent, k).lost == {}
  {
    hide OutcomeKnown, Unheard, InProgress;
  }

  lemma ActionLosesNothing(a: Agent, step: AgentStep)
    requires Enabled(a, step) && Advances(step)
    requires step.LaunchFailsStep? || step.FinishStep? || step.NormalizeStep? ==> !step.written.NotStored?
    requires step.PublishStep? ==> step.key in a.spool && Entry(a.spool[step.key]) == Entry(step.ended)
    ensures var memory := MemoryIn(After(a, step), step.key);
            memory.Some? && memory != MemoryIn(a, step.key) ==>
              step.key in After(a, step).spool && Entry(After(a, step).spool[step.key]) == Entry(memory.value)
  {
  }

  lemma ArrivalKeepsMemory(
    a: Agent, k: Key, spec: Spec, identity: Option<Name>, admission: Admission, written: WriteResult)
    ensures MemoryIn(AfterAccept(a, k, spec, identity, admission), k).Some? ==>
      MemoryIn(AfterAccept(a, k, spec, identity, admission), k) == MemoryIn(a, k)
    ensures MemoryIn(AfterCancel(a, k, spec, written), k) == MemoryIn(a, k)
  {
    hide AdmissionRefuses;
  }

  lemma OneChannelLosesNothing(w: World, after: World, k: Key)
    requires NothingLost(w) && (forall j :: j != k ==> ChannelOf(after, j) == ChannelOf(w, j))
    requires ChannelOf(after, k).lost == {}
    ensures NothingLost(after)
  {
    forall j ensures ChannelOf(after, j).lost == {} {
      assert ChannelOf(w, j).lost == {};
    }
  }

  lemma SameChannelsLoseNothing(w: World, after: World)
    requires NothingLost(w) && after.channels == w.channels
    ensures NothingLost(after)
  {
    forall j ensures ChannelOf(after, j).lost == {} {
      assert ChannelOf(w, j).lost == {};
    }
  }

  lemma PostedLosesNothing(w: World, after: World, node: Name, action: Option<PollAction>, withIdentity: bool)
    requires NothingLost(w) && after.channels == Posted(w, node, action, withIdentity)
    ensures NothingLost(after)
  {
    forall j ensures ChannelOf(after, j).lost == {} {
      assert ChannelOf(w, j).lost == {};
    }
  }

  lemma StepLosesNothing(w: World, step: WorldStep, calendar: Calendar)
    requires WorldInv(w) && NothingLost(w) && CanStep(w, step) && EndIsWritten(w, step)
    ensures NothingLost(AfterWorld(w, step, calendar))
  {
    hide WorldInv, Commit, Poll, PollPicks, AfterAccept, AfterCancel, AfterEvent, WellPosed, After, MayReport, Noted,
         LocalOf, LocalAt, KeyInv, KeepsOneNumber, AfterAction;
    var after := AfterWorld(w, step, calendar);
    match step
    case AgentPolls(node, now, capacity, atomicReady, choice, withIdentity) =>
      PostedLosesNothing(w, after, node, Poll(w.db, node, now, capacity, atomicReady, choice).action, withIdentity);
    case StartArrives(k, start, admission) =>
      var a, c := w.agents[start.node], ChannelOf(w, k);
      MessageKey(w, k);
      ArrivalKeepsMemory(a, k, start.spec, start.identity, admission, Stored);
      NotedLosesNothing(start.node, w.db.attempts[k], a, AfterAccept(a, k, start.spec, start.identity, admission), k, c,
                        c.(starts := c.starts - multiset{start}));
      OneChannelLosesNothing(w, after, k);
    case StartLost(k, _) =>
      assert ChannelOf(w, k).lost == {};
      OneChannelLosesNothing(w, after, k);
    case CancelArrives(k, cancel, written) =>
      var a, c := w.agents[cancel.node], ChannelOf(w, k);
      var agent := AfterCancel(a, k, cancel.spec, written);
      MessageKey(w, k);
      ArrivalKeepsMemory(a, k, cancel.spec, None, Admission(true, true, 0, Stored), written);
      NotedLosesNothing(cancel.node, w.db.attempts[k], a, agent, k, c,
                        c.(tombstoned := c.tombstoned || (k !in a.spool && k in agent.spool)));
      OneChannelLosesNothing(w, after, k);
    case EventSent(_, k, _) =>
      assert ChannelOf(w, k).lost == {};
      OneChannelLosesNothing(w, after, k);
    case EventAnswered(n, k, sequence) => ActionKeepsAll(w, n, AcknowledgeStep(k, sequence));
    case AgentActs(n, action) =>
      if action.RestartStep? {
        SameChannelsLoseNothing(w, after);
      } else {
        ActionKeepsAll(w, n, action);
      }
    case _ => SameChannelsLoseNothing(w, after);
  }

  lemma ActionKeepsAll(w: World, n: Name, step: AgentStep)
    requires WorldInv(w) && NothingLost(w) && n in w.agents && Enabled(w.agents[n], step)
    requires (LocalStep(step) || step.AcknowledgeStep?) && EndIsWritten(w, AgentActs(n, step))
    ensures NothingLost(AfterAction(w, n, step))
  {
    hide WorldInv, After, Enabled, Noted, LocalOf, LocalAt, KeyInv;
    var k, a := step.key, w.agents[n];
    StepIsKnown(a, step);
    KnownKey(w, n, k);
    var c := ChannelOf(w, k);
    var next := c.(launches := c.launches + if step.SpawnStep? then 1 else 0);
    if Advances(step) {
      ActionLosesNothing(a, step);
    } else {
      RemovalKeepsMemory(a, step);
    }
    NotedLosesNothing(n, w.db.attempts[k], a, After(a, step), k, c, next);
    OneChannelLosesNothing(w, AfterAction(w, n, step), k);
  }

  lemma RemovalKeepsMemory(a: Agent, step: AgentStep)
    requires Enabled(a, step) && (step.RetireStep? || step.ClearFenceStep? || step.DropStep?)
    ensures MemoryIn(After(a, step), step.key).Some? ==> MemoryIn(After(a, step), step.key) == MemoryIn(a, step.key)
  {
  }

  lemma {:induction false} ReachableLosesNothing(w: World, steps: seq<WorldStep>, after: World, calendar: Calendar)
    requires WorldInv(w) && NothingLost(w) && Reaches(w, steps, after, calendar)
    requires EndsOnce(w, steps, calendar) && EndsAreWritten(w, steps, calendar)
    ensures WorldInv(after) && NothingLost(after)
    decreases |steps|
  {
    hide WorldInv, NothingLost, CanStep, AfterWorld, OneNumber, EndIsWritten;
    if steps != [] {
      StepKeepsWorld(w, steps[0], calendar);
      StepLosesNothing(w, steps[0], calendar);
      ReachableLosesNothing(AfterWorld(w, steps[0], calendar), steps[1..], after, calendar);
    }
  }

  /** While every write that ends an execution reaches the disk, the server only ever holds what a record has held. */
  lemma ServerFollowsHistory(w: World, steps: seq<WorldStep>, after: World, k: Key, calendar: Calendar)
    requires Fresh(w) && Reaches(w, steps, after, calendar)
    requires EndsOnce(w, steps, calendar) && EndsAreWritten(w, steps, calendar)
    requires k in after.db.attempts && !after.db.attempts[k].state.Queued?
    ensures FromHistory(ServerEntry(after, k), ChannelOf(after, k).durable)
  {
    hide WorldInv, Reaches, EndsOnce, EndsAreWritten, FromHistory;
    FreshIsSound(w);
    ReachableLosesNothing(w, steps, after, calendar);
    ServerFollowsHistoryExactly(after, k);
  }

  /** The server refuses an event in flight exactly when it is news of a rejection; none re-opens a decided outcome. */
  lemma OnlyRejectionsAreRefused(w: World, k: Key, event: AttemptEvent, now: int)
    requires WorldInv(w) && k in w.channels && event in w.channels[k].sent
    ensures k in w.db.attempts
    ensures EventResult(w.db, k, event, now).Illegal? <==>
      event.state.Rejected? && event.sequence > w.db.attempts[k].lastSequence
    ensures !EventResult(w.db, k, event, now).Missing? && !RepeatsOldOutcome(w.db, k, event, now)
  {
    hide WorldInv;
    ArrivingEvent(w, k, event, now);
  }

  /**
    A rejected attempt never reaches the server: the Accepted reported before it makes
    the rejection illegal, so the record is never acknowledged and never retires.
   */
  lemma RejectionIsNeverKnown(w: World, n: Name, k: Key)
    requires WorldInv(w) && n in w.agents && k in w.agents[n].spool && w.agents[n].spool[k].state.Rejected?
    ensures k in w.db.attempts && !w.db.attempts[k].state.IsTerminal()
    ensures w.db.attempts[k].lastSequence <= 1
    ensures w.agents[n].spool[k].acknowledged < w.agents[n].spool[k].sequence && !w.agents[n].spool[k].ReadyForCleanup()
  {
    hide RunsInv, AgentInv, LocalAt;
    KnownKey(w, n, k);
    LocalParts(n, w.db.attempts[k], w.agents[n], k, ChannelOf(w, k));
    RejectedIsStuck(LocalAt(w, k));
  }
}
