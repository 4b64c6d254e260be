/**
  Server, agents and network together. Every step is a server transaction, a message
  arriving or getting lost, or a step of one agent; agents crash at any time.

  Premises, as step guards: no restore of the database or reset of a spool, and a
  start response is consumed before its attempt's record retires. Any write may fail;
  what has to hold of failing writes for the invariant to survive is `OneNumber`.
 */
module System {
  import opened Common
  import opened Lifecycle
  import opened Schedule
  import opened StoreModel
  import opened StoreRuns
  import opened StoreHistory
  import opened Spool
  import opened AgentModel
  import opened AgentHistories
  import opened Delivery

  datatype World = World(db: Db, agents: map<Name, Agent>, channels: map<Key, Channel>)

  datatype WorldStep =
    | ServerActs(txn: Txn)
    | AgentPolls(node: Name, now: int, capacity: bool, atomicReady: bool, choice: PollChoice, withIdentity: bool)
    | StartArrives(key: Key, start: StartMessage, admission: Admission)
    | StartLost(key: Key, start: StartMessage)
    | CancelArrives(key: Key, cancel: CancelMessage, written: WriteResult)
    | EventSent(node: Name, key: Key, event: AttemptEvent)
    | EventArrives(key: Key, event: AttemptEvent, now: int)
    | EventAnswered(node: Name, key: Key, sequence: nat)
    | AgentActs(node: Name, step: AgentStep)

  function ChannelOf(w: World, k: Key): Channel {
    if k in w.channels then w.channels[k] else QUIET
  }

  function OwnerOf(db: Db, k: Key): Name {
    if k.run in db.runs then db.runs[k.run].owner else ""
  }

  function AgentAt(w: World, n: Name): Agent {
    if n in w.agents then w.agents[n] else Agent(map[], map[])
  }

  function RecordIn(a: Agent, k: Key): Option<SpoolRecord> {
    if k in a.spool then Some(a.spool[k]) else None
  }

  /** The outcome an ended task still holds. */
  function MemoryIn(a: Agent, k: Key): Option<SpoolRecord> {
    if InStage(a, k, Ended) then Some(a.tasks[k].memory) else None
  }

  predicate Knows(a: Agent, k: Key) {
    k in a.spool || k in a.tasks
  }

  function LocalOf(owner: Name, row: Attempt, a: Agent, k: Key, c: Channel): Local {
    Local(owner, row, RecordIn(a, k), Undecided(a, k), InStage(a, k, Starting), MemoryIn(a, k), c)
  }

  function LocalAt(w: World, k: Key): Local
    requires k in w.db.attempts
  {
    var n := OwnerOf(w.db, k);
    LocalOf(n, w.db.attempts[k], AgentAt(w, n), k, ChannelOf(w, k))
  }

  ghost predicate Owned(w: World) {
    forall n, k :: n in w.agents && Knows(w.agents[n], k) ==> k in w.db.attempts && OwnerOf(w.db, k) == n
  }

  ghost predicate AgentsInv(w: World) {
    forall n :: n in w.agents ==> AgentInv(w.agents[n])
  }

  ghost predicate NumbersInv(w: World) {
    forall n :: n in w.agents ==> Numbered(w.agents[n])
  }

  ghost predicate KeysInv(w: World) {
    forall k :: k in w.db.attempts ==> KeyInv(LocalAt(w, k))
  }

  ghost predicate WorldInv(w: World) {
    && RunsInv(w.db) && AgentsInv(w) && NumbersInv(w) && Owned(w)
    && w.channels.Keys <= w.db.attempts.Keys && KeysInv(w)
  }

  // Steps

  predicate LocalStep(step: AgentStep) {
    || step.SyncStep? || step.SpawnStep? || step.LaunchFailsStep? || step.FinishStep?
    || step.CommitStep? || step.PersistStep? || step.PublishStep? || step.DropStep? || step.NormalizeStep?
    || step.RecoverStep? || step.LogStep? || step.RetireStep? || step.AbandonStep? || step.ClearFenceStep?
  }

  ghost predicate CanStep(w: World, step: WorldStep) {
    match step
    case ServerActs(txn) =>
      (txn.ManualTxn? || txn.CancelTxn? || txn.TickTxn? || txn.ApplyTxn?) && WellPosed(w.db, txn)
    case AgentPolls(node, now, capacity, _, choice, _) =>
      node in w.agents && PollPicks(w.db, node, now, capacity, choice)
    case StartArrives(k, start, _) => k in w.channels && start in w.channels[k].starts && start.node in w.agents
    case StartLost(k, start) => k in w.channels && start in w.channels[k].starts
    case CancelArrives(k, cancel, _) => k in w.channels && cancel in w.channels[k].cancels && cancel.node in w.agents
    case EventSent(n, k, event) => n in w.agents && MayReport(w.agents[n], k, event)
    case EventArrives(k, event, _) => k in w.channels && event in w.channels[k].sent
    case EventAnswered(n, k, sequence) =>
      n in w.agents && k in w.agents[n].spool && k in w.db.attempts && sequence <= w.db.attempts[k].lastSequence
    case AgentActs(n, action) =>
      && n in w.agents && Enabled(w.agents[n], action)
      && (action.RestartStep? || LocalStep(action))
      && (action.RetireStep? || action.ClearFenceStep? ==> ChannelOf(w, action.key).starts == multiset{})
  }

  /** Whatever ends or publishes an execution keeps, on disk and in memory, the one number its record had. */
  predicate OneNumber(w: World, step: WorldStep) {
    step.AgentActs? && step.node in w.agents ==> KeepsOneNumber(w.agents[step.node], step.step)
  }

  function Noted(c: Channel, a: Agent, k: Key): Channel {
    Remembered(if k in a.spool then c.(durable := c.durable + {Entry(a.spool[k])}) else c, MemoryIn(a, k))
  }

  function Identity(withIdentity: bool, mirror: Name): Option<Name> {
    if withIdentity then Some(mirror) else None
  }

  /** What a poll's answer puts on the wire. */
  function Posted(w: World, node: Name, action: Option<PollAction>, withIdentity: bool): map<Key, Channel> {
    match action
    case None => w.channels
    case Some(StartAttempt(k, mirror, spec)) =>
      var c := ChannelOf(w, k);
      w.channels[k := c.(starts := c.starts + multiset{StartMessage(node, spec, Identity(withIdentity, mirror))})]
    case Some(CancelAttempt(k, spec)) =>
      var c := ChannelOf(w, k);
      w.channels[k := c.(cancels := c.cancels + {CancelMessage(node, spec)})]
  }

  /** The world after one agent changed at one key, and that key's channel with it. */
  function Touched(w: World, n: Name, agent: Agent, k: Key, c: Channel): World {
    w.(agents := w.agents[n := agent], channels := w.channels[k := c])
  }

  function AfterWorld(w: World, step: WorldStep, calendar: Calendar): World
    requires CanStep(w, step)
  {
    match step
    case ServerActs(txn) => w.(db := Commit(w.db, txn, calendar))
    case AgentPolls(node, now, capacity, atomicReady, choice, withIdentity) =>
      var result := Poll(w.db, node, now, capacity, atomicReady, choice);
      w.(db := result.db, channels := Posted(w, node, result.action, withIdentity))
    case StartArrives(k, start, admission) =>
      var agent := AfterAccept(w.agents[start.node], k, start.spec, start.identity, admission);
      var c := w.channels[k];
      Touched(w, start.node, agent, k, Noted(c.(starts := c.starts - multiset{start}), agent, k))
    case StartLost(k, start) =>
      w.(channels := w.channels[k := w.channels[k].(starts := w.channels[k].starts - multiset{start})])
    case CancelArrives(k, cancel, written) =>
      var a := w.agents[cancel.node];
      var agent := AfterCancel(a, k, cancel.spec, written);
      var c := w.channels[k];
      var first := k !in a.spool && k in agent.spool;
      Touched(w, cancel.node, agent, k, Noted(c.(tombstoned := c.tombstoned || first), agent, k))
    case EventSent(n, k, event) =>
      var c := ChannelOf(w, k);
      Touched(w, n, w.agents[n], k, c.(sent := c.sent + {event}))
    case EventArrives(k, event, now) => w.(db := AfterEvent(w.db, k, event, now, calendar))
    case EventAnswered(n, k, sequence) => AfterAction(w, n, AcknowledgeStep(k, sequence))
    case AgentActs(n, action) =>
      if action.RestartStep? then w.(agents := w.agents[n := After(w.agents[n], action)])
      else AfterAction(w, n, action)
  }

  function AfterAction(w: World, n: Name, step: AgentStep): World
    requires n in w.agents && Enabled(w.agents[n], step) && !step.RestartStep? && !step.ResetStep?
  {
    var agent := After(w.agents[n], step);
    var c := ChannelOf(w, step.key);
    var launched := c.(launches := c.launches + if step.SpawnStep? then 1 else 0);
    Touched(w, n, agent, step.key, Noted(launched, agent, step.key))
  }

  // Lifting one attempt's step to the world

  /** Nothing of any other attempt changed. */
  ghost predicate OthersKept(w: World, after: World, n: Name, k: Key) {
    && after.agents.Keys == w.agents.Keys
    && (forall m :: m in w.agents && m != n ==> after.agents[m] == w.agents[m])
    && (n in w.agents ==> AgentKeptBut(w.agents[n], after.agents[n], k))
    && (forall j :: j != k ==> ChannelOf(after, j) == ChannelOf(w, j))
    && after.channels.Keys <= w.channels.Keys + {k}
  }

  ghost predicate AgentKeptBut(a: Agent, after: Agent, k: Key) {
    forall j :: j != k ==>
      && (j in after.spool <==> j in a.spool) && (j in a.spool ==> after.spool[j] == a.spool[j])
      && (j in after.tasks <==> j in a.tasks) && (j in a.tasks ==> after.tasks[j] == a.tasks[j])
  }

  ghost predicate RowsKept(db: Db, after: Db, k: Key) {
    && db.attempts.Keys <= after.attempts.Keys <= db.attempts.Keys + {k}
    && (forall j :: j in db.attempts && j != k ==> after.attempts[j] == db.attempts[j])
    && (forall j :: j in db.attempts ==> OwnerOf(after, j) == OwnerOf(db, j))
  }

  lemma OtherLocalsKept(w: World, after: World, n: Name, k: Key, j: Key)
    requires OthersKept(w, after, n, k) && RowsKept(w.db, after.db, k) && j in w.db.attempts && j != k
    ensures j in after.db.attempts && LocalAt(after, j) == LocalAt(w, j)
  {
  }

  lemma OneKeyKeepsWorld(w: World, after: World, n: Name, k: Key)
    requires WorldInv(w) && OthersKept(w, after, n, k) && RowsKept(w.db, after.db, k)
    requires RunsInv(after.db) && AgentsInv(after) && NumbersInv(after)
    requires k in after.db.attempts && KeyInv(LocalAt(after, k))
    requires Knows(AgentAt(after, n), k) ==> OwnerOf(after.db, k) == n
    ensures WorldInv(after)
  {
    hide RunsInv, AgentInv, KeyInv, LocalAt;
    forall j | j in after.db.attempts ensures KeyInv(LocalAt(after, j)) {
      if j != k {
        OtherLocalsKept(w, after, n, k, j);
      }
    }
    forall m, j | m in after.agents && Knows(after.agents[m], j)
      ensures j in after.db.attempts && OwnerOf(after.db, j) == m
    {
      if j != k || m != n {
        assert Knows(w.agents[m], j);
      }
    }
  }

  // The server

  lemma OwnersGrow(db: Db, after: Db, k: Key)
    requires RunsInv(db) && RunsGrow(db, after) && k in db.attempts
    ensures OwnerOf(after, k) == OwnerOf(db, k)
  {
    assert KeyOk(db, k);
  }

  lemma ServerTxnKeepsRows(db: Db, txn: Txn, calendar: Calendar)
    requires RunsInv(db) && WellPosed(db, txn)
    requires txn.ManualTxn? || txn.CancelTxn? || txn.TickTxn? || txn.ApplyTxn?
    ensures RunsInv(Commit(db, txn, calendar)) && RunsGrow(db, Commit(db, txn, calendar))
    ensures Commit(db, txn, calendar).attempts == db.attempts
  {
    hide RunsInv, AfterManual, AfterCancelRequest, AfterTick, AfterApply, ValidBundle, RunsGrow;
    CommitKeepsRuns(db, txn, calendar);
    match txn
    case ManualTxn(m, request, prior, newId, now) => ManualGrows(db, m, request, prior, newId, now);
    case CancelTxn(id, now) => CancelRequestGrows(db, id, now, calendar);
    case TickTxn(now) => TickGrows(db, now, calendar);
    case ApplyTxn(bundle, base, now) => ApplyGrows(db, bundle, base, now, calendar);
  }

  lemma ServerActsKeepsWorld(w: World, txn: Txn, calendar: Calendar)
    requires WorldInv(w) && WellPosed(w.db, txn)
    requires txn.ManualTxn? || txn.CancelTxn? || txn.TickTxn? || txn.ApplyTxn?
    ensures WorldInv(w.(db := Commit(w.db, txn, calendar)))
  {
    hide RunsInv, AgentInv, KeyInv, Commit, RunsGrow, WellPosed;
    ServerTxnKeepsRows(w.db, txn, calendar);
    var after := w.(db := Commit(w.db, txn, calendar));
    forall k | k in w.db.attempts ensures OwnerOf(after.db, k) == OwnerOf(w.db, k) {
      OwnersGrow(w.db, after.db, k);
    }
    forall k | k in after.db.attempts ensures KeyInv(LocalAt(after, k)) {
      assert LocalAt(after, k) == LocalAt(w, k);
    }
  }

  /** What a poll that answers does to the attempt it names, and to no other. */
  predicate Answers(db: Db, after: Db, node: Name, action: PollAction) {
    var k, spec := action.key, action.spec;
    match action
    case CancelAttempt(_, _) => after == db && k in db.attempts && OwnerOf(db, k) == node && spec == db.attempts[k].spec
    case StartAttempt(_, _, _) =>
      && k in after.attempts && OwnerOf(after, k) == node && spec == after.attempts[k].spec
      && after.attempts[k].state.Queued? && after.attempts[k].lastSequence == 0
      && after.attempts == db.attempts[k := after.attempts[k]]
      && (k in db.attempts ==> db.attempts[k] == after.attempts[k].(dispatches := db.attempts[k].dispatches,
                                                                   lastDispatchAt := db.attempts[k].lastDispatchAt))
  }

  lemma DispatchAnswers(original: Db, db: Db, node: Name, id: RunId, no: nat, atomicReady: bool, now: int)
    requires id in db.runs && db.runs[id].owner == node && original.attempts == db.attempts
    ensures var result := Dispatch(original, db, id, no, atomicReady, now);
            if result.action.None? then result.db == original
            else Answers(original, result.db, node, result.action.value)
  {
  }

  /** A row that has not reported yet has reported nothing. */
  ghost predicate QueuedIsSilent(db: Db) {
    forall k :: k in db.attempts && db.attempts[k].state.Queued? ==> db.attempts[k].lastSequence == 0
  }

  lemma SoundRowsAreSilent(w: World)
    requires KeysInv(w)
    ensures QueuedIsSilent(w.db)
  {
    hide LocalOf, InProgress, OutcomeKnown, Unheard;
    forall k | k in w.db.attempts && w.db.attempts[k].state.Queued? ensures w.db.attempts[k].lastSequence == 0 {
      var n := OwnerOf(w.db, k);
      LocalParts(n, w.db.attempts[k], AgentAt(w, n), k, ChannelOf(w, k));
      assert KeyInv(LocalAt(w, k));
    }
  }

  lemma PollAnswers(db: Db, node: Name, now: int, capacity: bool, atomicReady: bool, choice: PollChoice)
    requires QueuedIsSilent(db) && PollPicks(db, node, now, capacity, choice)
    ensures var result := Poll(db, node, now, capacity, atomicReady, choice);
            if result.action.None? then result.db == db else Answers(db, result.db, node, result.action.value)
  {
    hide Dispatch, Answers, AnyCancel, AnyRedelivery, AnyManual, AnyRetry, AnyScheduled;
    match choice
    case DeliverCancel(k) => RowsAnswer(db, node, k, CancelAttempt(k, db.attempts[k].spec));
    case Redeliver(k) => RedeliveryAnswers(db, node, k, now);
    case StartManual(id) => DispatchAnswers(db, db, node, id, 1, atomicReady, now);
    case StartRetry(id) => DispatchAnswers(db, db, node, id, db.runs[id].attemptCount + 1, atomicReady, now);
    case StartScheduled(m, id) =>
      DispatchAnswers(db, Materialize(db, m, id, now), node, id, 1, atomicReady, now);
    case _ =>
  }

  lemma RowsAnswer(db: Db, node: Name, k: Key, action: PollAction)
    requires CancelCandidate(db, node, k) && action == CancelAttempt(k, db.attempts[k].spec)
    ensures Answers(db, db, node, action)
  {
  }

  lemma RedeliveryAnswers(db: Db, node: Name, k: Key, now: int)
    requires RedeliveryCandidate(db, node, k) && db.attempts[k].lastSequence == 0
    ensures var a := db.attempts[k];
            var after := db.(attempts := db.attempts[k := a.(dispatches := a.dispatches + 1, lastDispatchAt := now)]);
            Answers(db, after, node, StartAttempt(k, db.runs[k.run].mirror, a.spec))
  {
  }

  /** The parts of an attempt's local view, and what a new row and channel make of it. */
  lemma LocalParts(n: Name, row: Attempt, a: Agent, k: Key, c: Channel)
    ensures var l := LocalOf(n, row, a, k, c);
            && l.owner == n && l.row == row && l.channel == c
            && l.record == RecordIn(a, k) && l.memory == MemoryIn(a, k)
            && l.live == Undecided(a, k) && l.starting == InStage(a, k, Starting)
    ensures forall r, d :: LocalOf(n, r, a, k, d) == LocalOf(n, row, a, k, c).(row := r, channel := d)
  {
  }

  lemma AnsweredKnown(w: World, after: World, node: Name, action: PollAction, withIdentity: bool)
    requires WorldInv(w) && Answers(w.db, after.db, node, action) && action.key in w.db.attempts
    requires after.agents == w.agents && after.channels == Posted(w, node, Some(action), withIdentity)
    requires RowsKept(w.db, after.db, action.key)
    ensures action.key in after.db.attempts && KeyInv(LocalAt(after, action.key))
  {
    hide RunsInv, AgentInv, KeyInv, LocalOf;
    var k := action.key;
    var row := after.db.attempts[k];
    var starts := match action
      case StartAttempt(_, mirror, spec) => multiset{StartMessage(node, spec, Identity(withIdentity, mirror))}
      case _ => multiset{};
    var cancels := match action case CancelAttempt(_, spec) => {CancelMessage(node, spec)} case _ => {};
    var l := LocalAt(w, k);
    assert KeyInv(l);
    LocalParts(OwnerOf(w.db, k), w.db.attempts[k], AgentAt(w, OwnerOf(w.db, k)), k, ChannelOf(w, k));
    PollKeepsKey(l, row, starts, cancels);
    assert ChannelOf(after, k) ==
      l.channel.(starts := l.channel.starts + starts, cancels := l.channel.cancels + cancels);
  }

  lemma AnsweredNew(w: World, after: World, node: Name, action: PollAction, withIdentity: bool)
    requires WorldInv(w) && Answers(w.db, after.db, node, action) && action.key !in w.db.attempts
    requires after.agents == w.agents && after.channels == Posted(w, node, Some(action), withIdentity)
    ensures action.key in after.db.attempts && KeyInv(LocalAt(after, action.key))
  {
    hide RunsInv, AgentInv, KeyInv, LocalOf;
    var k := action.key;
    var row := after.db.attempts[k];
    var start := StartMessage(node, action.spec, Identity(withIdentity, action.mirror));
    NewRowKeepsKey(node, row, start);
    NewKeyIsQuiet(w, node, k);
    LocalParts(node, row, AgentAt(w, node), k, QUIET);
    assert QUIET.starts + multiset{start} == multiset{start};
    assert ChannelOf(after, k) == QUIET.(starts := multiset{start});
  }

  /** Nothing anywhere knows of an attempt the server has not created. */
  lemma NewKeyIsQuiet(w: World, n: Name, k: Key)
    requires WorldInv(w) && k !in w.db.attempts
    ensures ChannelOf(w, k) == QUIET
    ensures forall row, c :: LocalOf(n, row, AgentAt(w, n), k, c) == Local(n, row, None, false, false, None, c)
  {
    hide RunsInv, KeyInv, AgentInv;
    assert !Knows(AgentAt(w, n), k);
  }

  lemma AgentPollsKeepsWorld(
    w: World, node: Name, now: int, capacity: bool, atomicReady: bool, choice: PollChoice, withIdentity: bool)
    requires WorldInv(w) && node in w.agents && PollPicks(w.db, node, now, capacity, choice)
    ensures var result := Poll(w.db, node, now, capacity, atomicReady, choice);
            WorldInv(w.(db := result.db, channels := Posted(w, node, result.action, withIdentity)))
  {
    hide RunsInv, AgentInv, KeyInv, Poll, PollPicks, RunsGrow, AttemptsGrow, Answers, LocalAt, OthersKept, RowsKept,
         QueuedIsSilent;
    var result := Poll(w.db, node, now, capacity, atomicReady, choice);
    var after := w.(db := result.db, channels := Posted(w, node, result.action, withIdentity));
    PollKeepsRuns(w.db, node, now, capacity, atomicReady, choice);
    PollGrows(w.db, node, now, capacity, atomicReady, choice);
    SoundRowsAreSilent(w);
    PollAnswers(w.db, node, now, capacity, atomicReady, choice);
    if result.action.Some? {
      var action := result.action.value;
      AnsweredRows(w.db, result.db, node, action);
      if action.key in w.db.attempts {
        AnsweredKnown(w, after, node, action, withIdentity);
      } else {
        AnsweredNew(w, after, node, action, withIdentity);
      }
      OnlyThatChannel(w, after, node, action.key);
      PollLeavesRecord(w, after, node, action.key);
      OneKeyKeepsWorld(w, after, node, action.key);
    }
  }

  lemma OnlyThatChannel(w: World, after: World, n: Name, k: Key)
    requires after.agents == w.agents
    requires after.channels == w.channels || after.channels == w.channels[k := ChannelOf(after, k)]
    ensures OthersKept(w, after, n, k)
  {
  }

  lemma PollLeavesRecord(w: World, after: World, node: Name, k: Key)
    requires Owned(w) && after.agents == w.agents && k in after.db.attempts
    requires RowsKept(w.db, after.db, k)
    ensures Knows(AgentAt(after, node), k) ==> OwnerOf(after.db, k) == node
  {
  }

  lemma AnsweredRows(db: Db, after: Db, node: Name, action: PollAction)
    requires RunsInv(db) && RunsGrow(db, after) && Answers(db, after, node, action)
    ensures RowsKept(db, after, action.key)
  {
    hide RunsInv, RunsGrow;
    forall j | j in db.attempts ensures OwnerOf(after, j) == OwnerOf(db, j) {
      OwnersGrow(db, after, j);
    }
  }

  lemma AppliedRows(db: Db, k: Key, event: AttemptEvent, now: int, calendar: Calendar)
    requires RunsInv(db) && EventResult(db, k, event, now).Applied?
    ensures var after := AfterEvent(db, k, event, now, calendar);
            && k in db.attempts && k in after.attempts
            && after.attempts[k] == db.attempts[k].(state := event.state, lastSequence := event.sequence)
            && RowsKept(db, after, k)
  {
    hide RunsInv, AfterEvent, RunsGrow, AttemptsGrow;
    AppliedEventRows(db, k, event, now, calendar);
    EventGrows(db, k, event, now, calendar);
    var after := AfterEvent(db, k, event, now, calendar);
    forall j | j in db.attempts ensures OwnerOf(after, j) == OwnerOf(db, j) {
      OwnersGrow(db, after, j);
    }
  }

  lemma EventArrivesKeepsWorld(w: World, k: Key, event: AttemptEvent, now: int, calendar: Calendar)
    requires WorldInv(w) && k in w.channels && event in w.channels[k].sent
    ensures WorldInv(w.(db := AfterEvent(w.db, k, event, now, calendar)))
  {
    hide RunsInv, AgentInv, KeyInv, LocalAt, AfterEvent, EventResult, RowsKept, OthersKept, RepeatsOldOutcome;
    ArrivingEvent(w, k, event, now);
    EventKeepsRuns(w.db, k, event, now, calendar);
    if EventResult(w.db, k, event, now).Applied? {
      var after := w.(db := AfterEvent(w.db, k, event, now, calendar));
      var l := LocalAt(w, k);
      AppliedRows(w.db, k, event, now, calendar);
      EventKeepsKey(l, event, after.db.attempts[k]);
      EventedLocal(w, after, k);
      OnlyThatChannel(w, after, l.owner, k);
      PollLeavesRecord(w, after, l.owner, k);
      OneKeyKeepsWorld(w, after, l.owner, k);
    } else {
      UnappliedEventChangesNothing(w.db, k, event, now, calendar);
    }
  }

  lemma EventedLocal(w: World, after: World, k: Key)
    requires k in w.db.attempts && k in after.db.attempts && after.agents == w.agents && after.channels == w.channels
    requires RowsKept(w.db, after.db, k)
    ensures LocalAt(after, k) == LocalAt(w, k).(row := after.db.attempts[k])
    ensures LocalAt(w, k).row == w.db.attempts[k] && LocalAt(w, k).owner == OwnerOf(w.db, k)
  {
  }

  /** What the server makes of an event in flight. */
  lemma ArrivingEvent(w: World, k: Key, event: AttemptEvent, now: int)
    requires WorldInv(w) && k in w.channels && event in w.channels[k].sent
    ensures k in w.db.attempts && KeyInv(LocalAt(w, k)) && event in LocalAt(w, k).channel.sent
    ensures LocalAt(w, k).row == w.db.attempts[k]
    ensures !RepeatsOldOutcome(w.db, k, event, now)
    ensures EventResult(w.db, k, event, now).Applied? ==>
      event.sequence > w.db.attempts[k].lastSequence && !event.state.Rejected?
    ensures EventResult(w.db, k, event, now).Illegal? <==>
      event.sequence > w.db.attempts[k].lastSequence && event.state.Rejected?
    ensures !EventResult(w.db, k, event, now).Missing?
  {
    hide RunsInv, AgentInv, KeyInv, DecideRetry, RetryContextOf;
    var l := LocalAt(w, k);
    assert KeyInv(l);
    EventFindsItsRow(w.db, k);
    if event.sequence > l.row.lastSequence {
      EventIsLegal(l, event);
    }
  }

  lemma EventFindsItsRow(db: Db, k: Key)
    requires RunsInv(db) && k in db.attempts
    ensures EventResolves(db, k)
  {
    assert KeyOk(db, k) && RunOk(db, k.run);
    assert MirrorOk(db.mirrors, db.generations, db.runs[k.run].mirror);
  }

  // The agents

  lemma TouchKeepsWorld(w: World, n: Name, agent: Agent, k: Key, c: Channel)
    requires WorldInv(w) && n in w.agents && k in w.db.attempts && OwnerOf(w.db, k) == n
    requires AgentKeptBut(w.agents[n], agent, k) && AgentInv(agent) && Numbered(agent)
    requires KeyInv(LocalOf(n, w.db.attempts[k], agent, k, c))
    ensures WorldInv(Touched(w, n, agent, k, c))
  {
    hide RunsInv, AgentInv, KeyInv, AgentKeptBut, LocalOf, KeysInv, Owned;
    var after := Touched(w, n, agent, k, c);
    assert OwnerOf(after.db, k) == n && AgentAt(after, n) == agent && ChannelOf(after, k) == c;
    OneKeyKeepsWorld(w, after, n, k);
  }

  lemma KnownKey(w: World, n: Name, k: Key)
    requires WorldInv(w) && n in w.agents && Knows(w.agents[n], k)
    ensures k in w.db.attempts && OwnerOf(w.db, k) == n && KeyInv(LocalAt(w, k)) && AgentInv(w.agents[n])
    ensures LocalAt(w, k) == LocalOf(n, w.db.attempts[k], w.agents[n], k, ChannelOf(w, k))
  {
    hide RunsInv, KeyInv, AgentInv;
  }

  lemma MessageKey(w: World, k: Key)
    requires WorldInv(w) && k in w.channels
    ensures k in w.db.attempts && KeyInv(LocalAt(w, k)) && LocalAt(w, k).channel == w.channels[k]
    ensures forall m :: m in w.channels[k].starts ==> m.node == OwnerOf(w.db, k)
    ensures forall m :: m in w.channels[k].cancels ==> m.node == OwnerOf(w.db, k)
    ensures LocalAt(w, k) ==
      LocalOf(OwnerOf(w.db, k), w.db.attempts[k], AgentAt(w, OwnerOf(w.db, k)), k, w.channels[k])
  {
    hide RunsInv, AgentInv;
    assert KeyInv(LocalAt(w, k));
  }

  /** Writing down what is already known of an attempt changes nothing. */
  lemma NothingNew(n: Name, row: Attempt, a: Agent, k: Key, c: Channel)
    requires KeyInv(LocalOf(n, row, a, k, c))
    ensures Noted(c, a, k) == c
  {
    hide OutcomeKnown, Unheard, InProgress;
    var l := LocalOf(n, row, a, k, c);
    if k in a.spool {
      assert Entry(a.spool[k]) in c.durable;
      assert c.durable + {Entry(a.spool[k])} == c.durable;
    }
    if l.memory.Some? && Entry(l.memory.value) !in c.durable {
      assert c.lost + {Entry(l.memory.value)} == c.lost;
    }
  }

  lemma StartArrivesKeepsWorld(w: World, k: Key, start: StartMessage, admission: Admission)
    requires WorldInv(w) && k in w.channels && start in w.channels[k].starts && start.node in w.agents
    ensures var agent := AfterAccept(w.agents[start.node], k, start.spec, start.identity, admission);
            var c := w.channels[k];
            WorldInv(Touched(w, start.node, agent, k, Noted(c.(starts := c.starts - multiset{start}), agent, k)))
  {
    hide RunsInv, AgentInv, KeyInv, AfterAccept, OwnerOf, LocalAt, LocalOf, Noted, AgentKeptBut;
    var n := start.node;
    var a := w.agents[n];
    var agent := AfterAccept(a, k, start.spec, start.identity, admission);
    var c := w.channels[k];
    MessageKey(w, k);
    AcceptTouches(a, k, start.spec, start.identity, admission);
    AcceptKeepsInv(a, k, start.spec, start.identity, admission);
    ArrivalKeepsNumbered(a, AcceptStep(k, start.spec, start.identity, admission));
    if k in a.spool {
      StartOfKnown(n, w.db.attempts[k], a, k, c, start);
    } else {
      StartOfUnknown(n, w.db.attempts[k], a, k, c, start, admission);
    }
    TouchKeepsWorld(w, n, agent, k, Noted(c.(starts := c.starts - multiset{start}), agent, k));
  }

  lemma AcceptTouches(a: Agent, k: Key, spec: Spec, identity: Option<Name>, admission: Admission)
    ensures AgentKeptBut(a, AfterAccept(a, k, spec, identity, admission), k)
    ensures k in a.spool ==> AfterAccept(a, k, spec, identity, admission) == a
  {
    hide AdmissionRefuses;
  }

  lemma StartOfKnown(n: Name, row: Attempt, a: Agent, k: Key, c: Channel, start: StartMessage)
    requires KeyInv(LocalOf(n, row, a, k, c))
    ensures KeyInv(LocalOf(n, row, a, k, Noted(c.(starts := c.starts - multiset{start}), a, k)))
  {
    hide KeyInv;
    var consumed := c.(starts := c.starts - multiset{start});
    ConsumeKeepsKey(LocalOf(n, row, a, k, c), start);
    NothingNew(n, row, a, k, consumed);
  }

  lemma StartOfUnknown(
    n: Name, row: Attempt, a: Agent, k: Key, c: Channel, start: StartMessage, admission: Admission)
    requires KeyInv(LocalOf(n, row, a, k, c)) && k !in a.spool && start in c.starts
    requires AgentInv(a)
    ensures var agent := AfterAccept(a, k, start.spec, start.identity, admission);
            KeyInv(LocalOf(n, row, agent, k, Noted(c.(starts := c.starts - multiset{start}), agent, k)))
  {
    hide AgentInv, KeyInv, AdmissionRefuses, RejectedRecord, AcceptedRecord, Noted, AfterAccept, LocalOf;
    var l := LocalOf(n, row, a, k, c);
    var agent := AfterAccept(a, k, start.spec, start.identity, admission);
    var consumed := c.(starts := c.starts - multiset{start});
    if agent == a {
      StartOfKnown(n, row, a, k, c, start);
    } else {
      NewcomerIsUntasked(a, k, start.spec, start.identity, admission);
      LocalParts(n, row, a, k, c);
      AcceptKeepsKey(l, start, agent.spool[k], Undecided(agent, k));
      AdvancedLocal(l, n, row, a, agent, k, c, consumed, c.launches);
      assert consumed.(launches := c.launches) == consumed;
    }
  }

  lemma NewcomerIsUntasked(a: Agent, k: Key, spec: Spec, identity: Option<Name>, admission: Admission)
    requires k !in a.spool
    ensures var agent := AfterAccept(a, k, spec, identity, admission);
            agent != a ==>
              && k in agent.spool && k !in a.tasks
              && (|| agent.spool[k] == AcceptedRecord(spec, identity)
                  || (agent.spool[k] == RejectedRecord(spec, identity) && !Undecided(agent, k)))
              && MemoryIn(agent, k).None? && (InStage(agent, k, Starting) <==> Undecided(agent, k))
  {
    hide AdmissionRefuses, AcceptedRecord, RejectedRecord;
  }

  /** An agent's step at one attempt, as the protocol sees it. */
  lemma AdvancedLocal(
    l: Local, n: Name, row: Attempt, a: Agent, agent: Agent, k: Key, c: Channel, next: Channel, launches: nat)
    requires l == LocalOf(n, row, a, k, c) && k in agent.spool
    ensures LocalOf(n, row, agent, k, Noted(next.(launches := launches), agent, k)) ==
            Advanced(l.(channel := next), agent.spool[k], Undecided(agent, k), InStage(agent, k, Starting),
                     MemoryIn(agent, k), launches)
  {
  }

  lemma CancelArrivesKeepsWorld(w: World, k: Key, cancel: CancelMessage, written: WriteResult)
    requires WorldInv(w) && k in w.channels && cancel in w.channels[k].cancels && cancel.node in w.agents
    ensures var a := w.agents[cancel.node];
            var agent := AfterCancel(a, k, cancel.spec, written);
            var first := k !in a.spool && k in agent.spool;
            var c := w.channels[k];
            WorldInv(Touched(w, cancel.node, agent, k, Noted(c.(tombstoned := c.tombstoned || first), agent, k)))
  {
    hide RunsInv, AgentInv, KeyInv, OwnerOf, LocalAt, LocalOf, AfterCancel, Noted, AgentKeptBut;
    var n := cancel.node;
    var a := w.agents[n];
    var agent := AfterCancel(a, k, cancel.spec, written);
    var c := w.channels[k];
    MessageKey(w, k);
    CancelTouches(a, k, cancel.spec, written);
    CancelKeepsInv(a, k, cancel.spec, written);
    ArrivalKeepsNumbered(a, CancelStep(k, cancel.spec, written));
    var first := k !in a.spool && k in agent.spool;
    if k in a.spool {
      CancelOfKnown(n, w.db.attempts[k], a, k, c, cancel.spec, written);
    } else if first {
      CancelOfUnknown(n, w.db.attempts[k], a, k, c, cancel, written);
    } else {
      NothingNew(n, w.db.attempts[k], a, k, c);
    }
    TouchKeepsWorld(w, n, agent, k, Noted(c.(tombstoned := c.tombstoned || first), agent, k));
  }

  lemma CancelTouches(a: Agent, k: Key, spec: Spec, written: WriteResult)
    ensures AgentKeptBut(a, AfterCancel(a, k, spec, written), k) && AfterCancel(a, k, spec, written).tasks == a.tasks
    ensures k in a.spool ==> k in AfterCancel(a, k, spec, written).spool
    ensures k !in a.spool && k !in AfterCancel(a, k, spec, written).spool ==> AfterCancel(a, k, spec, written) == a
  {
  }

  lemma CancelOfKnown(n: Name, row: Attempt, a: Agent, k: Key, c: Channel, spec: Spec, written: WriteResult)
    requires KeyInv(LocalOf(n, row, a, k, c)) && k in a.spool && AgentInv(a)
    ensures var agent := AfterCancel(a, k, spec, written);
            k in agent.spool && KeyInv(LocalOf(n, row, agent, k, Noted(c, agent, k)))
  {
    hide AgentInv, KeyInv, RecordAdvances;
    var l := LocalOf(n, row, a, k, c);
    var agent := AfterCancel(a, k, spec, written);
    var r := agent.spool[k];
    if r.state.IsTerminal() {
      EndedIsDecided(a, k);
    }
    ShapeOf(l);
    FlagAdvances(a.spool[k], r, row.lastSequence, l.live);
    LiveHasNoMemory(a, k);
    AdvanceKeepsKey(l, r, l.live, l.starting, l.memory, c.launches);
    AdvancedLocal(l, n, row, a, agent, k, c, c, c.launches);
  }

  lemma LiveHasNoMemory(a: Agent, k: Key)
    ensures Undecided(a, k) ==> MemoryIn(a, k).None?
    ensures InStage(a, k, Starting) ==> Undecided(a, k)
  {
  }

  lemma FlagAdvances(r: SpoolRecord, after: SpoolRecord, last: nat, live: bool)
    requires RecordShape(r) && r.acknowledged <= last && (after == r || after == r.(cancelRequested := true))
    ensures RecordAdvances(r, after, last, live)
  {
  }

  lemma CancelOfUnknown(
    n: Name, row: Attempt, a: Agent, k: Key, c: Channel, cancel: CancelMessage, written: WriteResult)
    requires KeyInv(LocalOf(n, row, a, k, c)) && cancel in c.cancels && AgentInv(a)
    requires k !in a.spool && k in AfterCancel(a, k, cancel.spec, written).spool
    ensures var agent := AfterCancel(a, k, cancel.spec, written);
            KeyInv(LocalOf(n, row, agent, k, Noted(c.(tombstoned := true), agent, k)))
  {
    hide KeyInv, CancellationTombstone, Advanced;
    var l := LocalOf(n, row, a, k, c);
    var agent := AfterCancel(a, k, cancel.spec, written);
    assert !Undecided(a, k);
    LiveHasNoMemory(a, k);
    TombstoneKeepsKey(l, cancel);
    AdvancedLocal(l, n, row, a, agent, k, c, c.(tombstoned := true), c.launches);
  }

  lemma EventSentKeepsWorld(w: World, n: Name, k: Key, event: AttemptEvent)
    requires WorldInv(w) && n in w.agents && MayReport(w.agents[n], k, event)
    ensures var c := ChannelOf(w, k);
            WorldInv(Touched(w, n, w.agents[n], k, c.(sent := c.sent + {event})))
  {
    hide RunsInv, AgentInv, KeyInv, OwnerOf, LocalAt, EventToSend, AgentsInv;
    KnownKey(w, n, k);
    var c := ChannelOf(w, k);
    SendKeepsKey(LocalAt(w, k), event);
    TouchKeepsWorld(w, n, w.agents[n], k, c.(sent := c.sent + {event}));
  }

  /** A step that leaves the attempt with a record: not one that drops a task, stops them all or removes a record. */
  predicate Advances(step: AgentStep) {
    || step.SyncStep? || step.SpawnStep? || step.LaunchFailsStep? || step.FinishStep?
    || step.CommitStep? || step.PersistStep? || step.PublishStep? || step.NormalizeStep?
    || step.RecoverStep? || step.LogStep? || step.AbandonStep? || step.AcknowledgeStep?
  }

  /** The premises of `AdvanceKeepsKey`, for an agent and what it became. */
  predicate AgentAdvances(a: Agent, agent: Agent, k: Key, last: nat) {
    && k in a.spool && k in agent.spool && RecordAdvances(a.spool[k], agent.spool[k], last, Undecided(a, k))
    && (Undecided(agent, k) ==> Undecided(a, k) && !agent.spool[k].state.IsTerminal())
    && (InStage(agent, k, Starting) ==> InStage(a, k, Starting))
    && var memory := MemoryIn(agent, k);
       memory.None? || memory == MemoryIn(a, k) || MemoryAgrees(memory.value, agent.spool[k], last)
  }

  /** What the record on disk must be for the protocol of its attempt. */
  predicate OnDisk(a: Agent, k: Key, last: nat) {
    k in a.spool ==> RecordShape(a.spool[k]) && a.spool[k].acknowledged <= last
  }

  /** What a live task holds in memory, and how that stands to the record on disk. */
  lemma LiveTask(a: Agent, k: Key, last: nat)
    requires AgentInv(a) && Live(a, k) && OnDisk(a, k, last)
    ensures k in a.spool && !a.spool[k].state.IsTerminal() && a.spool[k].sequence <= Merged(a, k).sequence
    ensures var m := Merged(a, k);
            && m.spec == a.spool[k].spec && m.acknowledged <= last && RecordShape(m)
            && m.sequence == (if InStage(a, k, Launched) then 2 else 1)
            && m.state == if InStage(a, k, Launched) then Running else Accepted
  {
    assert TaskOk(a.tasks[k], a.spool[k]);
  }

  lemma EndAdvances(a: Agent, k: Key, ended: SpoolRecord, written: WriteResult, last: nat)
    requires AgentInv(a) && Live(a, k) && OnDisk(a, k, last)
    requires ended == Merged(a, k).Terminal(ended.state, ended.failure)
    requires ended.state.IsTerminal() && !ended.state.Rejected?
    requires EndsUnder(AfterTask(a, k, ended, written), k, Number(Merged(a, k)))
    ensures AgentAdvances(a, AfterTask(a, k, ended, written), k, last)
  {
    hide AgentInv;
    LiveTask(a, k, last);
  }

  /** What a publishing task holds in memory, and how that stands to the record on disk. */
  lemma PublishingTask(a: Agent, k: Key, last: nat)
    requires AgentInv(a) && Numbered(a) && InStage(a, k, Publishing) && OnDisk(a, k, last)
    ensures k in a.spool && (a.spool[k].state.Accepted? || Number(a.spool[k]) == 3) && !a.spool[k].state.Rejected?
    ensures var m := a.tasks[k].memory;
            && m.spec == a.spool[k].spec && m.acknowledged <= last && m.state.Running? && m.sequence == 2
            && Number(Merged(a, k)) == 3
  {
    assert PublishingOk(a.tasks[k].memory, a.spool[k]);
  }

  lemma CommitAdvances(a: Agent, k: Key, outcome: Outcome, last: nat)
    requires AgentInv(a) && Enabled(a, CommitStep(k, outcome)) && OnDisk(a, k, last)
    ensures AgentAdvances(a, After(a, CommitStep(k, outcome)), k, last)
  {
    hide AgentInv;
    LiveTask(a, k, last);
  }

  lemma PersistAdvances(a: Agent, k: Key, record: SpoolRecord, last: nat)
    requires AgentInv(a) && Numbered(a) && Enabled(a, PersistStep(k, record)) && OnDisk(a, k, last)
    requires EndsUnder(After(a, PersistStep(k, record)), k, Number(Merged(a, k)))
    ensures AgentAdvances(a, After(a, PersistStep(k, record)), k, last)
  {
    hide AgentInv, Numbered;
    PublishingTask(a, k, last);
  }

  lemma PublishAdvances(a: Agent, k: Key, ended: SpoolRecord, last: nat)
    requires AgentInv(a) && Numbered(a) && Enabled(a, PublishStep(k, ended)) && OnDisk(a, k, last)
    requires EndsUnder(After(a, PublishStep(k, ended)), k, Number(Merged(a, k)))
    ensures AgentAdvances(a, After(a, PublishStep(k, ended)), k, last)
  {
    hide AgentInv, Numbered;
    PublishingTask(a, k, last);
  }

  lemma StartingAdvances(a: Agent, step: AgentStep, last: nat)
    requires step.SyncStep? || step.SpawnStep?
    requires AgentInv(a) && Enabled(a, step) && OnDisk(a, step.key, last)
    ensures AgentAdvances(a, After(a, step), step.key, last)
    ensures step.SpawnStep? ==> InStage(a, step.key, Starting) && !InStage(After(a, step), step.key, Starting)
  {
    hide AgentInv;
    LiveTask(a, step.key, last);
  }

  lemma NormalizeAdvances(a: Agent, k: Key, written: WriteResult, last: nat)
    requires AgentInv(a) && Enabled(a, NormalizeStep(k, written))
    requires RecordShape(a.spool[k]) && a.spool[k].acknowledged <= last
    ensures AgentAdvances(a, After(a, NormalizeStep(k, written)), k, last)
  {
    hide AgentInv;
  }

  lemma RecordIsOk(a: Agent, k: Key)
    requires AgentInv(a) && k in a.spool
    ensures RecordOk(a.spool[k])
  {
  }

  lemma MergeAdvances(a: Agent, step: AgentStep, last: nat)
    requires step.LogStep? || step.AcknowledgeStep?
    requires AgentInv(a) && Enabled(a, step)
    requires RecordShape(a.spool[step.key]) && a.spool[step.key].acknowledged <= last
    requires step.AcknowledgeStep? ==> step.sequence <= last
    ensures AgentAdvances(a, After(a, step), step.key, last)
  {
    hide AgentInv;
    if a.spool[step.key].state.IsTerminal() {
      EndedIsDecided(a, step.key);
    }
  }

  lemma IdleAdvances(a: Agent, step: AgentStep, last: nat)
    requires step.RecoverStep? || step.AbandonStep?
    requires AgentInv(a) && Enabled(a, step)
    requires RecordShape(a.spool[step.key]) && a.spool[step.key].acknowledged <= last
    ensures AgentAdvances(a, After(a, step), step.key, last)
  {
    hide AgentInv;
    RecordIsOk(a, step.key);
  }

  lemma ActionAdvances(a: Agent, step: AgentStep, last: nat)
    requires Advances(step) && AgentInv(a) && Numbered(a) && Enabled(a, step) && KeepsOneNumber(a, step)
    requires OnDisk(a, step.key, last) && (step.AcknowledgeStep? ==> step.sequence <= last)
    ensures AgentAdvances(a, After(a, step), step.key, last)
    ensures step.SpawnStep? ==> InStage(a, step.key, Starting) && !InStage(After(a, step), step.key, Starting)
  {
    hide AgentInv, AgentAdvances, Numbered, EndsUnder;
    match step
    case SyncStep(_) => StartingAdvances(a, step, last);
    case SpawnStep(_, _) => StartingAdvances(a, step, last);
    case LaunchFailsStep(k, kind, written) => EndAdvances(a, k, LaunchFailure(Merged(a, k), kind), written, last);
    case FinishStep(k, outcome, written) => EndAdvances(a, k, FinalRecord(Merged(a, k), outcome), written, last);
    case CommitStep(k, outcome) => CommitAdvances(a, k, outcome, last);
    case PersistStep(k, record) => PersistAdvances(a, k, record, last);
    case PublishStep(k, ended) => PublishAdvances(a, k, ended, last);
    case NormalizeStep(k, written) => NormalizeAdvances(a, k, written, last);
    case LogStep(_, _, _) => MergeAdvances(a, step, last);
    case AcknowledgeStep(_, _) => MergeAdvances(a, step, last);
    case _ => IdleAdvances(a, step, last);
  }

  lemma StepTouches(a: Agent, step: AgentStep)
    requires Enabled(a, step) && (LocalStep(step) || step.AcknowledgeStep?)
    ensures AgentKeptBut(a, After(a, step), step.key)
  {
  }

  lemma ShapeOf(l: Local)
    requires KeyInv(l) && l.record.Some?
    ensures RecordShape(l.record.value) && l.record.value.acknowledged <= l.row.lastSequence
  {
  }

  lemma NotLaunchedYet(l: Local)
    requires KeyInv(l) && l.starting
    ensures l.channel.launches == 0 && !l.channel.tombstoned
  {
  }

  lemma AdvancedKeepsKey(n: Name, row: Attempt, a: Agent, agent: Agent, k: Key, c: Channel, spawns: bool)
    requires KeyInv(LocalOf(n, row, a, k, c)) && AgentAdvances(a, agent, k, row.lastSequence)
    requires spawns ==> InStage(a, k, Starting) && !InStage(agent, k, Starting)
    ensures KeyInv(LocalOf(n, row, agent, k, Noted(c.(launches := c.launches + if spawns then 1 else 0), agent, k)))
  {
    hide KeyInv, RecordAdvances, MemoryAgrees;
    var l := LocalOf(n, row, a, k, c);
    var launches := c.launches + if spawns then 1 else 0;
    LocalParts(n, row, a, k, c);
    LiveHasNoMemory(agent, k);
    if spawns {
      NotLaunchedYet(l);
    }
    AdvanceKeepsKey(l, agent.spool[k], Undecided(agent, k), InStage(agent, k, Starting), MemoryIn(agent, k), launches);
    AdvancedLocal(l, n, row, a, agent, k, c, c, launches);
  }

  lemma ActionKeepsWorld(w: World, n: Name, step: AgentStep)
    requires WorldInv(w) && n in w.agents && Enabled(w.agents[n], step) && Advances(step)
    requires KeepsOneNumber(w.agents[n], step)
    requires step.AcknowledgeStep? ==>
      step.key in w.db.attempts && step.sequence <= w.db.attempts[step.key].lastSequence
    ensures WorldInv(AfterAction(w, n, step))
  {
    hide RunsInv, AgentInv, KeyInv, OwnerOf, LocalAt, LocalOf, After, AgentAdvances, AgentKeptBut, KeepsOneNumber,
         Numbered, Enabled;
    var k, a := step.key, w.agents[n];
    StepIsKnown(a, step);
    KnownKey(w, n, k);
    var row, c := w.db.attempts[k], ChannelOf(w, k);
    LocalParts(n, row, a, k, c);
    if k in a.spool {
      ShapeOf(LocalAt(w, k));
    }
    StepKeepsInv(a, step);
    StepKeepsNumbered(a, step);
    StepTouches(a, step);
    ActionAdvances(a, step, row.lastSequence);
    AdvancedKeepsKey(n, row, a, After(a, step), k, c, step.SpawnStep?);
    TouchKeepsWorld(w, n, After(a, step), k,
                    Noted(c.(launches := c.launches + if step.SpawnStep? then 1 else 0), After(a, step), k));
  }

  lemma StepIsKnown(a: Agent, step: AgentStep)
    requires Enabled(a, step) && (LocalStep(step) || step.AcknowledgeStep?)
    ensures Knows(a, step.key)
  {
  }

  lemma DropKeepsWorld(w: World, n: Name, k: Key)
    requires WorldInv(w) && n in w.agents && Enabled(w.agents[n], DropStep(k))
    ensures WorldInv(AfterAction(w, n, DropStep(k)))
  {
    hide RunsInv, AgentInv, KeyInv, OwnerOf, LocalAt, AgentKeptBut;
    var a, c := w.agents[n], ChannelOf(w, k);
    var agent := After(a, DropStep(k));
    KnownKey(w, n, k);
    StepKeepsInv(a, DropStep(k));
    StepTouches(a, DropStep(k));
    DropKeepsKey(LocalAt(w, k));
    NothingNew(n, w.db.attempts[k], agent, k, c);
    TouchKeepsWorld(w, n, agent, k, c);
  }

  lemma RemovalKeepsWorld(w: World, n: Name, step: AgentStep)
    requires WorldInv(w) && n in w.agents && Enabled(w.agents[n], step)
    requires step.RetireStep? || step.ClearFenceStep?
    requires ChannelOf(w, step.key).starts == multiset{}
    ensures WorldInv(AfterAction(w, n, step))
  {
    hide RunsInv, AgentInv, KeyInv, OwnerOf, LocalAt, AgentKeptBut, OtherRecoverable;
    var k, a := step.key, w.agents[n];
    var agent, c := After(a, step), ChannelOf(w, k);
    KnownKey(w, n, k);
    if step.ClearFenceStep? {
      FenceHasEnded(a, k);
    }
    EndedIsDecided(a, k);
    StepKeepsInv(a, step);
    StepTouches(a, step);
    RetireKeepsKey(LocalAt(w, k));
    NothingNew(n, w.db.attempts[k], agent, k, c);
    TouchKeepsWorld(w, n, agent, k, c);
  }

  lemma RestartKeepsWorld(w: World, n: Name)
    requires WorldInv(w) && n in w.agents
    ensures WorldInv(w.(agents := w.agents[n := w.agents[n].(tasks := map[])]))
  {
    hide RunsInv, AgentInv, KeyInv, OwnerOf;
    var after := w.(agents := w.agents[n := w.agents[n].(tasks := map[])]);
    EmptyKeepsInv(w.agents[n]);
    forall m, k | m in after.agents && Knows(after.agents[m], k)
      ensures k in after.db.attempts && OwnerOf(after.db, k) == m
    {
      assert Knows(w.agents[m], k);
    }
    forall k | k in after.db.attempts ensures KeyInv(LocalAt(after, k)) {
      var l := LocalAt(w, k);
      assert KeyInv(l);
      StoppedKeepsKey(l);
      assert LocalAt(after, k) == l || LocalAt(after, k) == l.(live := false, starting := false, memory := None);
    }
  }

  lemma StartLostKeepsWorld(w: World, k: Key, start: StartMessage)
    requires WorldInv(w) && k in w.channels
    ensures WorldInv(w.(channels := w.channels[k := w.channels[k].(starts := w.channels[k].starts - multiset{start})]))
  {
    hide RunsInv, AgentInv, KeyInv, OwnerOf, LocalAt, OthersKept;
    var after := w.(channels := w.channels[k := w.channels[k].(starts := w.channels[k].starts - multiset{start})]);
    MessageKey(w, k);
    var l := LocalAt(w, k);
    ConsumeKeepsKey(l, start);
    LostLocal(w, after, k, start);
    OnlyThatChannel(w, after, l.owner, k);
    PollLeavesRecord(w, after, l.owner, k);
    OneKeyKeepsWorld(w, after, l.owner, k);
  }

  lemma LostLocal(w: World, after: World, k: Key, start: StartMessage)
    requires k in w.db.attempts && k in w.channels
    requires after == w.(channels := w.channels[k := w.channels[k].(starts := w.channels[k].starts - multiset{start})])
    ensures var l := LocalAt(w, k);
            LocalAt(after, k) == l.(channel := l.channel.(starts := l.channel.starts - multiset{start}))
  {
  }

  /** Every step of the whole system keeps its invariant, as long as every end of an attempt carries one number. */
  lemma StepKeepsWorld(w: World, step: WorldStep, calendar: Calendar)
    requires WorldInv(w) && CanStep(w, step) && OneNumber(w, step)
    ensures WorldInv(AfterWorld(w, step, calendar))
  {
    hide WorldInv, Commit, Poll, PollPicks, AfterAccept, AfterCancel, AfterEvent, AfterAction, WellPosed;
    hide KeepsOneNumber, MayReport;
    match step
    case ServerActs(txn) => ServerActsKeepsWorld(w, txn, calendar);
    case AgentPolls(node, now, capacity, atomicReady, choice, withIdentity) =>
      AgentPollsKeepsWorld(w, node, now, capacity, atomicReady, choice, withIdentity);
    case StartArrives(k, start, admission) => StartArrivesKeepsWorld(w, k, start, admission);
    case StartLost(k, start) => StartLostKeepsWorld(w, k, start);
    case CancelArrives(k, cancel, written) => CancelArrivesKeepsWorld(w, k, cancel, written);
    case EventSent(n, k, event) => EventSentKeepsWorld(w, n, k, event);
    case EventArrives(k, event, now) => EventArrivesKeepsWorld(w, k, event, now, calendar);
    case EventAnswered(n, k, sequence) =>
      BookkeepingHasOneNumber(w.agents[n], AcknowledgeStep(k, sequence));
      ActionKeepsWorld(w, n, AcknowledgeStep(k, sequence));
    case AgentActs(n, action) =>
      match action
      case RestartStep => RestartKeepsWorld(w, n);
      case RetireStep(_) => RemovalKeepsWorld(w, n, action);
      case ClearFenceStep(_, _, _, _) => RemovalKeepsWorld(w, n, action);
      case DropStep(k) => DropKeepsWorld(w, n, k);
      case _ => ActionKeepsWorld(w, n, action);
  }

  lemma BookkeepingHasOneNumber(a: Agent, step: AgentStep)
    requires step.AcknowledgeStep?
    ensures KeepsOneNumber(a, step)
  {
  }
}
