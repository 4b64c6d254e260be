/**
  Runs of the whole system that end where a property fails: what the exact conditions
  of the other files exclude does happen.
 */
module Witnesses {
  import opened Common
  import opened Lifecycle
  import opened Schedule
  import opened StoreModel
  import opened StoreRuns
  import opened StoreHistory
  import opened Spool
  import opened AgentModel
  import opened AgentHistories
  import opened Delivery
  import opened System
  import opened Safety
  import Namespace
  import Publication
  import Writers

  const MIRROR: Name := "mirror"
  const NODE: Name := "node"
  const DOCUMENT: Document := Document(true, None, Atomic, 3, 0, "")
  const IDLE: Agent := Agent(map[], map[])
  const FRESH: World := World(EMPTY_DB, map[NODE := IDLE], map[])

  function Attempt7(no: nat): Key {
    Key(7, no)
  }

  function Spec7(no: nat): Spec {
    Spec(Attempt7(no), MIRROR, DOCUMENT)
  }

  function Start7(no: nat): StartMessage {
    StartMessage(NODE, Spec7(no), None)
  }

  function Row7(no: nat, state: AttemptState, sequence: nat): Attempt {
    Attempt(state, sequence, Spec7(no), 1, 0)
  }

  function Run7(state: RunState, attemptCount: nat, retryDueAt: Option<int>): Run {
    Run(MIRROR, 1, NODE, Manual, state, 0, 3, 0, attemptCount, None, retryDueAt, None, Some("request"))
  }

  /** A store with one Atomic mirror of one node, and the single run 7. */
  function Tables(run: Run, attempts: map<Key, Attempt>): Db {
    Db(1, map[MIRROR := Mirror(true, true, NODE, 1)], map[GenerationKey(MIRROR, 1) := Generation(NODE, DOCUMENT)],
       map[], map[7 := run], attempts)
  }

  const CONFIGURED: Db :=
    Db(1, map[MIRROR := Mirror(true, true, NODE, 1)], map[GenerationKey(MIRROR, 1) := Generation(NODE, DOCUMENT)],
       map[], map[], map[])

  /** Steps in which a write of a record fails, whether or not it replaced the file. */
  predicate LosesWrite(step: WorldStep) {
    match step
    case StartArrives(_, _, admission) => !admission.written.Stored?
    case CancelArrives(_, _, written) => !written.Stored?
    case AgentActs(_, action) => ActionLosesWrite(action)
    case _ => false
  }

  predicate ActionLosesWrite(action: AgentStep) {
    && (action.SpawnStep? || action.LaunchFailsStep? || action.FinishStep? || action.NormalizeStep?
        || action.AbandonStep?)
    && !action.written.Stored?
  }

  /** What a run keeps to: one number for each end, no write lost. */
  datatype Manner = Manner(once: bool, written: bool)

  /** A run of the system from the fresh world. */
  ghost predicate Arrives(steps: seq<WorldStep>, w: World, manner: Manner, calendar: Calendar) {
    && Reaches(FRESH, steps, w, calendar) && (manner.once ==> EndsOnce(FRESH, steps, calendar))
    && (manner.written ==> forall step | step in steps :: !LosesWrite(step))
  }

  lemma {:induction false} ReachesThen(
    from: World, steps: seq<WorldStep>, w: World, step: WorldStep, once: bool, calendar: Calendar)
    requires Reaches(from, steps, w, calendar) && CanStep(w, step)
    requires once ==> EndsOnce(from, steps, calendar) && OneNumber(w, step)
    ensures Reaches(from, steps + [step], AfterWorld(w, step, calendar), calendar)
    ensures once ==> EndsOnce(from, steps + [step], calendar)
    decreases |steps|
  {
    hide CanStep, AfterWorld, OneNumber;
    if steps == [] {
      assert (steps + [step])[1..] == [];
    } else {
      ReachesThen(AfterWorld(from, steps[0], calendar), steps[1..], w, step, once, calendar);
      assert (steps + [step])[1..] == steps[1..] + [step];
    }
  }

  lemma Then(steps: seq<WorldStep>, w: World, step: WorldStep, manner: Manner, calendar: Calendar)
    returns (all: seq<WorldStep>, after: World)
    requires Arrives(steps, w, manner, calendar) && CanStep(w, step)
    requires (manner.once ==> OneNumber(w, step)) && (manner.written ==> !LosesWrite(step))
    ensures after == AfterWorld(w, step, calendar) && Arrives(all, after, manner, calendar)
  {
    hide CanStep, AfterWorld, Reaches, EndsOnce, OneNumber, LosesWrite;
    ReachesThen(FRESH, steps, w, step, manner.once, calendar);
    all, after := steps + [step], AfterWorld(w, step, calendar);
  }

  // Until the first start is in flight

  lemma ApplyConfigures(calendar: Calendar)
    ensures AfterApply(EMPTY_DB, map[MIRROR := BundleMirror(NODE, DOCUMENT)], 0, 0, calendar) == CONFIGURED
  {
    var bundle: Bundle := map[MIRROR := BundleMirror(NODE, DOCUMENT)];
    var plan := Plan(EMPTY_DB, bundle);
    assert PlannedChange(EMPTY_DB, bundle, MIRROR) == Some(Create);
    assert plan.Keys == {MIRROR};
    assert !Blocked(EMPTY_DB, bundle);
    var after := ApplyChanges(EMPTY_DB, bundle, plan.Keys, 0, calendar);
    assert after.mirrors == CONFIGURED.mirrors;
    assert after.generations == CONFIGURED.generations by {
      assert GenerationKey(MIRROR, 1) in after.generations;
    }
    assert after.schedules == map[] && after.runs == map[] && after.attempts == map[];
  }

  lemma ManualCreates()
    ensures AfterManual(CONFIGURED, MIRROR, "request", None, 7, 0) == Tables(Run7(Pending, 0, None), map[])
  {
    assert CurrentDocument(CONFIGURED, MIRROR) == Some(DOCUMENT) && !HasActiveRun(CONFIGURED, MIRROR);
    assert ClearIntent(CONFIGURED.schedules, MIRROR) == map[];
  }

  lemma FirstPoll()
    ensures var db := Tables(Run7(Pending, 0, None), map[]);
            && PollPicks(db, NODE, 0, true, StartManual(7))
            && Poll(db, NODE, 0, true, true, StartManual(7)) ==
               PollResult(Tables(Run7(Pending, 1, None), map[Attempt7(1) := Row7(1, Queued, 0)]),
                          Some(StartAttempt(Attempt7(1), MIRROR, Spec7(1))))
  {
  }

  const CREATED: Db := Tables(Run7(Pending, 0, None), map[])
  const DISPATCHED: Db := Tables(Run7(Pending, 1, None), map[Attempt7(1) := Row7(1, Queued, 0)])

  lemma Dispatched7(manner: Manner, calendar: Calendar) returns (steps: seq<WorldStep>, w: World)
    ensures Arrives(steps, w, manner, calendar)
    ensures w == World(DISPATCHED, map[NODE := IDLE], map[Attempt7(1) := QUIET.(starts := multiset{Start7(1)})])
  {
    hide Commit, Poll, PollPicks, WellPosed, Reaches, EndsOnce, Tables;
    steps, w := [], FRESH;
    assert Arrives(steps, w, manner, calendar) by { ReachesNowhere(calendar); }
    ApplyIsPosed(calendar);
    steps, w := Then(steps, w, ServerActs(ApplyTxn(map[MIRROR := BundleMirror(NODE, DOCUMENT)], 0, 0)), manner,
                     calendar);
    assert w == World(CONFIGURED, map[NODE := IDLE], map[]);
    ManualIsPosed(calendar);
    steps, w := Then(steps, w, ServerActs(ManualTxn(MIRROR, "request", None, 7, 0)), manner, calendar);
    assert w == World(CREATED, map[NODE := IDLE], map[]);
    FirstPoll();
    steps, w := Then(steps, w, AgentPolls(NODE, 0, true, true, StartManual(7), false), manner, calendar);
    assert w.channels == map[Attempt7(1) := QUIET.(starts := multiset{Start7(1)})] by {
      assert QUIET.starts + multiset{Start7(1)} == multiset{Start7(1)};
    }
  }

  lemma ReachesNowhere(calendar: Calendar)
    ensures Reaches(FRESH, [], FRESH, calendar) && EndsOnce(FRESH, [], calendar)
  {
  }

  lemma ApplyIsPosed(calendar: Calendar)
    ensures var txn := ApplyTxn(map[MIRROR := BundleMirror(NODE, DOCUMENT)], 0, 0);
            WellPosed(EMPTY_DB, txn) && Commit(EMPTY_DB, txn, calendar) == CONFIGURED
  {
    hide AfterApply;
    ApplyConfigures(calendar);
  }

  lemma ManualIsPosed(calendar: Calendar)
    ensures var txn := ManualTxn(MIRROR, "request", None, 7, 0);
            WellPosed(CONFIGURED, txn) && Commit(CONFIGURED, txn, calendar) == CREATED
  {
    ManualCreates();
  }

  // Steps of the one agent

  /** The world of one agent. */
  function Solo(db: Db, a: Agent, channels: map<Key, Channel>): World {
    World(db, map[NODE := a], channels)
  }

  lemma SoloAgent(db: Db, a: Agent, channels: map<Key, Channel>, after: Agent)
    ensures NODE in Solo(db, a, channels).agents && Solo(db, a, channels).agents[NODE] == a
    ensures Solo(db, a, channels).agents[NODE := after] == map[NODE := after]
  {
  }

  lemma NotedOf(c: Channel, d: Channel, a: Agent, k: Key)
    requires c.durable == d.durable && c.lost == d.lost
    ensures Noted(c, a, k).sent == c.sent && Noted(c, a, k).starts == c.starts
    ensures Noted(c, a, k).durable == Noted(d, a, k).durable && Noted(c, a, k).lost == Noted(d, a, k).lost
  {
  }

  /** A start reaches the node. */
  lemma Starts(
    steps: seq<WorldStep>, db: Db, a: Agent, channels: map<Key, Channel>, no: nat, admission: Admission, manner: Manner,
    calendar: Calendar)
    returns (all: seq<WorldStep>, next: map<Key, Channel>)
    requires Arrives(steps, Solo(db, a, channels), manner, calendar)
    requires Attempt7(no) in channels && Start7(no) in channels[Attempt7(no)].starts
    requires manner.written ==> admission.written.Stored?
    ensures Arrives(all, Solo(db, AfterAccept(a, Attempt7(no), Spec7(no), None, admission), next), manner, calendar)
    ensures SameButStarts(channels, next, Attempt7(no))
    ensures next[Attempt7(no)].durable ==
      Noted(channels[Attempt7(no)], AfterAccept(a, Attempt7(no), Spec7(no), None, admission), Attempt7(no)).durable
  {
    hide Arrives, AfterAccept, Noted, Attempt7;
    var w;
    var k := Attempt7(no);
    var agent, c := AfterAccept(a, k, Spec7(no), None, admission), channels[k];
    NotedOf(c.(starts := c.starts - multiset{Start7(no)}), c, agent, k);
    SoloAgent(db, a, channels, AfterAccept(a, k, Spec7(no), None, admission));
    all, w := Then(steps, Solo(db, a, channels), StartArrives(k, Start7(no), admission), manner, calendar);
    next := w.channels;
  }

  /** At most the starts of one attempt, and what is known of its records, changed. */
  ghost predicate SameButStarts(channels: map<Key, Channel>, next: map<Key, Channel>, k: Key) {
    && next.Keys == channels.Keys && k in next && next[k].sent == channels[k].sent
       && next[k].starts <= channels[k].starts
    && forall j :: j in channels && j != k ==> next[j] == channels[j]
  }

  lemma Sends(
    steps: seq<WorldStep>, db: Db, a: Agent, channels: map<Key, Channel>, k: Key, e: AttemptEvent, manner: Manner,
    calendar: Calendar)
    returns (all: seq<WorldStep>, next: map<Key, Channel>)
    requires Arrives(steps, Solo(db, a, channels), manner, calendar) && k in channels && MayReport(a, k, e)
    ensures Arrives(all, Solo(db, a, next), manner, calendar)
    ensures next == channels[k := channels[k].(sent := channels[k].sent + {e})]
  {
    hide Arrives, MayReport;
    var w;
    SoloAgent(db, a, channels, a);
    all, w := Then(steps, Solo(db, a, channels), EventSent(NODE, k, e), manner, calendar);
    next := w.channels;
  }

  lemma Delivers(
    steps: seq<WorldStep>, db: Db, a: Agent, channels: map<Key, Channel>, k: Key, e: AttemptEvent, manner: Manner,
    calendar: Calendar)
    returns (all: seq<WorldStep>)
    requires Arrives(steps, Solo(db, a, channels), manner, calendar) && k in channels && e in channels[k].sent
    ensures Arrives(all, Solo(AfterEvent(db, k, e, 0, calendar), a, channels), manner, calendar)
  {
    hide Arrives, AfterEvent;
    var w;
    all, w := Then(steps, Solo(db, a, channels), EventArrives(k, e, 0), manner, calendar);
  }

  lemma Restarts(
    steps: seq<WorldStep>, db: Db, a: Agent, channels: map<Key, Channel>, manner: Manner, calendar: Calendar)
    returns (all: seq<WorldStep>)
    requires Arrives(steps, Solo(db, a, channels), manner, calendar)
    ensures Arrives(all, Solo(db, a.(tasks := map[]), channels), manner, calendar)
  {
    hide Arrives;
    var w;
    SoloAgent(db, a, channels, a.(tasks := map[]));
    all, w := Then(steps, Solo(db, a, channels), AgentActs(NODE, RestartStep), manner, calendar);
  }

  /** A step of the agent on one attempt, which neither retires nor clears anything. */
  predicate Plain(step: AgentStep) {
    LocalStep(step) && !step.RetireStep? && !step.ClearFenceStep?
  }

  lemma Acts(
    steps: seq<WorldStep>, db: Db, a: Agent, channels: map<Key, Channel>, step: AgentStep, manner: Manner,
    calendar: Calendar)
    returns (all: seq<WorldStep>, next: map<Key, Channel>)
    requires Arrives(steps, Solo(db, a, channels), manner, calendar) && Enabled(a, step)
    requires (manner.once ==> KeepsOneNumber(a, step)) && (manner.written ==> !ActionLosesWrite(step))
    requires Plain(step) && step.key in channels
    ensures Arrives(all, Solo(db, After(a, step), next), manner, calendar)
    ensures next.Keys == channels.Keys
    ensures forall k :: k in channels ==> next[k].sent == channels[k].sent && next[k].starts == channels[k].starts
    ensures next[step.key].durable == Noted(channels[step.key], After(a, step), step.key).durable
    ensures next[step.key].lost == Noted(channels[step.key], After(a, step), step.key).lost
  {
    hide Arrives, After, Enabled, KeepsOneNumber, Noted, ActionLosesWrite;
    var w;
    var k := step.key;
    var c := channels[k];
    var d := c.(launches := c.launches + if step.SpawnStep? then 1 else 0);
    SoloAgent(db, a, channels, After(a, step));
    NotedOf(d, c, After(a, step), k);
    all, w := Then(steps, Solo(db, a, channels), AgentActs(NODE, step), manner, calendar);
    next := channels[k := Noted(d, After(a, step), k)];
    assert w == Solo(db, After(a, step), next);
  }

  // A rejection

  lemma Rejects()
    ensures var k := Attempt7(1);
            AfterAccept(IDLE, k, Spec7(1), None, Admission(false, true, 2, Stored)) ==
            Agent(map[k := RejectedRecord(Spec7(1), None)], map[])
  {
  }

  /** A start that local policy refuses leaves a Rejected record, in a sound state reached from the fresh world. */
  lemma RejectionIsReached(calendar: Calendar) returns (steps: seq<WorldStep>, w: World)
    ensures Fresh(FRESH) && Reaches(FRESH, steps, w, calendar) && EndsOnce(FRESH, steps, calendar) && WorldInv(w)
    ensures NODE in w.agents && Attempt7(1) in w.agents[NODE].spool
    ensures w.agents[NODE].spool[Attempt7(1)].state.Rejected?
  {
    hide Reaches, EndsOnce, WorldInv, AfterAccept, RejectedRecord;
    var channels;
    steps, w := Dispatched7(Manner(true, false), calendar);
    steps, channels := Starts(steps, DISPATCHED, IDLE, w.channels, 1, Admission(false, true, 2, Stored),
                              Manner(true, false), calendar);
    Rejects();
    var rejected := RejectedRecord(Spec7(1), None);
    w := Solo(DISPATCHED, Agent(map[Attempt7(1) := rejected], map[]), channels);
    assert rejected.state.Rejected? by { RejectedIsRejected(); }
    FreshIsSound(FRESH);
    ReachableIsSound(FRESH, steps, w, calendar);
  }

  lemma RejectedIsRejected()
    ensures RejectedRecord(Spec7(1), None).state.Rejected?
  {
  }

  // An attempt that starts

  /** The record once the server's acknowledgement of its acceptance is written down. */
  function Heard(no: nat): SpoolRecord {
    Acknowledge(AcceptedRecord(Spec7(no), None), 1)
  }

  const ACCEPTED: Db := Tables(Run7(RunRunning, 1, None), map[Attempt7(1) := Row7(1, AttemptState.Accepted, 1)])
  const WAITING: Agent := Agent(map[Attempt7(1) := Heard(1)], map[Attempt7(1) := Task(Heard(1), Starting)])
  const ROOMY: Admission := Admission(true, true, 4, Stored)

  lemma Accepts(spool: map<Key, SpoolRecord>, tasks: map<Key, Task>, no: nat)
    requires Attempt7(no) !in spool && Attempt7(no) !in tasks && |tasks| < 4
    requires forall k :: k in spool ==> spool[k].InPhase(Phase.Executing)
    ensures var k, r := Attempt7(no), AcceptedRecord(Spec7(no), None);
            AfterAccept(Agent(spool, tasks), k, Spec7(no), None, ROOMY) ==
            Agent(spool[k := r], tasks[k := Task(r, Starting)])
  {
  }

  lemma AcceptanceArrives(calendar: Calendar)
    ensures AfterEvent(DISPATCHED, Attempt7(1), AttemptEvent(1, AttemptState.Accepted), 0, calendar) == ACCEPTED
  {
  }

  lemma AcceptanceIsSent()
    ensures MayReport(Agent(map[Attempt7(1) := AcceptedRecord(Spec7(1), None)],
                            map[Attempt7(1) := Task(AcceptedRecord(Spec7(1), None), Starting)]),
                      Attempt7(1), AttemptEvent(1, AttemptState.Accepted))
  {
  }

  lemma Acknowledged(
    steps: seq<WorldStep>, db: Db, a: Agent, channels: map<Key, Channel>, k: Key, sequence: nat, manner: Manner,
    calendar: Calendar)
    returns (all: seq<WorldStep>, next: map<Key, Channel>)
    requires Arrives(steps, Solo(db, a, channels), manner, calendar)
    requires k in a.spool && k in channels && k in db.attempts && sequence <= db.attempts[k].lastSequence
    ensures Arrives(all, Solo(db, After(a, AcknowledgeStep(k, sequence)), next), manner, calendar)
    ensures next.Keys == channels.Keys && next[k].durable == channels[k].durable + {Entry(a.spool[k])}
    ensures next[k].sent == channels[k].sent
  {
    hide Arrives;
    var w;
    SoloAgent(db, a, channels, After(a, AcknowledgeStep(k, sequence)));
    all, w := Then(steps, Solo(db, a, channels), EventAnswered(NODE, k, sequence), manner, calendar);
    next := w.channels;
  }

  const STARTING: Agent :=
    Agent(map[Attempt7(1) := AcceptedRecord(Spec7(1), None)],
          map[Attempt7(1) := Task(AcceptedRecord(Spec7(1), None), Starting)])

  lemma Started7(manner: Manner, calendar: Calendar) returns (steps: seq<WorldStep>, channels: map<Key, Channel>)
    ensures Arrives(steps, Solo(ACCEPTED, STARTING, channels), manner, calendar)
    ensures channels.Keys == {Attempt7(1)}
    ensures channels[Attempt7(1)].durable <= {AttemptEvent(1, AttemptState.Accepted)}
  {
    hide Reaches, EndsOnce, AfterAccept, AfterEvent, MayReport, Tables;
    var k := Attempt7(1);
    var accepted, w := AttemptEvent(1, AttemptState.Accepted), FRESH;
    steps, w := Dispatched7(manner, calendar);
    steps, channels := Starts(steps, DISPATCHED, IDLE, w.channels, 1, ROOMY, manner, calendar);
    Accepts(map[], map[], 1);
    AcceptanceIsSent();
    steps, channels := Sends(steps, DISPATCHED, STARTING, channels, k, accepted, manner, calendar);
    steps := Delivers(steps, DISPATCHED, STARTING, channels, k, accepted, manner, calendar);
    AcceptanceArrives(calendar);
  }

  lemma HearsAndReads()
    ensures var k := Attempt7(1);
            var heard := After(STARTING, AcknowledgeStep(k, 1));
            Enabled(STARTING, AcknowledgeStep(k, 1)) && Enabled(heard, SyncStep(k))
              && After(heard, SyncStep(k)) == WAITING
  {
  }

  lemma Accepted7(manner: Manner, calendar: Calendar) returns (steps: seq<WorldStep>, channels: map<Key, Channel>)
    ensures Arrives(steps, Solo(ACCEPTED, WAITING, channels), manner, calendar)
    ensures channels.Keys == {Attempt7(1)}
    ensures channels[Attempt7(1)].durable <= {AttemptEvent(1, AttemptState.Accepted)}
  {
    hide Reaches, EndsOnce, After, Enabled;
    var k := Attempt7(1);
    steps, channels := Started7(manner, calendar);
    HearsAndReads();
    steps, channels := Acknowledged(steps, ACCEPTED, STARTING, channels, k, 1, manner, calendar);
    var heard := After(STARTING, AcknowledgeStep(k, 1));
    steps, channels := Acts(steps, ACCEPTED, heard, channels, SyncStep(k), manner, calendar);
  }

  // An end that was never written

  function Unwritten(): SpoolRecord {
    Heard(1).Terminal(Failed, Some(ProcessFailure))
  }

  lemma EndsUnwritten()
    ensures var k, step := Attempt7(1), LaunchFailsStep(Attempt7(1), ProcessFailure, NotStored);
            && Enabled(WAITING, step) && KeepsOneNumber(WAITING, step)
            && After(WAITING, step) == Agent(WAITING.spool, map[k := Task(Unwritten(), Ended)])
            && MayReport(After(WAITING, step), k, AttemptEvent(2, Failed))
  {
  }

  lemma FailureArrives(calendar: Calendar)
    ensures var row := AfterEvent(ACCEPTED, Attempt7(1), AttemptEvent(2, Failed), 0, calendar).attempts[Attempt7(1)];
            row.state.Failed? && row.lastSequence == 2
  {
  }

  lemma NotedLeavesDurable(c: Channel, k: Key)
    requires c.durable <= {AttemptEvent(1, AttemptState.Accepted)} && k == Attempt7(1)
    ensures Noted(c, Agent(WAITING.spool, map[k := Task(Unwritten(), Ended)]), k).durable
            <= {AttemptEvent(1, AttemptState.Accepted)}
  {
  }

  /**
    A launch fails, the write of that end fails too, and the agent reports it all the
    same: in this sound state, reached from the fresh world, the server's entry is in
    no durable history.
   */
  lemma ServerLeavesHistory(calendar: Calendar) returns (steps: seq<WorldStep>, w: World)
    ensures Fresh(FRESH) && Reaches(FRESH, steps, w, calendar) && EndsOnce(FRESH, steps, calendar) && WorldInv(w)
    ensures Attempt7(1) in w.db.attempts && ServerEntry(w, Attempt7(1)) == AttemptEvent(2, Failed)
    ensures !FromHistory(ServerEntry(w, Attempt7(1)), ChannelOf(w, Attempt7(1)).durable)
  {
    hide Reaches, EndsOnce, WorldInv, After, Enabled, MayReport, KeepsOneNumber, AfterEvent, Tables, Noted;
    var k, failed := Attempt7(1), AttemptEvent(2, Failed);
    var step := LaunchFailsStep(k, ProcessFailure, NotStored);
    var channels;
    steps, channels := Accepted7(Manner(true, false), calendar);
    EndsUnwritten();
    NotedLeavesDurable(channels[k], k);
    steps, channels := Acts(steps, ACCEPTED, WAITING, channels, step, Manner(true, false), calendar);
    var ended := After(WAITING, step);
    steps, channels := Sends(steps, ACCEPTED, ended, channels, k, failed, Manner(true, false), calendar);
    steps := Delivers(steps, ACCEPTED, ended, channels, k, failed, Manner(true, false), calendar);
    w := Solo(AfterEvent(ACCEPTED, k, failed, 0, calendar), ended, channels);
    FailureArrives(calendar);
    FreshIsSound(FRESH);
    ReachableIsSound(FRESH, steps, w, calendar);
    ReportedRowIsKnown(w, channels);
  }

  lemma ReportedRowIsKnown(w: World, channels: map<Key, Channel>)
    requires WorldInv(w) && w.channels == channels && Attempt7(1) in channels
    ensures Attempt7(1) in w.db.attempts
  {
    hide RunsInv, AgentsInv, Owned, KeysInv;
  }

  // Two ends of one attempt

  lemma Polls(
    steps: seq<WorldStep>, db: Db, a: Agent, channels: map<Key, Channel>, after: Db, no: nat, manner: Manner,
    calendar: Calendar)
    returns (all: seq<WorldStep>, next: map<Key, Channel>)
    requires Arrives(steps, Solo(db, a, channels), manner, calendar) && Attempt7(no) !in channels
    requires PollPicks(db, NODE, 0, true, StartRetry(7))
    requires Poll(db, NODE, 0, true, true, StartRetry(7)) ==
             PollResult(after, Some(StartAttempt(Attempt7(no), MIRROR, Spec7(no))))
    ensures Arrives(all, Solo(after, a, next), manner, calendar)
    ensures next == channels[Attempt7(no) := QUIET.(starts := multiset{Start7(no)})]
  {
    hide Reaches, EndsOnce, Poll, PollPicks;
    var w;
    assert QUIET.starts + multiset{Start7(no)} == multiset{Start7(no)};
    all, w := Then(steps, Solo(db, a, channels), AgentPolls(NODE, 0, true, true, StartRetry(7), false), manner,
                   calendar);
    next := w.channels;
  }

  /** The attempts of run 7 once the first has ended and reported, and its task has left. */
  function Left(r: SpoolRecord): Agent {
    Agent(map[Attempt7(1) := r], map[Attempt7(1) := Task(r, Ended)])
  }

  function Second(r: SpoolRecord): Agent {
    Agent(map[Attempt7(1) := r, Attempt7(2) := AcceptedRecord(Spec7(2), None)],
          map[Attempt7(1) := Task(r, Ended), Attempt7(2) := Task(AcceptedRecord(Spec7(2), None), Starting)])
  }

  function Ended7(state: AttemptState, first: nat): Db {
    Tables(Run7(RunRunning, 1, Some(0)), map[Attempt7(1) := Row7(1, state, first)])
  }

  function Retried7(state: AttemptState, first: nat): Db {
    Tables(Run7(RunRunning, 2, None),
           map[Attempt7(1) := Row7(1, state, first), Attempt7(2) := Row7(2, Queued, 0)])
  }

  function Resumed7(state: AttemptState, first: nat): Db {
    Tables(Run7(RunRunning, 2, None),
           map[Attempt7(1) := Row7(1, state, first), Attempt7(2) := Row7(2, AttemptState.Accepted, 1)])
  }

  function Repeated7(state: AttemptState, second: nat): Db {
    Tables(Run7(RunRunning, 2, Some(0)),
           map[Attempt7(1) := Row7(1, state, second), Attempt7(2) := Row7(2, AttemptState.Accepted, 1)])
  }

  function Third7(state: AttemptState, second: nat): Db {
    Tables(Run7(RunRunning, 3, None),
           map[Attempt7(1) := Row7(1, state, second), Attempt7(2) := Row7(2, AttemptState.Accepted, 1),
               Attempt7(3) := Row7(3, Queued, 0)])
  }

  /** One outcome under two numbers, which the server retries each time it hears of it. */
  predicate TwoNumbers(state: AttemptState, first: nat, second: nat) {
    (state.Interrupted? || state.Failed?) && 1 < first < second
  }

  lemma ServerEnds(state: AttemptState, first: nat, second: nat, calendar: Calendar)
    requires TwoNumbers(state, first, second)
    ensures AfterEvent(ACCEPTED, Attempt7(1), AttemptEvent(first, state), 0, calendar) == Ended7(state, first)
  {
  }

  lemma ServerResumes(state: AttemptState, first: nat, second: nat, calendar: Calendar)
    requires TwoNumbers(state, first, second)
    ensures AfterEvent(Retried7(state, first), Attempt7(2), AttemptEvent(1, AttemptState.Accepted), 0, calendar) ==
            Resumed7(state, first)
  {
  }

  lemma ServerRepeats(state: AttemptState, first: nat, second: nat, calendar: Calendar)
    requires TwoNumbers(state, first, second)
    ensures AfterEvent(Resumed7(state, first), Attempt7(1), AttemptEvent(second, state), 0, calendar) ==
            Repeated7(state, second)
    ensures RepeatsOldOutcome(Resumed7(state, first), Attempt7(1), AttemptEvent(second, state), 0)
  {
  }

  lemma FirstRetry(state: AttemptState, first: nat, second: nat)
    requires TwoNumbers(state, first, second)
    ensures PollPicks(Ended7(state, first), NODE, 0, true, StartRetry(7))
    ensures Poll(Ended7(state, first), NODE, 0, true, true, StartRetry(7)) ==
            PollResult(Retried7(state, first), Some(StartAttempt(Attempt7(2), MIRROR, Spec7(2))))
  {
  }

  lemma SecondRetry(state: AttemptState, first: nat, second: nat)
    requires TwoNumbers(state, first, second)
    ensures PollPicks(Repeated7(state, second), NODE, 0, true, StartRetry(7))
    ensures Poll(Repeated7(state, second), NODE, 0, true, true, StartRetry(7)) ==
            PollResult(Third7(state, second), Some(StartAttempt(Attempt7(3), MIRROR, Spec7(3))))
  {
  }

  lemma SecondAccepts(r: SpoolRecord)
    requires r.InPhase(Phase.Executing)
    ensures AfterAccept(Left(r), Attempt7(2), Spec7(2), None, ROOMY) == Second(r)
    ensures MayReport(Second(r), Attempt7(2), AttemptEvent(1, AttemptState.Accepted))
  {
  }

  lemma ThirdAccepts(r: SpoolRecord)
    requires r.InPhase(Phase.Executing)
    ensures var a := AfterAccept(Second(r), Attempt7(3), Spec7(3), None, ROOMY);
            && Live(a, Attempt7(2)) && Live(a, Attempt7(3)) && a.tasks[Attempt7(2)].memory.spec == Spec7(2)
            && a.tasks[Attempt7(3)].memory.spec == Spec7(3)
  {
  }

  /** Both ends of attempt 1 are in flight. */
  ghost predicate BothSent(channels: map<Key, Channel>, state: AttemptState, first: nat, second: nat) {
    && channels.Keys == {Attempt7(1)}
    && {AttemptEvent(first, state), AttemptEvent(second, state)} <= channels[Attempt7(1)].sent
  }

  /** The first end arrives, and its retry is accepted by the node and by the server. */
  lemma Resumes(
    steps: seq<WorldStep>, channels: map<Key, Channel>, r: SpoolRecord, state: AttemptState, first: nat, second: nat,
    manner: Manner, calendar: Calendar)
    returns (all: seq<WorldStep>, next: map<Key, Channel>)
    requires Arrives(steps, Solo(ACCEPTED, Left(r), channels), manner, calendar) && r.InPhase(Phase.Executing)
    requires TwoNumbers(state, first, second) && BothSent(channels, state, first, second)
    ensures Arrives(all, Solo(Resumed7(state, first), Second(r), next), manner, calendar)
    ensures next.Keys == {Attempt7(1), Attempt7(2)} && AttemptEvent(second, state) in next[Attempt7(1)].sent
  {
    hide Arrives, AfterEvent, AfterAccept, MayReport, Tables, Poll, PollPicks, Noted, Left, Second;
    var accepted := AttemptEvent(1, AttemptState.Accepted);
    all := Delivers(steps, ACCEPTED, Left(r), channels, Attempt7(1), AttemptEvent(first, state), manner, calendar);
    ServerEnds(state, first, second, calendar);
    FirstRetry(state, first, second);
    all, next := Polls(all, Ended7(state, first), Left(r), channels, Retried7(state, first), 2, manner, calendar);
    all, next := Starts(all, Retried7(state, first), Left(r), next, 2, ROOMY, manner, calendar);
    SecondAccepts(r);
    all, next := Sends(all, Retried7(state, first), Second(r), next, Attempt7(2), accepted, manner, calendar);
    all := Delivers(all, Retried7(state, first), Second(r), next, Attempt7(2), accepted, manner, calendar);
    ServerResumes(state, first, second, calendar);
  }

  /** The second end arrives while the retry is out: the run is retried once more, and one mirror has two writers. */
  lemma Repeats(
    steps: seq<WorldStep>, channels: map<Key, Channel>, r: SpoolRecord, state: AttemptState, first: nat, second: nat,
    manner: Manner, calendar: Calendar)
    returns (all: seq<WorldStep>, w: World)
    requires Arrives(steps, Solo(ACCEPTED, Left(r), channels), manner, calendar) && r.InPhase(Phase.Executing)
    requires TwoNumbers(state, first, second) && BothSent(channels, state, first, second)
    ensures Arrives(all, w, manner, calendar) && TwoWriters(w) && !RunsInv(w.db)
  {
    hide Arrives, AfterEvent, AfterAccept, Tables, Poll, PollPicks, Noted, RunsInv, Left, Second;
    var next;
    all, next := Resumes(steps, channels, r, state, first, second, manner, calendar);
    all := Delivers(all, Resumed7(state, first), Second(r), next, Attempt7(1), AttemptEvent(second, state), manner,
                    calendar);
    ServerRepeats(state, first, second, calendar);
    SecondRetry(state, first, second);
    all, next := Polls(all, Repeated7(state, second), Second(r), next, Third7(state, second), 3, manner, calendar);
    all, next := Starts(all, Third7(state, second), Second(r), next, 3, ROOMY, manner, calendar);
    ThirdAccepts(r);
    w := Solo(Third7(state, second), AfterAccept(Second(r), Attempt7(3), Spec7(3), None, ROOMY), next);
    TwoTasks(w);
    ThirdIsOrphaned(state, second);
  }

  /** Two attempts of the one mirror execute. */
  ghost predicate TwoWriters(w: World) {
    Safety.Executing(w, NODE, Attempt7(2)) && Safety.Executing(w, NODE, Attempt7(3)) && !OneWriter(w)
  }

  lemma TwoTasks(w: World)
    requires NODE in w.agents && Live(w.agents[NODE], Attempt7(2)) && Live(w.agents[NODE], Attempt7(3))
    requires w.agents[NODE].tasks[Attempt7(2)].memory.spec == Spec7(2)
    requires w.agents[NODE].tasks[Attempt7(3)].memory.spec == Spec7(3)
    ensures TwoWriters(w)
  {
    assert MirrorOfTask(w, NODE, Attempt7(2)) == MirrorOfTask(w, NODE, Attempt7(3)) && Attempt7(2) != Attempt7(3);
  }

  lemma ThirdIsOrphaned(state: AttemptState, second: nat)
    ensures !RunsInv(Third7(state, second))
  {
    assert !KeyOk(Third7(state, second), Attempt7(2));
  }

  // Two lost writes

  function Lost(): SpoolRecord {
    FinalRecord(RunningRecord(Heard(1)), Shutdown)
  }

  function Recovered(): SpoolRecord {
    RecoveredRecord(Heard(1))
  }

  const LAUNCHED: Agent := Agent(WAITING.spool, map[Attempt7(1) := Task(RunningRecord(Heard(1)), Launched)])
  const ENDED: Agent := Agent(WAITING.spool, map[Attempt7(1) := Task(Lost(), Ended)])

  lemma LosesTwice()
    ensures var k := Attempt7(1);
            && Enabled(WAITING, SpawnStep(k, NotStored)) && After(WAITING, SpawnStep(k, NotStored)) == LAUNCHED
            && Enabled(LAUNCHED, FinishStep(k, Shutdown, NotStored))
            && After(LAUNCHED, FinishStep(k, Shutdown, NotStored)) == ENDED
            && MayReport(ENDED, k, AttemptEvent(3, Interrupted))
  {
  }

  lemma RestartsWithTwo()
    ensures var k := Attempt7(1);
            && After(ENDED, RestartStep) == Agent(WAITING.spool, map[])
            && Enabled(Agent(WAITING.spool, map[]), NormalizeStep(k, Stored))
            && After(Agent(WAITING.spool, map[]), NormalizeStep(k, Stored)) == Left(Recovered())
            && MayReport(Left(Recovered()), k, AttemptEvent(2, Interrupted)) && Recovered().InPhase(Phase.Executing)
  {
  }

  lemma TwoEnds7(calendar: Calendar) returns (steps: seq<WorldStep>, channels: map<Key, Channel>)
    ensures Arrives(steps, Solo(ACCEPTED, Left(Recovered()), channels), Manner(false, false), calendar)
    ensures BothSent(channels, Interrupted, 2, 3)
  {
    hide Arrives, After, Enabled, MayReport, Tables, Noted, Lost, Recovered;
    var k, m := Attempt7(1), Manner(false, false);
    steps, channels := Accepted7(m, calendar);
    LosesTwice();
    steps, channels := Acts(steps, ACCEPTED, WAITING, channels, SpawnStep(k, NotStored), m, calendar);
    steps, channels := Acts(steps, ACCEPTED, LAUNCHED, channels, FinishStep(k, Shutdown, NotStored), m, calendar);
    steps, channels := Sends(steps, ACCEPTED, ENDED, channels, k, AttemptEvent(3, Interrupted), m, calendar);
    RestartsWithTwo();
    steps := Restarts(steps, ACCEPTED, ENDED, channels, m, calendar);
    var idle, left := Agent(WAITING.spool, map[]), Left(Recovered());
    steps, channels := Acts(steps, ACCEPTED, idle, channels, NormalizeStep(k, Stored), m, calendar);
    steps, channels := Sends(steps, ACCEPTED, left, channels, k, AttemptEvent(2, Interrupted), m, calendar);
  }

  /**
    Two lost writes in a row give one attempt two ends; the second to arrive retries
    the run again while its retry is out, and one mirror has two writers.
   */
  lemma TwoWritersAreReached(calendar: Calendar) returns (steps: seq<WorldStep>, w: World)
    ensures Fresh(FRESH) && Reaches(FRESH, steps, w, calendar)
    ensures !EndsOnce(FRESH, steps, calendar) && !Writers.RepeatsNothing(FRESH, steps, calendar)
    ensures TwoWriters(w) && !RunsInv(w.db)
  {
    hide Reaches, EndsOnce, RunsInv, Tables;
    var channels;
    steps, channels := TwoEnds7(calendar);
    RestartsWithTwo();
    steps, w := Repeats(steps, channels, Recovered(), Interrupted, 2, 3, Manner(false, false), calendar);
    TwoWritersEndTwice(steps, w, calendar);
  }

  lemma TwoWritersEndTwice(steps: seq<WorldStep>, w: World, calendar: Calendar)
    requires Reaches(FRESH, steps, w, calendar) && TwoWriters(w)
    ensures !EndsOnce(FRESH, steps, calendar) && !Writers.RepeatsNothing(FRESH, steps, calendar)
  {
    hide Reaches, EndsOnce, Writers.RepeatsNothing;
    if EndsOnce(FRESH, steps, calendar) {
      NeverTwoWriters(FRESH, steps, w, calendar);
      assert false;
    }
    if Writers.RepeatsNothing(FRESH, steps, calendar) {
      Writers.OneWriterUnlessRepeated(FRESH, steps, w, calendar);
      assert false;
    }
  }

  // A failed preparation and no lost write

  const RUNNING: SpoolRecord := RunningRecord(Heard(1))
  const BUILT: Namespace.Fs := map[Namespace.Candidate(Attempt7(1)) := 1]

  /** The records of a publication whose preparation fails: the plan, the intent to undo it, and the two reports. */
  function Plan7(): SpoolRecord {
    Publication.Prepared(BUILT, Attempt7(1), RUNNING)
  }

  function Intent7(): SpoolRecord {
    Publication.Recovering(Plan7(), Failed, Some(InvalidResult))
  }

  function FirstReport7(): SpoolRecord {
    Publication.UndoneRecord(Plan7())
  }

  function SecondReport7(): SpoolRecord {
    FirstReport7().Terminal(Failed, Some(InvalidResult))
  }

  /** The node while attempt 1 is in a stage after its process began, with this record on disk. */
  function Working(r: SpoolRecord, stage: Stage): Agent {
    Agent(map[Attempt7(1) := r], map[Attempt7(1) := Task(RUNNING, stage)])
  }

  lemma Exits()
    ensures var k := Attempt7(1);
            && Enabled(WAITING, SpawnStep(k, Stored))
            && After(WAITING, SpawnStep(k, Stored)) == Working(RUNNING, Launched)
            && Enabled(Working(RUNNING, Launched), CommitStep(k, Exited(true)))
            && After(Working(RUNNING, Launched), CommitStep(k, Exited(true))) == Working(RUNNING, Publishing)
  {
  }

  lemma PlannedEnds(record: SpoolRecord)
    requires record == Plan7() || record == Intent7() || record == FirstReport7() || record == SecondReport7()
    ensures PublicationEnds(RUNNING, record) && !record.IsFence()
  {
  }

  lemma PersistsOne(r: SpoolRecord, record: SpoolRecord)
    requires PublicationEnds(RUNNING, record) && !record.IsFence()
    ensures var step := PersistStep(Attempt7(1), record);
            Enabled(Working(r, Publishing), step) && After(Working(r, Publishing), step) == Working(record, Publishing)
  {
    hide PublicationEnds;
  }

  lemma ReportsTwice()
    ensures var k, step := Attempt7(1), PublishStep(Attempt7(1), SecondReport7());
            && MayReport(Working(FirstReport7(), Publishing), k, AttemptEvent(3, Failed))
            && Enabled(Working(SecondReport7(), Publishing), step)
            && After(Working(SecondReport7(), Publishing), step) == Left(SecondReport7())
            && MayReport(Left(SecondReport7()), k, AttemptEvent(4, Failed))
            && SecondReport7().InPhase(Phase.Executing)
  {
  }

  lemma Persists(
    steps: seq<WorldStep>, r: SpoolRecord, channels: map<Key, Channel>, record: SpoolRecord, calendar: Calendar)
    returns (all: seq<WorldStep>, next: map<Key, Channel>)
    requires Arrives(steps, Solo(ACCEPTED, Working(r, Publishing), channels), Manner(false, true), calendar)
    requires channels.Keys == {Attempt7(1)}
    requires record == Plan7() || record == Intent7() || record == FirstReport7() || record == SecondReport7()
    ensures Arrives(all, Solo(ACCEPTED, Working(record, Publishing), next), Manner(false, true), calendar)
    ensures next.Keys == channels.Keys && next[Attempt7(1)].sent == channels[Attempt7(1)].sent
  {
    hide Arrives, Working, After, Enabled, Tables, Noted, Plan7, Intent7, FirstReport7, SecondReport7;
    PlannedEnds(record);
    PersistsOne(r, record);
    all, next := Acts(steps, ACCEPTED, Working(r, Publishing), channels, PersistStep(Attempt7(1), record),
                      Manner(false, true), calendar);
  }

  /** The execution has succeeded, and its publication is undone up to the first report. */
  lemma Undone7(calendar: Calendar) returns (steps: seq<WorldStep>, channels: map<Key, Channel>)
    ensures Arrives(steps, Solo(ACCEPTED, Working(FirstReport7(), Publishing), channels), Manner(false, true), calendar)
    ensures channels.Keys == {Attempt7(1)}
  {
    hide Arrives, Working, After, Enabled, Tables, Noted, Plan7, Intent7, FirstReport7, SecondReport7;
    var k, m := Attempt7(1), Manner(false, true);
    steps, channels := Accepted7(m, calendar);
    Exits();
    steps, channels := Acts(steps, ACCEPTED, WAITING, channels, SpawnStep(k, Stored), m, calendar);
    steps, channels := Acts(steps, ACCEPTED, Working(RUNNING, Launched), channels, CommitStep(k, Exited(true)), m,
                            calendar);
    steps, channels := Persists(steps, RUNNING, channels, Plan7(), calendar);
    steps, channels := Persists(steps, Plan7(), channels, Intent7(), calendar);
    steps, channels := Persists(steps, Intent7(), channels, FirstReport7(), calendar);
  }

  lemma UndoneEnds7(calendar: Calendar) returns (steps: seq<WorldStep>, channels: map<Key, Channel>)
    ensures Arrives(steps, Solo(ACCEPTED, Left(SecondReport7()), channels), Manner(false, true), calendar)
    ensures BothSent(channels, Failed, 3, 4)
  {
    hide Arrives, Working, Left, After, Enabled, MayReport, Tables, Noted, Plan7, Intent7, FirstReport7, SecondReport7;
    var k, m := Attempt7(1), Manner(false, true);
    steps, channels := Undone7(calendar);
    ReportsTwice();
    var first, second := Working(FirstReport7(), Publishing), Working(SecondReport7(), Publishing);
    steps, channels := Sends(steps, ACCEPTED, first, channels, k, AttemptEvent(3, Failed), m, calendar);
    steps, channels := Persists(steps, FirstReport7(), channels, SecondReport7(), calendar);
    steps, channels := Acts(steps, ACCEPTED, second, channels, PublishStep(k, SecondReport7()), m, calendar);
    steps, channels := Sends(steps, ACCEPTED, Left(SecondReport7()), channels, k, AttemptEvent(4, Failed), m, calendar);
  }

  /**
    Every write is stored, and still one mirror has two writers: a preparation fails and is
    undone, a reader that takes no lock posts the first of its two reports, the run is
    retried, and the second report repeats the outcome under another number.
   */
  lemma TwoWritersWithoutLostWrites(calendar: Calendar) returns (steps: seq<WorldStep>, w: World)
    ensures Fresh(FRESH) && Reaches(FRESH, steps, w, calendar)
    ensures !EndsOnce(FRESH, steps, calendar) && !Writers.RepeatsNothing(FRESH, steps, calendar)
    ensures forall step | step in steps :: !LosesWrite(step)
    ensures TwoWriters(w) && !RunsInv(w.db)
  {
    hide Reaches, EndsOnce, RunsInv, Tables, LosesWrite, SecondReport7;
    var channels;
    steps, channels := UndoneEnds7(calendar);
    ReportsTwice();
    steps, w := Repeats(steps, channels, SecondReport7(), Failed, 3, 4, Manner(false, true), calendar);
    TwoWritersEndTwice(steps, w, calendar);
  }

  // The store before the repetition

  lemma ResumedMirrors()
    ensures var db := Resumed7(Interrupted, 2); MirrorsOk(db.mirrors, db.generations) && OneActive(db.runs)
  {
  }

  lemma ResumedRows()
    ensures var db := Resumed7(Interrupted, 2); KeyOk(db, Attempt7(1)) && KeyOk(db, Attempt7(2)) && RunOk(db, 7)
  {
    assert RunDocument(Resumed7(Interrupted, 2), 7) == Some(DOCUMENT);
  }

  /** The store just before: sound, and an event away from losing it. */
  lemma RepeatIsPossible()
    ensures var db := Resumed7(Interrupted, 2);
            RunsInv(db) && RepeatsOldOutcome(db, Attempt7(1), AttemptEvent(3, Interrupted), 0)
  {
    hide KeyOk, RunOk, MirrorsOk, OneActive, RepeatsOldOutcome;
    ServerRepeats(Interrupted, 2, 3, (_, _) => 0);
    ResumedMirrors();
    ResumedRows();
  }
}
