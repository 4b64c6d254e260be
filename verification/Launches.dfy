/**
  Each attempt starts a process at most once: an argument that does not care which
  writes fail or how an attempt's outcomes are numbered.
 */
module Launches {
  import opened Common
  import opened Lifecycle
  import opened Schedule
  import opened StoreModel
  import opened StoreHistory
  import opened Spool
  import opened AgentModel
  import opened AgentHistories
  import opened Delivery
  import opened System
  import opened Safety

  predicate Reported(e: AttemptEvent) {
    e.sequence >= 1 && !e.state.Queued?
  }

  predicate Plain(r: SpoolRecord, last: nat) {
    r.sequence >= 1 && !r.state.Queued? && r.acknowledged <= last
  }

  /** No start of the attempt is in flight, and none will be sent. */
  predicate Spent(l: Local) {
    l.channel.starts == multiset{} && !l.row.state.Queued?
  }

  /**
    An attempt that ran, ended, or was cancelled before it was heard of, has a record or
    can get none from a start; while a process may be alive, no end was ever reported.
   */
  predicate Once(l: Local) {
    && (l.row.state.Queued? ==> l.row.lastSequence == 0)
    && MessagesFit(l)
    && (forall e :: e in l.channel.sent ==> Reported(e))
    && (l.record.Some? ==> Plain(l.record.value, l.row.lastSequence) && l.record.value.spec == l.row.spec)
    && (l.memory.Some? ==> Plain(l.memory.value, l.row.lastSequence))
    && (l.live ==> l.record.Some?)
    && l.channel.launches <= 1
    && (l.starting ==> l.channel.launches == 0 && !l.channel.tombstoned)
    && (l.channel.launches == 1 || l.channel.tombstoned || l.memory.Some? ==> l.record.Some? || Spent(l))
    && (forall e :: e in l.channel.sent && e.state.IsTerminal() ==> !l.live && (l.record.Some? || Spent(l)))
  }

  ghost predicate RunsKnown(db: Db) {
    forall k :: k in db.attempts ==> k.run in db.runs
  }

  ghost predicate OnceInv(w: World) {
    && RunsKnown(w.db) && AgentsInv(w) && Owned(w) && w.channels.Keys <= w.db.attempts.Keys
    && forall k :: k in w.db.attempts ==> Once(LocalAt(w, k))
  }

  // One attempt's step in the world

  lemma OneKeyKeepsOnce(w: World, after: World, n: Name, k: Key)
    requires OnceInv(w) && OthersKept(w, after, n, k) && RowsKept(w.db, after.db, k)
    requires RunsKnown(after.db) && AgentsInv(after)
    requires k in after.db.attempts && Once(LocalAt(after, k))
    requires Knows(AgentAt(after, n), k) ==> OwnerOf(after.db, k) == n
    ensures OnceInv(after)
  {
    hide AgentInv, Once, LocalAt, RunsKnown, AgentsInv;
    forall j | j in after.db.attempts ensures Once(LocalAt(after, j)) {
      if j != k {
        OtherLocalsKept(w, after, n, k, j);
      }
    }
    forall m, j | m in after.agents && Knows(after.agents[m], j)
      ensures j in after.db.attempts && OwnerOf(after.db, j) == m
    {
      if j != k || m != n {
        assert Knows(w.agents[m], j);
      }
    }
  }

  lemma TouchKeepsOnce(w: World, n: Name, agent: Agent, k: Key, c: Channel)
    requires OnceInv(w) && n in w.agents && k in w.db.attempts && OwnerOf(w.db, k) == n
    requires AgentKeptBut(w.agents[n], agent, k) && AgentInv(agent)
    requires Once(LocalOf(n, w.db.attempts[k], agent, k, c))
    ensures OnceInv(Touched(w, n, agent, k, c))
  {
    hide AgentInv, Once, AgentKeptBut, LocalOf, Owned;
    var after := Touched(w, n, agent, k, c);
    assert OwnerOf(after.db, k) == n && AgentAt(after, n) == agent && ChannelOf(after, k) == c;
    OneKeyKeepsOnce(w, after, n, k);
  }

  lemma OnceKnown(w: World, n: Name, k: Key)
    requires OnceInv(w) && n in w.agents && Knows(w.agents[n], k)
    ensures k in w.db.attempts && OwnerOf(w.db, k) == n && AgentInv(w.agents[n])
    ensures Once(LocalOf(n, w.db.attempts[k], w.agents[n], k, ChannelOf(w, k)))
  {
    hide AgentInv, Once, LocalOf;
    assert Once(LocalAt(w, k));
  }

  lemma OnceMessage(w: World, k: Key)
    requires OnceInv(w) && k in w.channels
    ensures k in w.db.attempts
    ensures var n := OwnerOf(w.db, k);
            && Once(LocalOf(n, w.db.attempts[k], AgentAt(w, n), k, w.channels[k]))
            && LocalAt(w, k) == LocalOf(n, w.db.attempts[k], AgentAt(w, n), k, w.channels[k])
            && (forall m :: m in w.channels[k].starts ==> m.node == n)
            && (forall m :: m in w.channels[k].cancels ==> m.node == n && m.spec == w.db.attempts[k].spec)
            && (n in w.agents ==> AgentInv(w.agents[n]))
  {
  }

  lemma NotesDoNotMatter(n: Name, row: Attempt, a: Agent, k: Key, c: Channel, noted: Agent)
    requires Once(LocalOf(n, row, a, k, c))
    ensures Once(LocalOf(n, row, a, k, Noted(c, noted, k)))
  {
  }

  // The server

  /** A row a transaction did not report on: no new number, and not queued again. */
  predicate RowStays(db: Db, after: Db, k: Key)
    requires k in db.attempts
  {
    && k in after.attempts && k.run in after.runs && OwnerOf(after, k) == OwnerOf(db, k)
    && after.attempts[k].lastSequence == db.attempts[k].lastSequence && after.attempts[k].spec == db.attempts[k].spec
    && (after.attempts[k].state.Queued? ==> db.attempts[k].state.Queued?)
  }

  lemma ManualRows(db: Db, m: Name, request: string, prior: Option<RunId>, newId: RunId, now: int, k: Key)
    requires k in db.attempts && k.run in db.runs && newId !in db.runs
    ensures RowStays(db, AfterManual(db, m, request, prior, newId, now), k)
  {
    hide HasActiveRun;
  }

  lemma CancelRows(db: Db, id: RunId, now: int, calendar: Calendar, k: Key)
    requires k in db.attempts && k.run in db.runs
    ensures RowStays(db, AfterCancelRequest(db, id, now, calendar), k)
  {
    hide Dispatched, ArmWith, TerminalRearm;
  }

  lemma ApplyRows(db: Db, bundle: Bundle, base: nat, now: int, calendar: Calendar, k: Key)
    requires k in db.attempts && k.run in db.runs
    ensures RowStays(db, AfterApply(db, bundle, base, now, calendar), k)
  {
    hide ApplyResult, Plan, MirrorsIn, GenerationsIn, SchedulesIn, ScopedChange, HasDispatched, EndsWaitingRuns;
  }

  lemma ServerRows(db: Db, txn: Txn, calendar: Calendar, k: Key)
    requires txn.ManualTxn? || txn.CancelTxn? || txn.TickTxn? || txn.ApplyTxn?
    requires RunsKnown(db) && WellPosed(db, txn) && k in db.attempts
    ensures RowStays(db, Commit(db, txn, calendar), k)
  {
    hide AfterManual, AfterCancelRequest, AfterApply, ValidBundle, TickResolves;
    match txn
    case ManualTxn(m, request, prior, newId, now) => ManualRows(db, m, request, prior, newId, now, k);
    case CancelTxn(id, now) => CancelRows(db, id, now, calendar, k);
    case ApplyTxn(bundle, base, now) => ApplyRows(db, bundle, base, now, calendar, k);
    case TickTxn(_) =>
  }

  lemma OnceStays(n: Name, row: Attempt, after: Attempt, a: Agent, k: Key, c: Channel)
    requires Once(LocalOf(n, row, a, k, c)) && after.lastSequence == row.lastSequence
    requires after.spec == row.spec && (after.state.Queued? ==> row.state.Queued?)
    ensures Once(LocalOf(n, after, a, k, c))
  {
  }

  lemma ServerKeys(db: Db, txn: Txn, calendar: Calendar)
    requires txn.ManualTxn? || txn.CancelTxn? || txn.TickTxn? || txn.ApplyTxn?
    requires WellPosed(db, txn)
    ensures Commit(db, txn, calendar).attempts.Keys == db.attempts.Keys
  {
    hide Blocked, HasDispatched, PlannedChange, ValidBundle, Dispatched;
  }

  lemma ServerKeepsOnce(w: World, txn: Txn, calendar: Calendar)
    requires OnceInv(w) && WellPosed(w.db, txn)
    requires txn.ManualTxn? || txn.CancelTxn? || txn.TickTxn? || txn.ApplyTxn?
    ensures OnceInv(w.(db := Commit(w.db, txn, calendar)))
  {
    hide AgentInv, Commit, WellPosed, LocalOf, Once;
    var after := w.(db := Commit(w.db, txn, calendar));
    ServerKeys(w.db, txn, calendar);
    forall k | k in w.db.attempts ensures RowStays(w.db, after.db, k) && Once(LocalAt(after, k)) {
      ServerRows(w.db, txn, calendar, k);
      var n := OwnerOf(w.db, k);
      assert Once(LocalAt(w, k));
      OnceStays(n, w.db.attempts[k], after.db.attempts[k], AgentAt(w, n), k, ChannelOf(w, k));
    }
    forall k | k in after.db.attempts ensures k in w.db.attempts && k.run in after.db.runs && Once(LocalAt(after, k)) {
      assert k in w.db.attempts.Keys;
    }
    forall n, k | n in after.agents && Knows(after.agents[n], k)
      ensures k in after.db.attempts && OwnerOf(after.db, k) == n
    {
      assert RowStays(w.db, after.db, k);
    }
  }

  lemma EventArrivesKeepsOnce(w: World, k: Key, event: AttemptEvent, now: int, calendar: Calendar)
    requires OnceInv(w) && k in w.channels && event in w.channels[k].sent
    ensures OnceInv(w.(db := AfterEvent(w.db, k, event, now, calendar)))
  {
    hide AgentInv, AfterEvent, Once, LocalOf, LocalAt, OwnerOf, OthersKept, AgentsInv, Owned, RunsKnown;
    var after := w.(db := AfterEvent(w.db, k, event, now, calendar));
    OnceMessage(w, k);
    EventedRow(w.db, k, event, now, calendar);
    if after != w {
      var n := OwnerOf(w.db, k);
      OnceReports(n, w.db.attempts[k], after.db.attempts[k], AgentAt(w, n), k, w.channels[k], event);
      EventedOnce(w, after, n, k);
    }
  }

  lemma EventedOnce(w: World, after: World, n: Name, k: Key)
    requires OnceInv(w) && k in w.channels && n == OwnerOf(w.db, k) && k in w.db.attempts && k in after.db.attempts
    requires after == w.(db := after.db) && RowsKept(w.db, after.db, k) && RunsKnown(after.db)
    requires Once(LocalOf(n, after.db.attempts[k], AgentAt(w, n), k, w.channels[k]))
    ensures OnceInv(after)
  {
    hide AgentInv, Once, LocalOf, OthersKept, RunsKnown;
    OnlyThatChannel(w, after, n, k);
    assert AgentAt(after, n) == AgentAt(w, n) && ChannelOf(after, k) == w.channels[k];
    OneKeyKeepsOnce(w, after, n, k);
  }

  /** An applied event changes its own row, to the event. */
  lemma EventedRow(db: Db, k: Key, event: AttemptEvent, now: int, calendar: Calendar)
    requires RunsKnown(db) && k in db.attempts
    ensures var after := AfterEvent(db, k, event, now, calendar);
            after != db ==>
              && k in after.attempts && RowsKept(db, after, k) && RunsKnown(after)
              && after.attempts[k] == db.attempts[k].(state := event.state, lastSequence := event.sequence)
              && event.sequence > db.attempts[k].lastSequence
  {
    hide DecideRetry, RetryContextOf, ArmWith, TerminalRearm, CurrentDocument;
  }

  lemma OnceReports(n: Name, row: Attempt, after: Attempt, a: Agent, k: Key, c: Channel, event: AttemptEvent)
    requires Once(LocalOf(n, row, a, k, c)) && event in c.sent && event.sequence > row.lastSequence
    requires after == row.(state := event.state, lastSequence := event.sequence)
    ensures Once(LocalOf(n, after, a, k, c))
  {
    assert Reported(event);
  }

  // A poll and its answer

  lemma PolledRows(db: Db, node: Name, now: int, capacity: bool, atomicReady: bool, choice: PollChoice)
    requires RunsKnown(db) && PollPicks(db, node, now, capacity, choice)
    ensures var after := Poll(db, node, now, capacity, atomicReady, choice).db;
            RunsKnown(after) && forall k :: k in db.attempts ==>
              k in after.attempts && OwnerOf(after, k) == OwnerOf(db, k)
  {
    hide AnyCancel, AnyRedelivery, AnyManual, AnyRetry, AnyScheduled;
  }

  lemma PollKeepsOnce(
    w: World, node: Name, now: int, capacity: bool, atomicReady: bool, choice: PollChoice, withIdentity: bool)
    requires OnceInv(w) && node in w.agents && PollPicks(w.db, node, now, capacity, choice)
    ensures var result := Poll(w.db, node, now, capacity, atomicReady, choice);
            OnceInv(w.(db := result.db, channels := Posted(w, node, result.action, withIdentity)))
  {
    hide AgentInv, Poll, PollPicks, Answers, LocalAt, LocalOf, Once, OthersKept, RowsKept, QueuedIsSilent, RunsKnown;
    var result := Poll(w.db, node, now, capacity, atomicReady, choice);
    var after := w.(db := result.db, channels := Posted(w, node, result.action, withIdentity));
    OnceRowsAreSilent(w);
    PollAnswers(w.db, node, now, capacity, atomicReady, choice);
    PolledRows(w.db, node, now, capacity, atomicReady, choice);
    if result.action.Some? {
      PostedKeepsOnce(w, after, node, result.action.value, withIdentity);
    }
  }

  lemma OnceRowsAreSilent(w: World)
    requires OnceInv(w)
    ensures QueuedIsSilent(w.db)
  {
    hide AgentInv, Owned;
    forall k | k in w.db.attempts && w.db.attempts[k].state.Queued? ensures w.db.attempts[k].lastSequence == 0 {
      assert Once(LocalAt(w, k));
    }
  }

  lemma PostedKeepsOnce(w: World, after: World, node: Name, action: PollAction, withIdentity: bool)
    requires OnceInv(w) && Answers(w.db, after.db, node, action) && RunsKnown(after.db)
    requires after == w.(db := after.db, channels := Posted(w, node, Some(action), withIdentity))
    requires forall k :: k in w.db.attempts ==> OwnerOf(after.db, k) == OwnerOf(w.db, k)
    ensures OnceInv(after)
  {
    hide AgentInv, LocalOf, Once, OthersKept, RunsKnown, OwnerOf;
    var k := action.key;
    assert OwnerOf(after.db, k) == node;
    PostedLocal(w, after, node, action, withIdentity);
    OnlyThatChannel(w, after, node, k);
    OneKeyKeepsOnce(w, after, node, k);
  }

  lemma PostedLocal(w: World, after: World, node: Name, action: PollAction, withIdentity: bool)
    requires OnceInv(w) && Answers(w.db, after.db, node, action)
    requires after == w.(db := after.db, channels := Posted(w, node, Some(action), withIdentity))
    requires forall k :: k in w.db.attempts ==> OwnerOf(after.db, k) == OwnerOf(w.db, k)
    ensures Once(LocalAt(after, action.key)) && OwnerOf(after.db, action.key) == node
  {
    hide AgentInv, RunsKnown, AgentsInv, LocalOf, Once, OwnerOf;
    var k := action.key;
    var a, c := AgentAt(w, node), ChannelOf(w, k);
    if k in w.db.attempts {
      assert Once(LocalAt(w, k));
      OncePolled(node, w.db.attempts[k], after.db.attempts[k], a, k, c, ChannelOf(after, k));
    } else {
      assert !Knows(a, k) && c == QUIET;
      OnceNew(node, after.db.attempts[k], a, k, ChannelOf(after, k));
    }
  }

  lemma OncePolled(n: Name, row: Attempt, after: Attempt, a: Agent, k: Key, c: Channel, next: Channel)
    requires Once(LocalOf(n, row, a, k, c)) && after.state == row.state && after.lastSequence == row.lastSequence
    requires after.spec == row.spec
    requires next == c.(starts := next.starts, cancels := next.cancels)
    requires next.starts == c.starts || row.state.Queued?
    requires forall m :: m in next.starts - c.starts ==> m.node == n && m.spec == row.spec
    requires forall m :: m in next.cancels - c.cancels ==> m.node == n && m.spec == row.spec
    ensures Once(LocalOf(n, after, a, k, next))
  {
    forall m | m in next.starts ensures m.node == n && m.spec == row.spec {
      assert m in c.starts || m in next.starts - c.starts;
    }
    forall m | m in next.cancels ensures m.node == n && m.spec == row.spec {
      assert m in c.cancels || m in next.cancels - c.cancels;
    }
  }

  lemma OnceNew(n: Name, row: Attempt, a: Agent, k: Key, c: Channel)
    requires !Knows(a, k) && row.state.Queued? && row.lastSequence == 0
    requires c == QUIET.(starts := c.starts) && forall m :: m in c.starts ==> m.node == n && m.spec == row.spec
    ensures Once(LocalOf(n, row, a, k, c))
  {
  }

  // Messages at an agent

  lemma StartArrivesKeepsOnce(w: World, k: Key, start: StartMessage, admission: Admission)
    requires OnceInv(w) && k in w.channels && start in w.channels[k].starts && start.node in w.agents
    ensures var agent := AfterAccept(w.agents[start.node], k, start.spec, start.identity, admission);
            var c := w.channels[k];
            OnceInv(Touched(w, start.node, agent, k, Noted(c.(starts := c.starts - multiset{start}), agent, k)))
  {
    hide AgentInv, AfterAccept, Once, OwnerOf, LocalAt, LocalOf, Noted, AgentKeptBut;
    var n := start.node;
    var a, c := w.agents[n], w.channels[k];
    var agent := AfterAccept(a, k, start.spec, start.identity, admission);
    var consumed := c.(starts := c.starts - multiset{start});
    OnceMessage(w, k);
    AcceptTouches(a, k, start.spec, start.identity, admission);
    AcceptKeepsInv(a, k, start.spec, start.identity, admission);
    AcceptedOnce(n, w.db.attempts[k], a, k, c, start, admission);
    NotesDoNotMatter(n, w.db.attempts[k], agent, k, consumed, agent);
    TouchKeepsOnce(w, n, agent, k, Noted(consumed, agent, k));
  }

  lemma AcceptedOnce(n: Name, row: Attempt, a: Agent, k: Key, c: Channel, start: StartMessage, admission: Admission)
    requires Once(LocalOf(n, row, a, k, c)) && start in c.starts
    ensures var agent := AfterAccept(a, k, start.spec, start.identity, admission);
            Once(LocalOf(n, row, agent, k, c.(starts := c.starts - multiset{start})))
  {
    hide AdmissionRefuses;
  }

  lemma StartLostKeepsOnce(w: World, k: Key, start: StartMessage)
    requires OnceInv(w) && k in w.channels
    ensures OnceInv(w.(channels := w.channels[k := w.channels[k].(starts := w.channels[k].starts - multiset{start})]))
  {
    hide AgentInv, Once, LocalOf, LocalAt, OthersKept, OwnerOf;
    var after := w.(channels := w.channels[k := w.channels[k].(starts := w.channels[k].starts - multiset{start})]);
    var n := OwnerOf(w.db, k);
    OnceMessage(w, k);
    LostOnce(n, w.db.attempts[k], AgentAt(w, n), k, w.channels[k], start);
    OnlyThatChannel(w, after, n, k);
    LostLocal(w, after, k, start);
    LocalParts(n, w.db.attempts[k], AgentAt(w, n), k, w.channels[k]);
    OneKeyKeepsOnce(w, after, n, k);
  }

  lemma LostOnce(n: Name, row: Attempt, a: Agent, k: Key, c: Channel, start: StartMessage)
    requires Once(LocalOf(n, row, a, k, c))
    ensures Once(LocalOf(n, row, a, k, c.(starts := c.starts - multiset{start})))
  {
  }

  lemma CancelArrivesKeepsOnce(w: World, k: Key, cancel: CancelMessage, written: WriteResult)
    requires OnceInv(w) && k in w.channels && cancel in w.channels[k].cancels && cancel.node in w.agents
    ensures var a := w.agents[cancel.node];
            var agent := AfterCancel(a, k, cancel.spec, written);
            var first := k !in a.spool && k in agent.spool;
            var c := w.channels[k];
            OnceInv(Touched(w, cancel.node, agent, k, Noted(c.(tombstoned := c.tombstoned || first), agent, k)))
  {
    hide AgentInv, AfterCancel, Once, OwnerOf, LocalAt, LocalOf, Noted, AgentKeptBut;
    var n := cancel.node;
    var a, c := w.agents[n], w.channels[k];
    var agent := AfterCancel(a, k, cancel.spec, written);
    var next := c.(tombstoned := c.tombstoned || (k !in a.spool && k in agent.spool));
    OnceMessage(w, k);
    CancelTouches(a, k, cancel.spec, written);
    CancelKeepsInv(a, k, cancel.spec, written);
    CancelledOnce(n, w.db.attempts[k], a, k, c, cancel.spec, written);
    NotesDoNotMatter(n, w.db.attempts[k], agent, k, next, agent);
    TouchKeepsOnce(w, n, agent, k, Noted(next, agent, k));
  }

  lemma CancelledOnce(n: Name, row: Attempt, a: Agent, k: Key, c: Channel, spec: Spec, written: WriteResult)
    requires Once(LocalOf(n, row, a, k, c)) && spec == row.spec
    ensures var agent := AfterCancel(a, k, spec, written);
            Once(LocalOf(n, row, agent, k, c.(tombstoned := c.tombstoned || (k !in a.spool && k in agent.spool))))
  {
  }

  lemma EventSentKeepsOnce(w: World, n: Name, k: Key, event: AttemptEvent)
    requires OnceInv(w) && n in w.agents && MayReport(w.agents[n], k, event)
    ensures var c := ChannelOf(w, k);
            OnceInv(Touched(w, n, w.agents[n], k, c.(sent := c.sent + {event})))
  {
    hide AgentInv, Once, OwnerOf, LocalAt, LocalOf, EventToSend, AgentsInv;
    OnceKnown(w, n, k);
    var c := ChannelOf(w, k);
    SentOnce(n, w.db.attempts[k], w.agents[n], k, c, event) by {
      if k in w.agents[n].spool && w.agents[n].spool[k].state.IsTerminal() {
        EndedIsDecided(w.agents[n], k);
      }
    }
    TouchKeepsOnce(w, n, w.agents[n], k, c.(sent := c.sent + {event}));
  }

  lemma SentOnce(n: Name, row: Attempt, a: Agent, k: Key, c: Channel, event: AttemptEvent)
    requires Once(LocalOf(n, row, a, k, c)) && MayReport(a, k, event)
    requires k in a.spool && a.spool[k].state.IsTerminal() ==> !Undecided(a, k)
    ensures Once(LocalOf(n, row, a, k, c.(sent := c.sent + {event})))
  {
  }

  // The agents

  /** What an agent holds of an attempt, but for the memory of a task at work. */
  predicate PlainAt(a: Agent, k: Key, last: nat, spec: Spec) {
    && (k in a.spool ==> Plain(a.spool[k], last) && a.spool[k].spec == spec)
    && (InStage(a, k, Ended) ==> Plain(a.tasks[k].memory, last))
  }

  lemma WorkIsPlain(a: Agent, k: Key, last: nat, spec: Spec)
    requires AgentInv(a) && AtWork(a, k) && PlainAt(a, k, last, spec)
    ensures k in a.spool && Plain(a.tasks[k].memory, last) && Plain(Merged(a, k), last)
    ensures a.tasks[k].memory.spec == spec && Merged(a, k).spec == spec
    ensures InStage(a, k, Publishing) ==> a.tasks[k].memory.state.Running?
  {
    if InStage(a, k, Publishing) {
      assert PublishingOk(a.tasks[k].memory, a.spool[k]);
    } else {
      assert Live(a, k) && TaskOk(a.tasks[k], a.spool[k]);
    }
  }

  /** The agent still has a record of the attempt, nothing it holds is ahead, and only a spawn launches. */
  predicate StaysPlain(a: Agent, step: AgentStep, last: nat, spec: Spec)
    requires Enabled(a, step) && Advances(step)
  {
    var agent := After(a, step);
    && PlainAt(agent, step.key, last, spec) && step.key in a.spool && step.key in agent.spool
    && (InStage(agent, step.key, Starting) ==> InStage(a, step.key, Starting) && !step.SpawnStep?)
    && (step.SpawnStep? ==> InStage(a, step.key, Starting))
    && (Undecided(agent, step.key) ==> Undecided(a, step.key))
  }

  lemma StartIsPlain(a: Agent, step: AgentStep, last: nat, spec: Spec)
    requires step.SyncStep? || step.SpawnStep? || step.LaunchFailsStep? || step.FinishStep?
    requires AgentInv(a) && Enabled(a, step) && PlainAt(a, step.key, last, spec)
    ensures StaysPlain(a, step, last, spec)
  {
    hide AgentInv, Merged, GoesOnToPublish;
    WorkIsPlain(a, step.key, last, spec);
  }

  lemma PublishingIsPlain(a: Agent, step: AgentStep, last: nat, spec: Spec)
    requires step.CommitStep? || step.PersistStep? || step.PublishStep?
    requires AgentInv(a) && Enabled(a, step) && PlainAt(a, step.key, last, spec)
    ensures StaysPlain(a, step, last, spec)
  {
    hide AgentInv, Merged, GoesOnToPublish;
    WorkIsPlain(a, step.key, last, spec);
  }

  lemma BookkeepingIsPlain(a: Agent, step: AgentStep, last: nat, spec: Spec)
    requires step.NormalizeStep? || step.RecoverStep? || step.LogStep? || step.AbandonStep? || step.AcknowledgeStep?
    requires Enabled(a, step) && PlainAt(a, step.key, last, spec)
    requires step.AcknowledgeStep? ==> step.sequence <= last
    ensures StaysPlain(a, step, last, spec)
  {
  }

  lemma ActionIsPlain(a: Agent, step: AgentStep, last: nat, spec: Spec)
    requires AgentInv(a) && Enabled(a, step) && Advances(step) && PlainAt(a, step.key, last, spec)
    requires step.AcknowledgeStep? ==> step.sequence <= last
    ensures StaysPlain(a, step, last, spec)
  {
    hide AgentInv, Enabled, StaysPlain, PlainAt;
    match step
    case NormalizeStep(_, _) => BookkeepingIsPlain(a, step, last, spec);
    case RecoverStep(_, _) => BookkeepingIsPlain(a, step, last, spec);
    case LogStep(_, _, _) => BookkeepingIsPlain(a, step, last, spec);
    case AbandonStep(_, _, _, _) => BookkeepingIsPlain(a, step, last, spec);
    case AcknowledgeStep(_, _) => BookkeepingIsPlain(a, step, last, spec);
    case CommitStep(_, _) => PublishingIsPlain(a, step, last, spec);
    case PersistStep(_, _) => PublishingIsPlain(a, step, last, spec);
    case PublishStep(_, _) => PublishingIsPlain(a, step, last, spec);
    case _ => StartIsPlain(a, step, last, spec);
  }

  lemma ActionKeepsOnce(w: World, n: Name, step: AgentStep)
    requires OnceInv(w) && n in w.agents && Enabled(w.agents[n], step) && Advances(step)
    requires step.AcknowledgeStep? ==>
      step.key in w.db.attempts && step.sequence <= w.db.attempts[step.key].lastSequence
    ensures OnceInv(AfterAction(w, n, step))
  {
    hide AgentInv, OwnerOf, LocalAt, LocalOf, After, AgentKeptBut, Once, Noted, Enabled;
    var k, a := step.key, w.agents[n];
    var agent := After(a, step);
    StepIsKnown(a, step);
    OnceKnown(w, n, k);
    var row, c := w.db.attempts[k], ChannelOf(w, k);
    var next := c.(launches := c.launches + if step.SpawnStep? then 1 else 0);
    StepKeepsInv(a, step);
    StepTouches(a, step);
    ActedOnce(n, row, a, k, c, step);
    NotesDoNotMatter(n, row, agent, k, next, agent);
    TouchKeepsOnce(w, n, agent, k, Noted(next, agent, k));
  }

  lemma ActedOnce(n: Name, row: Attempt, a: Agent, k: Key, c: Channel, step: AgentStep)
    requires AgentInv(a) && Enabled(a, step) && Advances(step) && k == step.key
    requires step.AcknowledgeStep? ==> step.sequence <= row.lastSequence
    requires Once(LocalOf(n, row, a, k, c))
    ensures Once(LocalOf(n, row, After(a, step), k, c.(launches := c.launches + if step.SpawnStep? then 1 else 0)))
  {
    hide AgentInv, After, Enabled, Plain;
    ActionIsPlain(a, step, row.lastSequence, row.spec);
  }

  lemma RemovalKeepsOnce(w: World, n: Name, step: AgentStep)
    requires OnceInv(w) && n in w.agents && Enabled(w.agents[n], step)
    requires step.RetireStep? || step.ClearFenceStep?
    requires ChannelOf(w, step.key).starts == multiset{}
    ensures OnceInv(AfterAction(w, n, step))
  {
    hide AgentInv, OwnerOf, LocalAt, LocalOf, AgentKeptBut, OtherRecoverable, Once, Noted;
    var k, a := step.key, w.agents[n];
    var agent, c := After(a, step), ChannelOf(w, k);
    OnceKnown(w, n, k);
    RemovableIsFree(a, k);
    EndedIsDecided(a, k);
    StepKeepsInv(a, step);
    StepTouches(a, step);
    RemovedOnce(n, w.db.attempts[k], a, k, c);
    NotesDoNotMatter(n, w.db.attempts[k], agent, k, c, agent);
    assert c.(launches := c.launches + 0) == c;
    TouchKeepsOnce(w, n, agent, k, Noted(c, agent, k));
  }

  lemma RemovedOnce(n: Name, row: Attempt, a: Agent, k: Key, c: Channel)
    requires Once(LocalOf(n, row, a, k, c)) && k in a.spool && !Undecided(a, k) && c.starts == multiset{}
    requires a.spool[k].acknowledged >= a.spool[k].sequence
    ensures Once(LocalOf(n, row, a.(spool := Without(a.spool, k)), k, c))
  {
  }

  lemma DropKeepsOnce(w: World, n: Name, k: Key)
    requires OnceInv(w) && n in w.agents && Enabled(w.agents[n], DropStep(k))
    ensures OnceInv(AfterAction(w, n, DropStep(k)))
  {
    hide AgentInv, OwnerOf, LocalAt, LocalOf, AgentKeptBut, Once, Noted;
    var a, c := w.agents[n], ChannelOf(w, k);
    var agent := After(a, DropStep(k));
    OnceKnown(w, n, k);
    StepKeepsInv(a, DropStep(k));
    StepTouches(a, DropStep(k));
    DroppedOnce(n, w.db.attempts[k], a, k, c);
    NotesDoNotMatter(n, w.db.attempts[k], agent, k, c, agent);
    assert c.(launches := c.launches + 0) == c;
    TouchKeepsOnce(w, n, agent, k, Noted(c, agent, k));
  }

  lemma DroppedOnce(n: Name, row: Attempt, a: Agent, k: Key, c: Channel)
    requires Once(LocalOf(n, row, a, k, c)) && InStage(a, k, Ended)
    ensures Once(LocalOf(n, row, a.(tasks := Without(a.tasks, k)), k, c))
  {
  }

  lemma RestartKeepsOnce(w: World, n: Name)
    requires OnceInv(w) && n in w.agents
    ensures OnceInv(w.(agents := w.agents[n := w.agents[n].(tasks := map[])]))
  {
    hide AgentInv, OwnerOf, RunsKnown, Once, LocalOf;
    var after := w.(agents := w.agents[n := w.agents[n].(tasks := map[])]);
    EmptyKeepsInv(w.agents[n]);
    forall m, k | m in after.agents && Knows(after.agents[m], k)
      ensures k in after.db.attempts && OwnerOf(after.db, k) == m
    {
      assert Knows(w.agents[m], k);
    }
    forall k | k in after.db.attempts ensures Once(LocalAt(after, k)) {
      var m := OwnerOf(w.db, k);
      assert Once(LocalAt(w, k));
      StoppedOnce(m, w.db.attempts[k], AgentAt(w, m), k, ChannelOf(w, k));
    }
  }

  lemma StoppedOnce(n: Name, row: Attempt, a: Agent, k: Key, c: Channel)
    requires Once(LocalOf(n, row, a, k, c))
    ensures Once(LocalOf(n, row, a.(tasks := map[]), k, c))
  {
  }

  // Every history

  lemma StepKeepsOnce(w: World, step: WorldStep, calendar: Calendar)
    requires OnceInv(w) && CanStep(w, step)
    ensures OnceInv(AfterWorld(w, step, calendar))
  {
    hide OnceInv, Commit, Poll, PollPicks, AfterAccept, AfterCancel, AfterEvent, AfterAction, WellPosed, MayReport;
    match step
    case ServerActs(txn) => ServerKeepsOnce(w, txn, calendar);
    case AgentPolls(node, now, capacity, atomicReady, choice, withIdentity) =>
      PollKeepsOnce(w, node, now, capacity, atomicReady, choice, withIdentity);
    case StartArrives(k, start, admission) => StartArrivesKeepsOnce(w, k, start, admission);
    case StartLost(k, start) => StartLostKeepsOnce(w, k, start);
    case CancelArrives(k, cancel, written) => CancelArrivesKeepsOnce(w, k, cancel, written);
    case EventSent(n, k, event) => EventSentKeepsOnce(w, n, k, event);
    case EventArrives(k, event, now) => EventArrivesKeepsOnce(w, k, event, now, calendar);
    case EventAnswered(n, k, sequence) => ActionKeepsOnce(w, n, AcknowledgeStep(k, sequence));
    case AgentActs(n, action) =>
      match action
      case RestartStep => RestartKeepsOnce(w, n);
      case RetireStep(_) => RemovalKeepsOnce(w, n, action);
      case ClearFenceStep(_, _, _, _) => RemovalKeepsOnce(w, n, action);
      case DropStep(k) => DropKeepsOnce(w, n, k);
      case _ => ActionKeepsOnce(w, n, action);
  }

  lemma {:induction false} ReachableKeepsOnce(w: World, steps: seq<WorldStep>, after: World, calendar: Calendar)
    requires OnceInv(w) && Reaches(w, steps, after, calendar)
    ensures OnceInv(after)
    decreases |steps|
  {
    hide OnceInv, CanStep, AfterWorld;
    if steps != [] {
      StepKeepsOnce(w, steps[0], calendar);
      ReachableKeepsOnce(AfterWorld(w, steps[0], calendar), steps[1..], after, calendar);
    }
  }

  lemma FreshIsOnce(w: World)
    requires Fresh(w)
    ensures OnceInv(w)
  {
  }

  // Counting launches

  predicate Launches(step: WorldStep, k: Key) {
    step.AgentActs? && step.step.SpawnStep? && step.step.key == k
  }

  function LaunchCount(steps: seq<WorldStep>, k: Key): nat
    decreases |steps|
  {
    if steps == [] then 0 else (if Launches(steps[0], k) then 1 else 0) + LaunchCount(steps[1..], k)
  }

  lemma StepCountsLaunch(w: World, step: WorldStep, k: Key, calendar: Calendar)
    requires CanStep(w, step)
    ensures ChannelOf(AfterWorld(w, step, calendar), k).launches ==
            ChannelOf(w, k).launches + if Launches(step, k) then 1 else 0
  {
    hide Commit, Poll, PollPicks, AfterAccept, AfterCancel, AfterEvent, WellPosed, After, Enabled, MayReport, Noted;
    NotedKeepsLaunches();
  }

  lemma NotedKeepsLaunches()
    ensures forall c, a, k :: Noted(c, a, k).launches == c.launches
  {
  }

  lemma {:induction false} LaunchesAreCounted(w: World, steps: seq<WorldStep>, after: World, k: Key, calendar: Calendar)
    requires Reaches(w, steps, after, calendar)
    ensures ChannelOf(after, k).launches == ChannelOf(w, k).launches + LaunchCount(steps, k)
    decreases |steps|
  {
    hide CanStep, AfterWorld;
    if steps != [] {
      StepCountsLaunch(w, steps[0], k, calendar);
      LaunchesAreCounted(AfterWorld(w, steps[0], calendar), steps[1..], after, k, calendar);
    }
  }

  /** Each attempt starts a process at most once, over every history of the system and whatever writes fail. */
  lemma AtMostOneLaunch(w: World, steps: seq<WorldStep>, after: World, k: Key, calendar: Calendar)
    requires Fresh(w) && Reaches(w, steps, after, calendar)
    ensures LaunchCount(steps, k) <= 1
  {
    hide OnceInv, Reaches;
    FreshIsOnce(w);
    ReachableKeepsOnce(w, steps, after, calendar);
    LaunchesAreCounted(w, steps, after, k, calendar);
    LaunchesBounded(after, k);
  }

  lemma LaunchesBounded(w: World, k: Key)
    requires OnceInv(w)
    ensures ChannelOf(w, k).launches <= 1
  {
    hide AgentInv, Owned;
    if k in w.channels {
      assert Once(LocalAt(w, k));
    }
  }

  /**
    In any reached state, a process about to start is its attempt's first, on the run's
    node and for the spec dispatched, and no tombstone came before it.
   */
  lemma LaunchIsFirst(
    w: World, steps: seq<WorldStep>, after: World, n: Name, k: Key, written: WriteResult, calendar: Calendar)
    requires Fresh(w) && Reaches(w, steps, after, calendar)
    requires n in after.agents && Enabled(after.agents[n], SpawnStep(k, written))
    ensures k in after.db.attempts && OwnerOf(after.db, k) == n
    ensures after.agents[n].tasks[k].memory.spec == after.db.attempts[k].spec
    ensures LaunchCount(steps, k) == 0 && !ChannelOf(after, k).tombstoned
  {
    hide OnceInv, Reaches;
    FreshIsOnce(w);
    ReachableKeepsOnce(w, steps, after, calendar);
    LaunchesAreCounted(w, steps, after, k, calendar);
    OnceKnown(after, n, k);
    StartingSpec(n, after.db.attempts[k], after.agents[n], k, ChannelOf(after, k));
  }

  lemma StartingSpec(n: Name, row: Attempt, a: Agent, k: Key, c: Channel)
    requires AgentInv(a) && Once(LocalOf(n, row, a, k, c)) && InStage(a, k, Starting)
    ensures a.tasks[k].memory.spec == row.spec
  {
    assert Live(a, k) && TaskOk(a.tasks[k], a.spool[k]);
  }
}
