/**
  The delivery protocol of a single attempt: the server's row, the owner's durable
  record, and everything in flight between them. Messages may be lost, repeated,
  delayed and reordered; the invariant below is what survives that.
 */
module Delivery {
  import opened Common
  import opened Lifecycle
  import opened StoreModel
  import opened Spool
  import opened AgentModel
  import opened AgentHistories

  datatype StartMessage = StartMessage(node: Name, spec: Spec, identity: Option<Name>)

  datatype CancelMessage = CancelMessage(node: Name, spec: Spec)

  /**
    What an attempt's messages and history amount to. Each copy of a start is in flight
    until it is consumed or lost; cancellations and events, once sent, may arrive any number of
    times, ever after. `durable` holds every state and sequence number its record has
    had on disk, `lost` those that ended only in memory because their write failed,
    `launches` counts its processes, and `tombstoned` remembers a cancellation that
    came before any record.
   */
  datatype Channel = Channel(
    starts: multiset<StartMessage>, cancels: set<CancelMessage>, sent: set<AttemptEvent>, durable: set<AttemptEvent>,
    lost: set<AttemptEvent>, launches: nat, tombstoned: bool)

  const QUIET: Channel := Channel(multiset{}, {}, {}, {}, {}, 0, false)

  /**
    One attempt as its protocol sees it. `live` says a process is yet to start or may
    be alive, or that nothing on disk tells yet that it was; `starting` that it has not
    been spawned, and `memory` is the outcome an ended task still reports.
   */
  datatype Local = Local(
    owner: Name, row: Attempt, record: Option<SpoolRecord>, live: bool, starting: bool, memory: Option<SpoolRecord>,
    channel: Channel)

  function Entry(r: SpoolRecord): AttemptEvent {
    AttemptEvent(r.sequence, r.state)
  }

  predicate RecordShape(r: SpoolRecord) {
    && r.sequence >= 1 && !r.state.Queued?
    && (r.state.Accepted? ==> r.sequence == 1) && (r.state.Running? || r.state.Rejected? ==> r.sequence == 2)
  }

  predicate RowShape(a: Attempt) {
    && (a.state.Queued? <==> a.lastSequence == 0)
    && (a.state.Accepted? ==> a.lastSequence == 1) && (a.state.Running? ==> a.lastSequence == 2)
    && !a.state.Rejected?
  }

  predicate EventShape(e: AttemptEvent, a: Attempt) {
    && e.sequence >= 1 && !e.state.Queued?
    && (e.state.Accepted? ==> e.sequence == 1) && (e.state.Running? || e.state.Rejected? ==> e.sequence == 2)
    && (e.state.Running? || e.state.Rejected? ==> a.lastSequence >= 1)
  }

  /** Reported events are entries of the durable history, but for the Accepted that precedes a rejection. */
  predicate FromHistory(e: AttemptEvent, durable: set<AttemptEvent>) {
    e in durable || (e == AttemptEvent(1, Accepted) && AttemptEvent(2, Rejected) in durable)
  }

  predicate EventsFit(l: Local) {
    forall e :: e in l.channel.sent ==>
      EventShape(e, l.row) && (FromHistory(e, l.channel.durable) || e in l.channel.lost)
  }

  predicate MessagesFit(l: Local) {
    && (forall m :: m in l.channel.starts ==> m.node == l.owner && m.spec == l.row.spec)
    && (forall m :: m in l.channel.cancels ==> m.node == l.owner && m.spec == l.row.spec)
  }

  /** A record that has moved on was accepted first, unless it was rejected at once. */
  predicate Seeded(r: SpoolRecord, durable: set<AttemptEvent>) {
    r.sequence > 1 ==> AttemptEvent(1, Accepted) in durable || AttemptEvent(2, Rejected) in durable
  }

  predicate RecordFitsHistory(r: SpoolRecord, l: Local) {
    && RecordShape(r) && r.spec == l.row.spec && r.acknowledged <= l.row.lastSequence
    && Entry(r) in l.channel.durable && Seeded(r, l.channel.durable)
  }

  predicate MemoryFitsHistory(m: SpoolRecord, l: Local) {
    && RecordShape(m) && m.spec == l.row.spec && m.acknowledged <= l.row.lastSequence && !m.state.Rejected?
    && Entry(m) in l.channel.durable + l.channel.lost && Seeded(m, l.channel.durable)
  }

  /** The server has the outcome: nothing newer is on disk, in memory or in flight. */
  predicate OutcomeKnown(l: Local) {
    && l.row.state.IsTerminal()
    && (l.record.Some? ==> Number(l.record.value) <= l.row.lastSequence && !l.record.value.state.Rejected?)
    && (l.memory.Some? ==> l.memory.value.sequence <= l.row.lastSequence)
    && (forall e :: e in l.channel.sent ==> e.sequence <= l.row.lastSequence)
    && (l.record.None? ==> l.channel.starts == multiset{})
    && !l.live
  }

  /** The owner has never heard of the attempt, or remembers nothing because it never did anything. */
  predicate Unheard(l: Local) {
    && l.row.state.Queued? && l.record.None? && !l.live && l.memory.None?
    && l.channel.sent == {} && l.channel.launches == 0 && !l.channel.tombstoned
  }

  /** Terminal reports carry the attempt's number, and there are none while a process may be alive. */
  predicate InProgress(l: Local) {
    && !l.row.state.IsTerminal() && l.record.Some?
    && var r := l.record.value;
       && l.row.lastSequence < Number(r) && (r.state.IsTerminal() ==> !l.live)
       && (forall e :: e in l.channel.sent ==>
             && (e.state.IsTerminal() ==>
                 e.sequence == Number(r) && !l.live && (r.state.Rejected? ==> e.state.Rejected?))
             && (!e.state.IsTerminal() ==> e.sequence < Number(r)))
       && (l.memory.Some? ==>
             && !l.live && !r.state.Rejected?
             && var m := l.memory.value;
                if m.state.IsTerminal() then m.sequence == Number(r) else m.sequence < Number(r))
  }

  predicate KeyInv(l: Local) {
    && RowShape(l.row) && EventsFit(l) && MessagesFit(l)
    && (l.record.Some? ==> RecordFitsHistory(l.record.value, l))
    && (l.memory.Some? ==> MemoryFitsHistory(l.memory.value, l))
    && (forall e :: e in l.channel.lost ==> e.sequence >= 2)
    && (!l.row.state.Queued? ==> AttemptEvent(l.row.lastSequence, l.row.state) in l.channel.sent)
    && (OutcomeKnown(l) || Unheard(l) || InProgress(l))
    && l.channel.launches <= 1
    && (l.starting ==> l.live && l.channel.launches == 0 && !l.channel.tombstoned)
  }

  // Steps on one attempt

  /** How a record may change: bookkeeping, anything under one number, or the progress of a live task. */
  predicate RecordAdvances(r: SpoolRecord, after: SpoolRecord, last: nat, live: bool) {
    && after.spec == r.spec && after.acknowledged <= last && RecordShape(after)
    && (|| Entry(after) == Entry(r)
        || (&& !after.state.Rejected? && !r.state.Rejected?
            && (Number(after) == Number(r) || (live && !r.state.IsTerminal() && Number(r) <= Number(after)))))
  }

  /** What an ended task keeps in memory, given the record it left on disk. */
  predicate MemoryAgrees(m: SpoolRecord, r: SpoolRecord, last: nat) {
    && m.spec == r.spec && m.acknowledged <= last && RecordShape(m) && !m.state.Rejected? && m.sequence >= 2
    && !r.state.Rejected? && (if m.state.IsTerminal() then m.sequence == Number(r) else m.sequence < Number(r))
  }

  function Remembered(c: Channel, memory: Option<SpoolRecord>): Channel {
    if memory.Some? && Entry(memory.value) !in c.durable then c.(lost := c.lost + {Entry(memory.value)}) else c
  }

  function Advanced(
    l: Local, r: SpoolRecord, live: bool, starting: bool, memory: Option<SpoolRecord>, launches: nat): Local
  {
    var c := l.channel.(durable := l.channel.durable + {Entry(r)}, launches := launches);
    Local(l.owner, l.row, Some(r), live, starting, memory, Remembered(c, memory))
  }

  lemma AdvanceKeepsKey(
    l: Local, r: SpoolRecord, live: bool, starting: bool, memory: Option<SpoolRecord>, launches: nat)
    requires KeyInv(l) && l.record.Some? && RecordAdvances(l.record.value, r, l.row.lastSequence, l.live)
    requires live ==> l.live && memory.None?
    requires r.state.IsTerminal() ==> !live
    requires starting ==> l.starting && live && launches == l.channel.launches
    requires launches == l.channel.launches || (l.starting && launches == 1)
    requires memory.None? || memory == l.memory ||
             MemoryAgrees(memory.value, r, l.row.lastSequence)
    ensures KeyInv(Advanced(l, r, live, starting, memory, launches))
  {
    var after := Advanced(l, r, live, starting, memory, launches);
    SeedOfHistory(l, r);
    if memory.Some? && memory != l.memory {
      SeedOfMemory(l, r, memory.value);
    }
    AdvanceKeepsFits(l, r, live, starting, memory, launches);
    if OutcomeKnown(l) {
      assert OutcomeKnown(after);
    } else {
      AdvanceKeepsProgress(l, r, live, starting, memory, launches);
    }
  }

  lemma AdvanceKeepsFits(
    l: Local, r: SpoolRecord, live: bool, starting: bool, memory: Option<SpoolRecord>, launches: nat)
    requires KeyInv(l) && l.record.Some?
    ensures var after := Advanced(l, r, live, starting, memory, launches); EventsFit(after) && MessagesFit(after)
  {
    hide InProgress, OutcomeKnown, Unheard;
  }

  lemma AdvanceKeepsProgress(
    l: Local, r: SpoolRecord, live: bool, starting: bool, memory: Option<SpoolRecord>, launches: nat)
    requires InProgress(l) && RecordAdvances(l.record.value, r, l.row.lastSequence, l.live)
    requires live ==> l.live && memory.None?
    requires r.state.IsTerminal() ==> !live
    requires memory.None? || memory == l.memory ||
             MemoryAgrees(memory.value, r, l.row.lastSequence)
    ensures InProgress(Advanced(l, r, live, starting, memory, launches))
  {
  }

  lemma SeedOfHistory(l: Local, r: SpoolRecord)
    requires KeyInv(l) && l.record.Some? && RecordAdvances(l.record.value, r, l.row.lastSequence, l.live)
    ensures Seeded(r, l.channel.durable)
  {
    if r.sequence > 1 && l.record.value.sequence == 1 {
      assert l.record.value.state.Accepted?;
    }
  }

  lemma SeedOfMemory(l: Local, r: SpoolRecord, m: SpoolRecord)
    requires KeyInv(l) && l.record.Some? && RecordAdvances(l.record.value, r, l.row.lastSequence, l.live)
    requires MemoryAgrees(m, r, l.row.lastSequence)
    ensures Seeded(m, l.channel.durable)
  {
  }

  /** Accepting or rejecting a start that is in flight for an attempt without a record. */
  lemma AcceptKeepsKey(l: Local, m: StartMessage, r: SpoolRecord, live: bool)
    requires KeyInv(l) && m in l.channel.starts && l.record.None?
    requires r == AcceptedRecord(m.spec, m.identity) || (r == RejectedRecord(m.spec, m.identity) && !live)
    ensures l.memory.None?
    ensures var consumed := l.(channel := l.channel.(starts := l.channel.starts - multiset{m}));
            KeyInv(Advanced(consumed, r, live, live, None, l.channel.launches))
  {
    assert !OutcomeKnown(l);
  }

  lemma ConsumeKeepsKey(l: Local, m: StartMessage)
    requires KeyInv(l)
    ensures KeyInv(l.(channel := l.channel.(starts := l.channel.starts - multiset{m})))
  {
    var after := l.(channel := l.channel.(starts := l.channel.starts - multiset{m}));
    assert OutcomeKnown(l) ==> OutcomeKnown(after);
  }

  lemma TombstoneKeepsKey(l: Local, m: CancelMessage)
    requires KeyInv(l) && m in l.channel.cancels && l.record.None?
    ensures var r := CancellationTombstone(m.spec);
            var known := l.(channel := l.channel.(tombstoned := true));
            KeyInv(Advanced(known, r, false, false, l.memory, l.channel.launches))
  {
    if l.row.state.IsTerminal() {
      assert AttemptEvent(l.row.lastSequence, l.row.state) in l.channel.sent;
    }
  }

  function Reporting(l: Local, e: AttemptEvent): Local {
    l.(channel := l.channel.(sent := l.channel.sent + {e}))
  }

  lemma SendKeepsKey(l: Local, e: AttemptEvent)
    requires KeyInv(l)
    requires || (l.record.Some? && EventToSend(l.record.value) == Some(e))
             || (l.memory.Some? && EventToSend(l.memory.value) == Some(e))
    ensures KeyInv(Reporting(l, e))
  {
    var after := Reporting(l, e);
    assert EventShape(e, l.row);
    assert EventsFit(after);
  }

  lemma PollKeepsKey(l: Local, row: Attempt, starts: multiset<StartMessage>, cancels: set<CancelMessage>)
    requires KeyInv(l) && row.state == l.row.state && row.lastSequence == l.row.lastSequence && row.spec == l.row.spec
    requires forall m :: m in starts ==> m.node == l.owner && m.spec == l.row.spec
    requires forall m :: m in cancels ==> m.node == l.owner && m.spec == l.row.spec
    requires starts != multiset{} ==> l.row.state.Queued?
    ensures KeyInv(l.(row := row, channel := l.channel.(
                     starts := l.channel.starts + starts, cancels := l.channel.cancels + cancels)))
  {
    var after := l.(row := row, channel := l.channel.(
                      starts := l.channel.starts + starts, cancels := l.channel.cancels + cancels));
    assert EventsFit(after) && MessagesFit(after);
    assert OutcomeKnown(l) ==> OutcomeKnown(after);
    assert InProgress(l) ==> InProgress(after);
  }

  lemma NewRowKeepsKey(owner: Name, row: Attempt, m: StartMessage)
    requires row.state.Queued? && row.lastSequence == 0 && m.node == owner && m.spec == row.spec
    ensures KeyInv(Local(owner, row, None, false, false, None, QUIET.(starts := multiset{m})))
  {
  }

  /** An event in flight is stale, applies, or is a rejection after the acceptance reported before it. */
  lemma EventIsLegal(l: Local, e: AttemptEvent)
    requires KeyInv(l) && e in l.channel.sent && e.sequence > l.row.lastSequence
    ensures !l.row.state.IsTerminal() && InProgress(l)
    ensures ProjectAttemptEvent(l.row.state, e).Refused? <==> e.state.Rejected?
    ensures e.state.Rejected? ==> l.row.state.Accepted?
  {
    assert EventShape(e, l.row);
  }

  lemma EventKeepsKey(l: Local, e: AttemptEvent, row: Attempt)
    requires KeyInv(l) && e in l.channel.sent && e.sequence > l.row.lastSequence && !e.state.Rejected?
    requires row == l.row.(state := e.state, lastSequence := e.sequence)
    ensures KeyInv(l.(row := row))
  {
    EventIsLegal(l, e);
    var after := l.(row := row);
    assert EventShape(e, l.row);
    assert EventsFit(after) by {
      forall f | f in l.channel.sent ensures EventShape(f, row) {
        assert EventShape(f, l.row);
      }
    }
    if e.state.IsTerminal() {
      assert OutcomeKnown(after);
    } else {
      assert InProgress(after);
    }
  }

  lemma RetireKeepsKey(l: Local)
    requires KeyInv(l) && l.record.Some? && l.channel.starts == multiset{} && !l.live
    requires l.record.value.state.IsTerminal() && l.record.value.acknowledged >= l.record.value.sequence
    ensures KeyInv(l.(record := None))
  {
    AcknowledgedOutcomeIsKnown(l);
    assert OutcomeKnown(l.(record := None));
  }

  /** An acknowledged terminal record means the server has its outcome. */
  lemma AcknowledgedOutcomeIsKnown(l: Local)
    requires KeyInv(l) && l.record.Some?
    requires l.record.value.state.IsTerminal() && l.record.value.acknowledged >= l.record.value.sequence
    ensures OutcomeKnown(l)
  {
  }

  lemma StoppedKeepsKey(l: Local)
    requires KeyInv(l)
    ensures KeyInv(l.(live := false, starting := false, memory := None))
  {
    var after := l.(live := false, starting := false, memory := None);
    assert EventsFit(after) && MessagesFit(after);
  }

  lemma DropKeepsKey(l: Local)
    requires KeyInv(l)
    ensures KeyInv(l.(memory := None))
  {
    var after := l.(memory := None);
    assert EventsFit(after) && MessagesFit(after);
  }

  /** The server never learns of a rejection, so it is never acknowledged. */
  lemma RejectedIsStuck(l: Local)
    requires KeyInv(l) && l.record.Some? && l.record.value.state.Rejected?
    ensures !l.row.state.IsTerminal() && l.row.lastSequence <= 1
    ensures l.record.value.acknowledged < l.record.value.sequence
  {
  }
}
