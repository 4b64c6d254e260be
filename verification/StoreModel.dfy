/**
  The server's tables and, for each `Store` transaction, the state it commits.

  A transaction is atomic: it either commits the state given here or, on an error,
  leaves every table as it was. Where the source orders candidate rows and takes the
  first, the choice is an argument constrained only to be some matching row.
 */
module StoreModel {
  import opened Common
  import opened Lifecycle
  import opened Schedule

  type Name = string
  type RunId = nat

  datatype Key = Key(run: RunId, no: nat)

  datatype PublicationMode = Direct | Atomic

  /** A mirror document; equality stands for equality of its hash. */
  datatype Document = Document(
    enabled: bool, schedule: Option<ScheduleConfig>, mode: PublicationMode,
    maxAttempts: nat, retryDelaySeconds: nat, body: string)
  {
    predicate Valid() {
      1 <= maxAttempts <= 10 && retryDelaySeconds <= 86400
    }
  }

  datatype Mirror = Mirror(managed: bool, enabled: bool, owner: Name, generation: nat)

  datatype Generation = Generation(owner: Name, document: Document)

  datatype GenerationKey = GenerationKey(mirror: Name, generation: nat)

  /** A schedule row; the configuration it was armed for stands for `schedule_hash`. */
  datatype ScheduleRow = ScheduleRow(config: ScheduleConfig, runtime: ScheduleRuntime)

  datatype RunTrigger = Manual | Scheduled

  datatype Run = Run(
    mirror: Name, generation: nat, owner: Name, trigger: RunTrigger, state: RunState, createdAt: int,
    maxAttempts: nat, retryDelayMs: nat, attemptCount: nat, scheduledFor: Option<int>,
    retryDueAt: Option<int>, cancelAt: Option<int>, request: Option<string>)

  /** What an attempt executes; equality stands for equality of the spec hash. */
  datatype Spec = Spec(key: Key, mirror: Name, document: Document)

  datatype Attempt = Attempt(state: AttemptState, lastSequence: nat, spec: Spec, dispatches: nat, lastDispatchAt: int)

  datatype Db = Db(
    revision: nat,
    mirrors: map<Name, Mirror>,
    generations: map<GenerationKey, Generation>,
    schedules: map<Name, ScheduleRow>,
    runs: map<RunId, Run>,
    attempts: map<Key, Attempt>)

  const EMPTY_DB: Db := Db(0, map[], map[], map[], map[], map[])

  predicate Eligible(db: Db, m: Name) {
    m in db.mirrors && db.mirrors[m].managed && db.mirrors[m].enabled
  }

  function CurrentDocument(db: Db, m: Name): Option<Document> {
    if m in db.mirrors && GenerationKey(m, db.mirrors[m].generation) in db.generations
    then Some(db.generations[GenerationKey(m, db.mirrors[m].generation)].document)
    else None
  }

  predicate IsActiveRunOf(db: Db, m: Name, id: RunId) {
    id in db.runs && db.runs[id].mirror == m && db.runs[id].state.IsActive()
  }

  predicate HasActiveRun(db: Db, m: Name) {
    exists id :: id in db.runs && IsActiveRunOf(db, m, id)
  }

  /** A dispatched attempt whose outcome the server does not have yet. */
  predicate LiveAttempt(db: Db, k: Key) {
    k in db.attempts && db.attempts[k].dispatches > 0 && !db.attempts[k].state.IsTerminal()
  }

  predicate HasDispatched(db: Db, id: RunId) {
    exists k :: k in db.attempts && k.run == id && db.attempts[k].dispatches > 0
  }

  function RearmRow(schedules: map<Name, ScheduleRow>, m: Name, next: int, now: int): map<Name, ScheduleRow> {
    if m in schedules
    then schedules[m := ScheduleRow(schedules[m].config, ScheduleRuntime(Some(next), Some(now), false, None))]
    else schedules
  }

  function ClearIntent(schedules: map<Name, ScheduleRow>, m: Name): map<Name, ScheduleRow> {
    if m in schedules
    then schedules[m := schedules[m].(
                     runtime := schedules[m].runtime.(catchUpPending := false, catchUpSince := None))]
    else schedules
  }

  /** The interval a run re-arms when it ends: only on a mirror still eligible under the same owner. */
  function TerminalRearm(db: Db, r: Run, now: int, calendar: Calendar): Option<int> {
    if !Eligible(db, r.mirror) || db.mirrors[r.mirror].owner != r.owner then None
    else match CurrentDocument(db, r.mirror)
      case None => None
      case Some(document) =>
        match document.schedule
        case None => None
        case Some(schedule) => RearmInterval(schedule, now, calendar)
  }

  function ArmWith(schedules: map<Name, ScheduleRow>, m: Name, next: Option<int>, now: int): map<Name, ScheduleRow> {
    if next.Some? then RearmRow(schedules, m, next.value, now) else schedules
  }

  // Manual runs

  datatype ManualOutcome = Created(id: RunId) | Existing(id: RunId)
    | MirrorNotFound | MirrorIneligible | MirrorBusy | RequestConflict

  predicate IsRunOfRequest(db: Db, request: string, id: RunId) {
    id in db.runs && db.runs[id].request == Some(request)
  }

  /** `prior` is the run already carrying the request id, if any; `newId` the new run id. */
  function ManualResult(db: Db, m: Name, prior: Option<RunId>, newId: RunId): ManualOutcome {
    if prior.Some? then
      if prior.value in db.runs && db.runs[prior.value].mirror == m then Existing(prior.value) else RequestConflict
    else if CurrentDocument(db, m).None? then MirrorNotFound
    else if !Eligible(db, m) then MirrorIneligible
    else if HasActiveRun(db, m) then MirrorBusy
    else Created(newId)
  }

  function AfterManual(db: Db, m: Name, request: string, prior: Option<RunId>, newId: RunId, now: int): Db {
    if ManualResult(db, m, prior, newId).Created? then
      var mirror := db.mirrors[m];
      var document := CurrentDocument(db, m).value;
      var r := Run(m, mirror.generation, mirror.owner, Manual, Pending, now, document.maxAttempts,
                   document.retryDelaySeconds * 1000, 0, None, None, None, Some(request));
      db.(runs := db.runs[newId := r], schedules := ClearIntent(db.schedules, m))
    else db
  }

  // Poll

  datatype PollAction =
    | StartAttempt(key: Key, mirror: Name, spec: Spec)
    | CancelAttempt(key: Key, spec: Spec)

  datatype PollChoice =
    | DeliverCancel(key: Key)
    | Redeliver(key: Key)
    | NoCapacity
    | StartManual(id: RunId)
    | StartRetry(id: RunId)
    | StartScheduled(mirror: Name, newId: RunId)
    | NothingDue

  predicate CancelCandidate(db: Db, node: Name, k: Key) {
    && LiveAttempt(db, k) && k.run in db.runs
    && db.runs[k.run].owner == node && db.runs[k.run].state.IsActive()
    && db.runs[k.run].cancelAt.Some? && k.no == db.runs[k.run].attemptCount
  }

  predicate RedeliveryCandidate(db: Db, node: Name, k: Key) {
    && k in db.attempts && k.run in db.runs
    && db.runs[k.run].owner == node && db.runs[k.run].state.IsActive()
    && db.attempts[k].state.Queued? && db.attempts[k].dispatches > 0
  }

  predicate ManualCandidate(db: Db, node: Name, id: RunId) {
    && id in db.runs && db.runs[id].owner == node && db.runs[id].state.Pending? && db.runs[id].trigger.Manual?
    && Eligible(db, db.runs[id].mirror)
    && !exists k :: k in db.attempts && k.run == id
  }

  predicate RetryCandidate(db: Db, node: Name, now: int, id: RunId) {
    && id in db.runs && db.runs[id].owner == node && db.runs[id].state.RunRunning?
    && db.runs[id].retryDueAt.Some? && db.runs[id].retryDueAt.value <= now
    && db.runs[id].cancelAt.None? && Eligible(db, db.runs[id].mirror)
    && db.mirrors[db.runs[id].mirror].owner == db.runs[id].owner
    && db.runs[id].attemptCount < db.runs[id].maxAttempts
  }

  predicate ScheduledCandidate(db: Db, node: Name, m: Name) {
    && m in db.schedules && Eligible(db, m) && db.mirrors[m].owner == node
    && db.schedules[m].runtime.catchUpPending && db.schedules[m].runtime.catchUpSince.Some?
    && !HasActiveRun(db, m)
  }

  predicate AnyCancel(db: Db, node: Name) {
    exists k :: k in db.attempts && CancelCandidate(db, node, k)
  }

  predicate AnyRedelivery(db: Db, node: Name) {
    exists k :: k in db.attempts && RedeliveryCandidate(db, node, k)
  }

  predicate AnyManual(db: Db, node: Name) {
    exists id :: id in db.runs && ManualCandidate(db, node, id)
  }

  predicate AnyRetry(db: Db, node: Name, now: int) {
    exists id :: id in db.runs && RetryCandidate(db, node, now, id)
  }

  predicate AnyScheduled(db: Db, node: Name) {
    exists m :: m in db.schedules && ScheduledCandidate(db, node, m)
  }

  /** The priority order of `poll_action`: each choice is open only when every earlier kind has no candidate. */
  predicate PollPicks(db: Db, node: Name, now: int, capacity: bool, choice: PollChoice) {
    if choice.DeliverCancel? then CancelCandidate(db, node, choice.key)
    else
      && !AnyCancel(db, node)
      && if choice.Redeliver? then RedeliveryCandidate(db, node, choice.key)
      else
        && !AnyRedelivery(db, node)
        && if choice.NoCapacity? then !capacity
        else
          && capacity
          && if choice.StartManual? then ManualCandidate(db, node, choice.id)
          else
            && !AnyManual(db, node)
            && if choice.StartRetry? then RetryCandidate(db, node, now, choice.id)
            else
              && !AnyRetry(db, node, now)
              && if choice.StartScheduled? then
                   ScheduledCandidate(db, node, choice.mirror) && choice.newId !in db.runs
                 else !AnyScheduled(db, node)
  }

  /** `persist_dispatch`; the policy comes from the document the run was created under. */
  function PersistDispatch(db: Db, id: RunId, no: nat, document: Document, now: int): Db
    requires id in db.runs
  {
    var r := db.runs[id];
    var policed :=
      if r.trigger.Scheduled?
      then r.(maxAttempts := document.maxAttempts, retryDelayMs := document.retryDelaySeconds * 1000)
      else r;
    var spec := Spec(Key(id, no), r.mirror, document);
    db.(runs := db.runs[id := policed.(attemptCount := no, retryDueAt := None)],
        attempts := db.attempts[Key(id, no) := Attempt(Queued, 0, spec, 1, now)])
  }

  /** The pending run a scheduled candidate becomes, inside the same transaction. */
  function Materialize(db: Db, m: Name, newId: RunId, now: int): Db
    requires m in db.mirrors && m in db.schedules
  {
    var r := Run(m, db.mirrors[m].generation, db.mirrors[m].owner, Scheduled, Pending, now, 1, 0, 0,
                 db.schedules[m].runtime.catchUpSince, None, None, None);
    db.(runs := db.runs[newId := r], schedules := ClearIntent(db.schedules, m))
  }

  function RunDocument(db: Db, id: RunId): Option<Document>
    requires id in db.runs
  {
    var at := GenerationKey(db.runs[id].mirror, db.runs[id].generation);
    if at in db.generations then Some(db.generations[at].document) else None
  }

  /** Whether `compile` yields a spec for this agent: atomic documents need the capability and a publication root. */
  predicate Dispatchable(db: Db, id: RunId, no: nat, atomicReady: bool)
    requires id in db.runs
  {
    && RunDocument(db, id).Some?
    && (RunDocument(db, id).value.mode.Direct? || atomicReady)
    && Key(id, no) !in db.attempts
  }

  datatype PollResult = PollResult(db: Db, action: Option<PollAction>)

  function Dispatch(original: Db, db: Db, id: RunId, no: nat, atomicReady: bool, now: int): PollResult
    requires id in db.runs
  {
    if Dispatchable(db, id, no, atomicReady) then
      var document := RunDocument(db, id).value;
      PollResult(PersistDispatch(db, id, no, document, now),
                 Some(StartAttempt(Key(id, no), db.runs[id].mirror, Spec(Key(id, no), db.runs[id].mirror, document))))
    else PollResult(original, None)
  }

  function Poll(db: Db, node: Name, now: int, capacity: bool, atomicReady: bool, choice: PollChoice): PollResult
    requires PollPicks(db, node, now, capacity, choice)
  {
    match choice
    case DeliverCancel(k) => PollResult(db, Some(CancelAttempt(k, db.attempts[k].spec)))
    case Redeliver(k) =>
      var a := db.attempts[k];
      PollResult(db.(attempts := db.attempts[k := a.(dispatches := a.dispatches + 1, lastDispatchAt := now)]),
                 Some(StartAttempt(k, db.runs[k.run].mirror, a.spec)))
    case NoCapacity => PollResult(db, None)
    case StartManual(id) => Dispatch(db, db, id, 1, atomicReady, now)
    case StartRetry(id) => Dispatch(db, db, id, db.runs[id].attemptCount + 1, atomicReady, now)
    case StartScheduled(m, newId) => Dispatch(db, Materialize(db, m, newId, now), newId, 1, atomicReady, now)
    case NothingDue => PollResult(db, None)
  }

  // Cancellation

  /** Whether the run's latest attempt is still out with an agent. */
  predicate Dispatched(db: Db, id: RunId)
    requires id in db.runs
  {
    LiveAttempt(db, Key(id, db.runs[id].attemptCount))
  }

  function CancelUndispatchedAttempts(attempts: map<Key, Attempt>, id: RunId): map<Key, Attempt> {
    map k | k in attempts ::
      if k.run == id && attempts[k].dispatches == 0 && !attempts[k].state.IsTerminal()
      then attempts[k].(state := Cancelled)
      else attempts[k]
  }

  function AfterCancelRequest(db: Db, id: RunId, now: int, calendar: Calendar): Db {
    if id !in db.runs || db.runs[id].state.IsTerminal() then db
    else
      var r := db.runs[id];
      var wanted := r.(cancelAt := Some(if r.cancelAt.Some? then r.cancelAt.value else now));
      if Dispatched(db, id) then db.(runs := db.runs[id := wanted])
      else
        db.(runs := db.runs[id := wanted.(state := RunCancelled, retryDueAt := None)],
            attempts := CancelUndispatchedAttempts(db.attempts, id),
            schedules := ArmWith(db.schedules, r.mirror, TerminalRearm(db, r, now, calendar), now))
  }

  // Events

  datatype EventOutcome = Missing | Stale | Illegal | Applied(retryScheduled: bool)

  function RetryContextOf(db: Db, key: Key, outcome: AttemptState, now: int): RetryContext
    requires key.run in db.runs && db.runs[key.run].mirror in db.mirrors
  {
    var r := db.runs[key.run];
    RetryContext(outcome, key.no, r.maxAttempts, r.retryDelayMs / 1000, r.cancelAt.Some?,
                 Eligible(db, r.mirror), db.mirrors[r.mirror].owner == r.owner, now)
  }

  /** Whether the event's row and everything its decision reads exist. */
  predicate EventResolves(db: Db, key: Key) {
    key in db.attempts && key.run in db.runs && CurrentDocument(db, db.runs[key.run].mirror).Some?
  }

  function EventResult(db: Db, key: Key, event: AttemptEvent, now: int): EventOutcome {
    if !EventResolves(db, key) then Missing
    else if event.sequence <= db.attempts[key].lastSequence then Stale
    else
      var projection := ProjectAttemptEvent(db.attempts[key].state, event);
      if projection.Refused? then Illegal
      else if projection.RunOutcome? then
        Applied(DecideRetry(RetryContextOf(db, key, event.state, now)).ScheduleRetry?)
      else Applied(false)
  }

  /** The run row after a terminal event: waiting for its retry, or ended. An already ended run is left alone. */
  function RunAfterOutcome(r: Run, decision: RetryDecision): Run {
    if !r.state.IsActive() then r
    else match decision
      case ScheduleRetry(dueAt) => r.(state := RunRunning, retryDueAt := Some(dueAt))
      case Final(outcome) => r.(state := outcome, retryDueAt := None)
  }

  function AfterEvent(db: Db, key: Key, event: AttemptEvent, now: int, calendar: Calendar): Db {
    if !EventResult(db, key, event, now).Applied? then db
    else
      var r := db.runs[key.run];
      var attempts := db.attempts[key := db.attempts[key].(state := event.state, lastSequence := event.sequence)];
      match ProjectAttemptEvent(db.attempts[key].state, event)
      case RunStarts =>
        db.(attempts := attempts,
            runs := db.runs[key.run := if r.state.Pending? then r.(state := RunRunning) else r])
      case RunOutcome(_) =>
        var decision := DecideRetry(RetryContextOf(db, key, event.state, now));
        db.(attempts := attempts,
            runs := db.runs[key.run := RunAfterOutcome(r, decision)],
            schedules :=
              if decision.Final?
              then ArmWith(db.schedules, r.mirror, TerminalRearm(db, r, now, calendar), now)
              else db.schedules)
      case _ => db.(attempts := attempts)
  }

  // Schedule ticks

  predicate DueRow(db: Db, m: Name, now: int) {
    && m in db.schedules && Eligible(db, m) && CurrentDocument(db, m).Some?
    && db.schedules[m].runtime.nextDue.Some? && db.schedules[m].runtime.nextDue.value <= now
  }

  predicate TickResolves(db: Db, now: int) {
    forall m :: m in db.schedules && DueRow(db, m, now) ==> CurrentDocument(db, m).value.schedule.Some?
  }

  function TickedRow(db: Db, m: Name, now: int, calendar: Calendar): ScheduleRow
    requires m in db.schedules && DueRow(db, m, now) && CurrentDocument(db, m).value.schedule.Some?
  {
    db.schedules[m].(runtime := EvaluateScheduleDue(
      CurrentDocument(db, m).value.schedule.value, db.schedules[m].runtime, now, HasActiveRun(db, m), calendar).runtime)
  }

  function AfterTick(db: Db, now: int, calendar: Calendar): Db {
    if !TickResolves(db, now) then db
    else db.(schedules := map m | m in db.schedules ::
               if DueRow(db, m, now) then TickedRow(db, m, now, calendar) else db.schedules[m])
  }

  // Configuration

  datatype BundleMirror = BundleMirror(owner: Name, document: Document)

  type Bundle = map<Name, BundleMirror>

  ghost predicate ValidBundle(bundle: Bundle) {
    forall m :: m in bundle ==> bundle[m].document.Valid()
  }

  datatype ChangeKind = Create | Update | Remove | Move

  function PlannedChange(db: Db, bundle: Bundle, m: Name): Option<ChangeKind> {
    if m in db.mirrors then
      var current := db.mirrors[m];
      if m !in bundle then (if current.managed then Some(Remove) else None)
      else if !current.managed || CurrentDocument(db, m) != Some(bundle[m].document)
              || bundle[m].owner != current.owner then
        Some(if current.managed && bundle[m].owner != current.owner then Move else Update)
      else None
    else if m in bundle then Some(Create)
    else None
  }

  function Plan(db: Db, bundle: Bundle): map<Name, ChangeKind> {
    map m | m in db.mirrors.Keys + bundle.Keys && PlannedChange(db, bundle, m).Some? ::
      PlannedChange(db, bundle, m).value
  }

  /** A move or a publication-mode change, which the source allows only without an active run. */
  predicate HighImpact(db: Db, bundle: Bundle, m: Name) {
    var change := PlannedChange(db, bundle, m);
    || change == Some(Move)
    || (change == Some(Update) && m in bundle && CurrentDocument(db, m).Some?
        && CurrentDocument(db, m).value.mode != bundle[m].document.mode)
  }

  predicate Blocked(db: Db, bundle: Bundle) {
    exists m :: m in Plan(db, bundle) && HighImpact(db, bundle, m) && HasActiveRun(db, m)
  }

  function FinalizedRetry(attempts: map<Key, Attempt>, id: RunId, r: Run): Run {
    if r.state.RunRunning? && r.retryDueAt.Some? && Key(id, r.attemptCount) in attempts
    then r.(state := if attempts[Key(id, r.attemptCount)].state.TimedOut? then RunTimedOut else RunFailed,
            retryDueAt := None)
    else r
  }

  /** Removal and disabling end runs that were never dispatched and runs waiting for a retry. */
  predicate EndsWaitingRuns(bundle: Bundle, m: Name, change: ChangeKind) {
    change.Remove? || (m in bundle && !bundle[m].document.enabled)
  }

  function RunAfterChange(db: Db, bundle: Bundle, id: RunId, change: ChangeKind): Run
    requires id in db.runs
  {
    var r := db.runs[id];
    if EndsWaitingRuns(bundle, r.mirror, change) then
      var undispatched := r.state.Pending? && !HasDispatched(db, id);
      FinalizedRetry(db.attempts, id, if undispatched then r.(state := RunCancelled) else r)
    else if change.Move? then FinalizedRetry(db.attempts, id, r)
    else r
  }

  function AttemptAfterChange(db: Db, bundle: Bundle, k: Key, change: ChangeKind): Attempt
    requires k in db.attempts && k.run in db.runs
  {
    var a := db.attempts[k];
    if EndsWaitingRuns(bundle, db.runs[k.run].mirror, change) && db.runs[k.run].state.Pending?
       && a.dispatches == 0 && a.state.Queued?
    then a.(state := Cancelled)
    else a
  }

  /** `reconcile_schedule`: the row after a changed mirror, or none. */
  function ScheduleAfterChange(db: Db, m: Name, mirror: BundleMirror, change: ChangeKind, now: int, calendar: Calendar)
    : Option<ScheduleRow>
  {
    if mirror.document.schedule.None? || !mirror.document.enabled then None
    else
      var schedule := mirror.document.schedule.value;
      var reset :=
        || change.Create? || change.Move? || !Eligible(db, m) || db.mirrors[m].owner != mirror.owner
        || m !in db.schedules || db.schedules[m].config != schedule;
      if reset then Some(ScheduleRow(schedule, ActivateSchedule(schedule, now, calendar)))
      else Some(db.schedules[m])
  }

  /** The change planned for `m`, if the transaction has reached it. */
  function ScopedChange(db: Db, bundle: Bundle, scope: set<Name>, m: Name): Option<ChangeKind> {
    if m in scope then PlannedChange(db, bundle, m) else None
  }

  predicate Writes(db: Db, bundle: Bundle, scope: set<Name>, m: Name) {
    ScopedChange(db, bundle, scope, m).Some? && m in bundle
  }

  function NextGeneration(db: Db, m: Name): nat {
    if m in db.mirrors then db.mirrors[m].generation + 1 else 1
  }

  function ScheduleIn(db: Db, bundle: Bundle, scope: set<Name>, m: Name, now: int, calendar: Calendar)
    : Option<ScheduleRow>
  {
    if ScopedChange(db, bundle, scope, m).None? then (if m in db.schedules then Some(db.schedules[m]) else None)
    else if m !in bundle then None
    else ScheduleAfterChange(db, m, bundle[m], ScopedChange(db, bundle, scope, m).value, now, calendar)
  }

  function MirrorsIn(db: Db, bundle: Bundle, scope: set<Name>): map<Name, Mirror> {
    map m | m in db.mirrors.Keys + bundle.Keys && (m in db.mirrors || Writes(db, bundle, scope, m)) ::
      if Writes(db, bundle, scope, m)
      then Mirror(true, bundle[m].document.enabled, bundle[m].owner, NextGeneration(db, m))
      else if ScopedChange(db, bundle, scope, m).Some? then db.mirrors[m].(managed := false)
      else db.mirrors[m]
  }

  function GenerationsIn(db: Db, bundle: Bundle, scope: set<Name>): map<GenerationKey, Generation> {
    db.generations +
    map g |
      g in (set m | m in bundle :: GenerationKey(m, NextGeneration(db, m))) && Writes(db, bundle, scope, g.mirror) ::
      Generation(bundle[g.mirror].owner, bundle[g.mirror].document)
  }

  function SchedulesIn(db: Db, bundle: Bundle, scope: set<Name>, now: int, calendar: Calendar): map<Name, ScheduleRow> {
    map m | m in db.schedules.Keys + bundle.Keys && ScheduleIn(db, bundle, scope, m, now, calendar).Some? ::
      ScheduleIn(db, bundle, scope, m, now, calendar).value
  }

  function RunIn(db: Db, bundle: Bundle, scope: set<Name>, id: RunId): Run
    requires id in db.runs
  {
    match ScopedChange(db, bundle, scope, db.runs[id].mirror)
    case Some(change) => RunAfterChange(db, bundle, id, change)
    case None => db.runs[id]
  }

  function RunsIn(db: Db, bundle: Bundle, scope: set<Name>): map<RunId, Run> {
    map id | id in db.runs :: RunIn(db, bundle, scope, id)
  }

  function AttemptIn(db: Db, bundle: Bundle, scope: set<Name>, k: Key): Attempt
    requires k in db.attempts
  {
    if k.run !in db.runs then db.attempts[k]
    else
      match ScopedChange(db, bundle, scope, db.runs[k.run].mirror)
      case Some(change) => AttemptAfterChange(db, bundle, k, change)
      case None => db.attempts[k]
  }

  function AttemptsIn(db: Db, bundle: Bundle, scope: set<Name>): map<Key, Attempt> {
    map k | k in db.attempts :: AttemptIn(db, bundle, scope, k)
  }

  /** Every table after the planned changes of the mirrors in `scope`, all decided on the tables before them. */
  function ApplyChanges(db: Db, bundle: Bundle, scope: set<Name>, now: int, calendar: Calendar): Db {
    Db(db.revision + 1, MirrorsIn(db, bundle, scope), GenerationsIn(db, bundle, scope),
       SchedulesIn(db, bundle, scope, now, calendar), RunsIn(db, bundle, scope), AttemptsIn(db, bundle, scope))
  }

  datatype ApplyOutcome = ConfigApplied | RevisionConflict | ConfigBusy

  function ApplyResult(db: Db, bundle: Bundle, base: nat): ApplyOutcome {
    if db.revision != base then RevisionConflict
    else if Blocked(db, bundle) then ConfigBusy
    else ConfigApplied
  }

  function AfterApply(db: Db, bundle: Bundle, base: nat, now: int, calendar: Calendar): Db {
    if ApplyResult(db, bundle, base).ConfigApplied?
    then ApplyChanges(db, bundle, Plan(db, bundle).Keys, now, calendar)
    else db
  }

  // Restore

  /** `normalize_restored_database`: every attempt and run still open is closed. */
  function AfterRestore(db: Db): Db {
    db.(attempts := map k | k in db.attempts ::
          if db.attempts[k].state.IsTerminal() then db.attempts[k] else db.attempts[k].(state := Interrupted),
        runs := map id | id in db.runs ::
          if !db.runs[id].state.IsActive() then db.runs[id]
          else if db.runs[id].state.Pending? && !HasDispatched(db, id)
          then db.runs[id].(state := RunCancelled, retryDueAt := None)
          else db.runs[id].(state := RunFailed, retryDueAt := None))
  }
}
