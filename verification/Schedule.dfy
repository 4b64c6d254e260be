/**
  Schedules: activation, due evaluation with catch-up, re-arming of intervals and
  the retry decision.

  `next_after_ms` is exact for intervals. For cron expressions it is a `Calendar`,
  any function that answers a time later than its argument.
 */
module Schedule {
  import opened Common
  import opened Lifecycle

  const MAX_I64: int := 0x7fff_ffff_ffff_ffff

  datatype ScheduleConfig = Interval(seconds: nat) | Cron(expression: string)

  type Calendar = (string, int) -> int

  ghost predicate ValidCalendar(calendar: Calendar) {
    forall expression, after :: calendar(expression, after) > after
  }

  function NextAfter(schedule: ScheduleConfig, after: int, calendar: Calendar): int {
    match schedule
    case Interval(seconds) => after + seconds * 1000
    case Cron(expression) => calendar(expression, after)
  }

  datatype ScheduleRuntime = ScheduleRuntime(
    nextDue: Option<int>, lastEvaluated: Option<int>, catchUpPending: bool, catchUpSince: Option<int>)

  /** Catch-up is pending exactly when its start is known, and that start precedes the next due time. */
  predicate Coherent(rt: ScheduleRuntime) {
    && (rt.catchUpPending <==> rt.catchUpSince.Some?)
    && (rt.catchUpSince.Some? && rt.nextDue.Some? ==> rt.catchUpSince.value < rt.nextDue.value)
  }

  datatype DueEvaluation = DueEvaluation(runtime: ScheduleRuntime, becameDue: bool, skippedWhileActive: bool)

  function ActivateSchedule(schedule: ScheduleConfig, now: int, calendar: Calendar): (rt: ScheduleRuntime)
    ensures Coherent(rt) && rt.nextDue.Some? && !rt.catchUpPending
  {
    ScheduleRuntime(Some(NextAfter(schedule, now, calendar)), Some(now), false, None)
  }

  function EvaluateScheduleDue(
    schedule: ScheduleConfig, runtime: ScheduleRuntime, now: int, hasActiveRun: bool, calendar: Calendar)
    : (e: DueEvaluation)
  {
    if runtime.nextDue.None? || runtime.nextDue.value > now then
      DueEvaluation(runtime, false, false)
    else
      var dueAt := runtime.nextDue.value;
      var since :=
        if hasActiveRun then None
        else if runtime.catchUpSince.Some? && runtime.catchUpSince.value < dueAt then runtime.catchUpSince
        else Some(dueAt);
      var next :=
        match schedule
        case Interval(_) => None
        case Cron(_) => Some(NextAfter(schedule, now, calendar));
      DueEvaluation(ScheduleRuntime(next, Some(now), !hasActiveRun, since), !hasActiveRun, hasActiveRun)
  }

  function RearmInterval(schedule: ScheduleConfig, terminalAt: int, calendar: Calendar): Option<int> {
    match schedule
    case Interval(_) => Some(NextAfter(schedule, terminalAt, calendar))
    case Cron(_) => None
  }

  /** One evaluation keeps the runtime coherent, and while no run is active pending intent keeps its start. */
  lemma EvaluationKeepsCoherence(
    schedule: ScheduleConfig, runtime: ScheduleRuntime, now: int, hasActiveRun: bool, calendar: Calendar)
    requires ValidCalendar(calendar) && Coherent(runtime)
    ensures Coherent(EvaluateScheduleDue(schedule, runtime, now, hasActiveRun, calendar).runtime)
    ensures !hasActiveRun && runtime.catchUpPending ==>
      EvaluateScheduleDue(schedule, runtime, now, false, calendar).runtime.catchUpSince == runtime.catchUpSince
  {
    match schedule
    case Interval(_) =>
    case Cron(expression) => assert calendar(expression, now) > now;
  }

  /** The runtime after a history of scheduler ticks at the given times, none of which finds an active run. */
  function TickAll(schedule: ScheduleConfig, runtime: ScheduleRuntime, ticks: seq<int>, calendar: Calendar)
    : ScheduleRuntime
    decreases |ticks|
  {
    if ticks == [] then runtime
    else
      var next := EvaluateScheduleDue(schedule, runtime, ticks[0], false, calendar).runtime;
      TickAll(schedule, next, ticks[1..], calendar)
  }

  /**
    However many ticks are missed or repeated before a run starts, the intent keeps
    the first due time since it was last cleared, and there is intent exactly when
    some tick came at or after that time.
   */
  lemma {:induction false} MissedTicksCoalesce(
    schedule: ScheduleConfig, runtime: ScheduleRuntime, ticks: seq<int>, calendar: Calendar)
    requires ValidCalendar(calendar)
    requires Coherent(runtime) && !runtime.catchUpPending && runtime.nextDue.Some?
    ensures var after := TickAll(schedule, runtime, ticks, calendar);
            && Coherent(after)
            && (after.catchUpPending <==> exists i :: 0 <= i < |ticks| && ticks[i] >= runtime.nextDue.value)
            && (after.catchUpPending ==> after.catchUpSince == runtime.nextDue)
    decreases |ticks|
  {
    if ticks != [] {
      var step := EvaluateScheduleDue(schedule, runtime, ticks[0], false, calendar).runtime;
      EvaluationKeepsCoherence(schedule, runtime, ticks[0], false, calendar);
      if ticks[0] >= runtime.nextDue.value {
        PendingIntentIsStable(schedule, step, ticks[1..], calendar);
      } else {
        MissedTicksCoalesce(schedule, runtime, ticks[1..], calendar);
        forall i | 0 <= i < |ticks| && ticks[i] >= runtime.nextDue.value
          ensures exists j :: 0 <= j < |ticks[1..]| && ticks[1..][j] >= runtime.nextDue.value
        {
          assert ticks[1..][i - 1] == ticks[i];
        }
        forall j | 0 <= j < |ticks[1..]| && ticks[1..][j] >= runtime.nextDue.value
          ensures exists i :: 0 <= i < |ticks| && ticks[i] >= runtime.nextDue.value
        {
          assert ticks[j + 1] == ticks[1..][j];
        }
      }
    }
  }

  lemma {:induction false} PendingIntentIsStable(
    schedule: ScheduleConfig, runtime: ScheduleRuntime, ticks: seq<int>, calendar: Calendar)
    requires ValidCalendar(calendar) && Coherent(runtime) && runtime.catchUpPending
    ensures var after := TickAll(schedule, runtime, ticks, calendar);
            Coherent(after) && after.catchUpPending && after.catchUpSince == runtime.catchUpSince
    decreases |ticks|
  {
    if ticks != [] {
      EvaluationKeepsCoherence(schedule, runtime, ticks[0], false, calendar);
      PendingIntentIsStable(
        schedule, EvaluateScheduleDue(schedule, runtime, ticks[0], false, calendar).runtime, ticks[1..], calendar);
    }
  }

  datatype RetryContext = RetryContext(
    outcome: AttemptState, attemptNo: nat, maxAttempts: nat, retryDelaySeconds: nat,
    cancelRequested: bool, mirrorEligible: bool, ownerUnchanged: bool, serverNow: int)

  datatype RetryDecision = ScheduleRetry(retryDueAt: int) | Final(outcome: RunState)

  function SaturatingMillis(seconds: nat): nat {
    if seconds * 1000 > MAX_I64 then MAX_I64 else seconds * 1000
  }

  function SaturatingAdd(left: int, right: nat): int {
    if left + right > MAX_I64 then MAX_I64 else left + right
  }

  /** A retry is scheduled for a retryable outcome with attempts left, wanted and still owned; else the run ends. */
  function DecideRetry(context: RetryContext): (d: RetryDecision)
    ensures d.Final? ==> d.outcome.IsTerminal()
    ensures d.ScheduleRetry? ==>
      !context.cancelRequested && context.attemptNo < context.maxAttempts &&
      context.mirrorEligible && context.ownerUnchanged && context.outcome.IsRetryable()
  {
    if context.outcome.IsRetryable() && context.attemptNo < context.maxAttempts && !context.cancelRequested &&
       context.mirrorEligible && context.ownerUnchanged
    then
      ScheduleRetry(SaturatingAdd(context.serverNow, SaturatingMillis(context.retryDelaySeconds)))
    else Final(
      match context.outcome
      case Succeeded => RunSucceeded
      case TimedOut => RunTimedOut
      case Cancelled => RunCancelled
      case _ => RunFailed)
  }
}
