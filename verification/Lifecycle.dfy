/**
  Run and attempt states, the legal attempt transitions and the projection of an
  attempt event onto its run.
 */
module Lifecycle {
  import opened Common

  datatype RunState = Pending | RunRunning | RunSucceeded | RunFailed | RunCancelled | RunTimedOut
  {
    predicate IsTerminal() {
      RunSucceeded? || RunFailed? || RunCancelled? || RunTimedOut?
    }

    predicate IsActive() {
      Pending? || RunRunning?
    }
  }

  datatype AttemptState =
    | Queued | Accepted | Running
    | Succeeded | Failed | TimedOut | Cancelled | Interrupted | Rejected
  {
    predicate IsTerminal() {
      Succeeded? || Failed? || TimedOut? || Cancelled? || Interrupted? || Rejected?
    }

    predicate Allows(next: AttemptState) {
      if this == next then true
      else match this
        case Queued => next.Accepted? || next.Cancelled? || next.Rejected?
        case Accepted =>
          next.Running? || next.Succeeded? || next.Failed? || next.TimedOut? || next.Cancelled? || next.Interrupted?
        case Running =>
          next.Succeeded? || next.Failed? || next.TimedOut? || next.Cancelled? || next.Interrupted?
        case _ => false
    }

    predicate IsRetryable() {
      Failed? || TimedOut? || Interrupted?
    }
  }

  datatype FailureKind =
    ProcessFailure | TimeoutFailure | InterruptedFailure | RejectedFailure | InvalidResult | PublicationDurability

  /** The part of an attempt event that drives the server: its sequence number and state. */
  datatype AttemptEvent = AttemptEvent(sequence: nat, state: AttemptState)

  /** What an accepted event asks of the run; `NoChange` is the state-less projection. */
  datatype Projection = Refused | NoChange | RunStarts | RunOutcome(outcome: RunState)

  function ProjectAttemptEvent(current: AttemptState, event: AttemptEvent): (p: Projection)
    ensures p.Refused? <==> !(current.Allows(event.state) || (current.Queued? && event.state.IsTerminal()))
    ensures p.RunOutcome? ==> event.state.IsTerminal() && p.outcome.IsTerminal()
  {
    var snapshotSkip := current.Queued? && event.state.IsTerminal();
    if !current.Allows(event.state) && !snapshotSkip then Refused
    else match event.state
      case Accepted => RunStarts
      case Running => RunStarts
      case Succeeded => RunOutcome(RunSucceeded)
      case TimedOut => RunOutcome(RunTimedOut)
      case Cancelled => RunOutcome(RunCancelled)
      case Failed => RunOutcome(RunFailed)
      case Interrupted => RunOutcome(RunFailed)
      case Rejected => RunOutcome(RunFailed)
      case Queued => NoChange
  }

  /** How far an attempt has come; every applied event keeps it or raises it. */
  function Progress(s: AttemptState): nat {
    match s
    case Queued => 0
    case Accepted => 1
    case Running => 2
    case _ => 3
  }

  /**
    The legal moves: staying, one step on, or to an end, which a rejection is only before
    acceptance. A running state starts the run, an end gives it the matching outcome.
   */
  lemma LegalExactly(current: AttemptState, event: AttemptEvent)
    ensures var p, next := ProjectAttemptEvent(current, event), event.state;
            && (!p.Refused? <==>
                  || next == current
                  || (!current.IsTerminal() && next.IsTerminal() && (next.Rejected? ==> current.Queued?))
                  || (!current.IsTerminal() && !next.IsTerminal() && Progress(next) == Progress(current) + 1))
            && (!p.Refused? ==>
                  && (p.RunStarts? <==> next.Accepted? || next.Running?)
                  && (p.RunOutcome? <==> next.IsTerminal())
                  && (p.RunOutcome? ==>
                        && (p.outcome.RunSucceeded? <==> next.Succeeded?)
                        && (p.outcome.RunTimedOut? <==> next.TimedOut?)
                        && (p.outcome.RunCancelled? <==> next.Cancelled?)))
  {
  }

  /** The state left by events applied in order; a refused event leaves it as it is. */
  function ReplayStates(current: AttemptState, events: seq<AttemptEvent>): AttemptState
    decreases |events|
  {
    if events == [] then current
    else
      var next := if ProjectAttemptEvent(current, events[0]).Refused? then current else events[0].state;
      ReplayStates(next, events[1..])
  }

  /** Attempts never regress, and a terminal one never changes, whatever events arrive. */
  lemma {:induction false} AttemptsNeverRegress(current: AttemptState, events: seq<AttemptEvent>)
    ensures Progress(current) <= Progress(ReplayStates(current, events))
    ensures current.IsTerminal() ==> ReplayStates(current, events) == current
    decreases |events|
  {
    if events != [] {
      var next := if ProjectAttemptEvent(current, events[0]).Refused? then current else events[0].state;
      AttemptsNeverRegress(next, events[1..]);
    }
  }
}
