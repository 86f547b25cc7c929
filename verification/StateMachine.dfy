/** The status table of nodes, items and groups, and its partial transition function. */
module StateMachine {
  import opened Common

  datatype Status =
    Queued | Running | Success | Failed | Blocked | Rejected | Waiting | Skipped | Stopped

  datatype Command =
    Execute | Dependency | Sleep | RetryReset | RejectReset | RouteBackfill | GroupAggregate

  /** One cell of the transition table; an absent cell is the empty set. */
  function Permitted(current: Status, command: Command): set<Status> {
    match current
    case Queued =>
      (match command
       case Execute => {Running, Failed}
       case Dependency => {Waiting, Blocked, Skipped}
       case GroupAggregate => {Running, Failed, Waiting, Blocked, Skipped}
       case RetryReset => {Queued}
       case RejectReset => {Queued}
       case RouteBackfill => {Running, Success, Failed, Rejected, Waiting, Skipped, Blocked}
       case Sleep => {})
    case Running =>
      (match command
       case Execute => {Success, Failed, Rejected, Waiting}
       case GroupAggregate => {Success, Failed, Rejected, Waiting, Queued, Blocked, Skipped}
       case RetryReset => {Queued, Blocked, Skipped}
       case RejectReset => {Queued, Blocked, Skipped}
       case _ => {})
    case Waiting =>
      (match command
       case Sleep => {Success}
       case Dependency => {Queued, Skipped, Blocked}
       case GroupAggregate => {Success, Queued, Skipped, Blocked}
       case RetryReset => {Queued}
       case RejectReset => {Queued}
       case _ => {})
    case Blocked =>
      (match command
       case Dependency => {Queued, Waiting, Skipped}
       case GroupAggregate => {Running, Success, Failed, Rejected, Queued, Waiting, Blocked}
       case RouteBackfill => {Running, Success, Failed, Rejected, Skipped, Queued, Waiting, Blocked}
       case RetryReset => {Queued, Skipped}
       case RejectReset => {Queued, Skipped}
       case _ => {})
    case Success =>
      (match command
       case Sleep => {Waiting}
       case Dependency => {Queued, Blocked, Skipped}
       case GroupAggregate => {Queued, Blocked, Skipped, Waiting}
       case RetryReset => {Queued, Blocked, Skipped}
       case RejectReset => {Queued, Blocked, Skipped}
       case RouteBackfill => {Success, Running, Failed, Rejected, Queued, Blocked, Skipped, Waiting}
       case Execute => {})
    case Failed =>
      (match command
       case Dependency => {Queued, Blocked, Skipped}
       case GroupAggregate => {Queued, Blocked, Skipped}
       case RetryReset => {Queued, Blocked, Running}
       case RejectReset => {Queued, Blocked}
       case Sleep => {Waiting}
       case RouteBackfill => {Success}
       case Execute => {})
    case Rejected =>
      (match command
       case Dependency => {Queued, Blocked, Skipped}
       case GroupAggregate => {Queued, Blocked, Skipped}
       case RetryReset => {Queued, Blocked}
       case RejectReset => {Queued, Blocked}
       case Sleep => {Waiting}
       case RouteBackfill => {Success}
       case Execute => {})
    case Skipped =>
      (match command
       case Dependency => {Queued, Blocked}
       case GroupAggregate => {Queued, Blocked}
       case RetryReset => {Queued, Blocked}
       case RouteBackfill => {Running, Success, Failed, Rejected, Queued, Blocked, Skipped, Waiting}
       case _ => {})
    case Stopped =>
      (match command
       case RetryReset => {Queued, Blocked, Skipped}
       case RejectReset => {Queued, Blocked, Skipped}
       case _ => {})
  }

  /** What a call without a command may do: the execute and dependency permissions together. */
  function AllowedFor(current: Status, command: Option<Command>): set<Status> {
    match command
    case Some(c) => Permitted(current, c)
    case None => Permitted(current, Execute) + Permitted(current, Dependency)
  }

  /** None stands for the raised illegal-transition error. */
  function TransitionStatus(current: Status, next: Status, command: Option<Command>): (r: Option<Status>)
    ensures r.Some? ==> r.value == next
  {
    if current == next then Some(current)
    else if next in AllowedFor(current, command) then Some(next)
    else None
  }

  /**
   * The resets of retry and reject give a reason but no command, so they run with the default
   * permissions.  To the three statuses a reset can ask for, such a transition raises exactly for a
   * running or stopped subject, although the table's retry_reset row would let both through.
   */
  lemma ResetRaisesExactly(current: Status, next: Status)
    requires next in {Queued, Blocked, Skipped}
    ensures TransitionStatus(current, next, None).None? <==> current in {Running, Stopped}
    ensures current in {Running, Stopped} ==> TransitionStatus(current, next, Some(RetryReset)).Some?
  {
    match current
    case Queued => case Running => case Success => case Failed => case Blocked =>
    case Rejected => case Waiting => case Skipped => case Stopped =>
  }

  /**
   * Putting an item to sleep gives no command either.  It is asked for only once the item has an outcome or has been
   * stopped, and from there it always raises, although the table's sleep row would let success, failed and rejected through.
   */
  lemma SleepRaises(current: Status)
    requires current in {Success, Failed, Rejected, Stopped}
    ensures TransitionStatus(current, Waiting, None).None?
    ensures current != Stopped ==> TransitionStatus(current, Waiting, Some(Sleep)).Some?
  {
    match current
    case Success => case Failed => case Rejected => case Stopped =>
  }

  /**
   * The restrictions that the table is meant to enforce.  Out of failed and rejected only a route backfill leads to
   * success.  Out of blocked a route backfill, but also a group aggregation, leads to running or an outcome.  The
   * execute path is queued, running, outcome.  Nothing is ever set stopped by a transition.
   */
  lemma KeyRestrictions(current: Status, next: Status, command: Option<Command>)
    ensures current in {Failed, Rejected} && next == Success ==>
              (TransitionStatus(current, next, command).Some? <==> command == Some(RouteBackfill))
    ensures current == Blocked && next in {Running, Success, Failed, Rejected} ==>
              (TransitionStatus(current, next, command).Some? <==> command in {Some(RouteBackfill), Some(GroupAggregate)})
    ensures command == Some(Execute) ==>
              (TransitionStatus(current, next, command).Some? <==>
                || next == current
                || (current == Queued && next in {Running, Failed})
                || (current == Running && next in {Success, Failed, Rejected, Waiting}))
    ensures next == Stopped && current != Stopped ==> TransitionStatus(current, next, command).None?
  {
    match current
    case Queued => case Running => case Success => case Failed => case Blocked =>
    case Rejected => case Waiting => case Skipped => case Stopped =>
  }
}
