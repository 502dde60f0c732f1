/** The arbitration policy: what an Acquire does in each slot state, which end of
    the deque is served, and where a preempted owner is put back. */
module Policies {
  import opened Types

  datatype Policy = FirstOwner | LatestOwner | FairQueue

  datatype SlotState = Free | Granted | Revoking

  datatype Decision = GrantNow | RevokeAndQueue | JoinQueue | Refuse

  function Decide(policy: Policy, state: SlotState): Decision {
    match (policy, state)
    case (_, Free) => GrantNow
    case (FirstOwner, _) => Refuse
    case (_, Granted) => RevokeAndQueue
    case (_, Revoking) => JoinQueue
  }

  /** The popped element and the deque that is left. */
  function PopWaiter<T>(policy: Policy, waiters: seq<T>): Option<(T, seq<T>)> {
    if waiters == [] then None else
    match policy
    case FirstOwner => None
    case LatestOwner => Some((waiters[|waiters| - 1], waiters[..|waiters| - 1]))
    case FairQueue => Some((waiters[0], waiters[1..]))
  }

  /** "Served last": the end opposite to the one PopWaiter takes from. */
  function RequeueWaiter<T>(policy: Policy, waiters: seq<T>, waiter: T): seq<T> {
    match policy
    case FirstOwner => waiters
    case LatestOwner => [waiter] + waiters
    case FairQueue => waiters + [waiter]
  }
}
