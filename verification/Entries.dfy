/** Who comes to wait for a resource, and who comes to own it: exactly when a client
    joins a queue, and what that means for clients without a display. */
module Entries {
  import opened Types
  import opened Policies
  import opened Queues
  import opened Slots
  import opened Machine
  import opened Turns
  import opened Handoff
  import opened QueueRuns
  import opened Preemption
  import opened Seats

  /** The client asks for what somebody else holds and may wait for it; or it lets go of
      what it was asked for while somebody who waits can be reached. */
  ghost predicate JoinsQueue(s: State, st: Step, r: Resource, c: ClientId) {
    || (st.event == Acquire(c, r) && Waits(s, c, r) && s.slots[r].owner.value in s.registered)
    || (RevokeAck(s, st, r, c) && SomebodyReachable(s.slots[r].waiters, EnvOn(s, st, r)))
  }

  // ---- One turn

  lemma JoinerWaits(s: State, st: Step, s': State, r: Resource, c: ClientId)
    requires Inv(s) && s' == Apply(s, st) && r in s.slots && !WaitsIn(s, r, c) && JoinsQueue(s, st, r, c)
    ensures WaitsIn(s', r, c)
  {
    if st.event.Acquire? {
      var w := Waiter(c, ClaimOf(s, c, r));
      QueuedAsksHolder(s, st, c, r);
      SingleWaiter(w);
      ClientsConcat(s.slots[r].waiters, [w]);
    } else {
      var policy := s.slots[r].policy;
      RevokeAckRequeues(s, st, r, c);
      var order := ServiceOrder(policy, s'.slots[r].waiters);
      WaiterIsQueued(order, order[|order| - 1]);
      ServiceOrderClients(policy, s'.slots[r].waiters);
    }
  }

  /** A client that finds the owner vanished is not left waiting. */
  lemma VanishedOwnerLeavesNobody(s: State, st: Step, r: Resource)
    requires Inv(s) && r in s.slots && st.event.Acquire? && FreedQueue(s, st, r).Some?
    ensures Apply(s, st).slots[r].waiters == []
  {
    var f, env := Freed(s, st, r), EnvOn(s, st, r);
    TouchesOne(s, st, r);
    FreedIsServed(s, st, r);
    GrantNextWinner(f, env);
    SingleWaiter(f.waiters[0]);
    assert f.waiters == [f.waiters[0]];
    if GrantNext(f, env).slot.owner.Some? {
      KeepNone(f.waiters, Served(f, env));
    }
  }

  /** A client that may wait for what a vanished client holds has it at once, if it can
      be reached; otherwise the resource is free. */
  lemma VanishedOwnerIsReplaced(s: State, st: Step, c: ClientId, r: Resource)
    requires Inv(s) && st.event == Acquire(c, r) && Waits(s, c, r) && s.slots[r].owner.value !in s.registered
    ensures var after := Apply(s, st).slots[r];
      && after.owner == (if Deliverable(EnvOn(s, st, r), c) then Some(c) else None)
      && after.waiters == [] && after.revokeDeadline.None?
      && Sent(s, st, r) == (if Deliverable(EnvOn(s, st, r), c) then [Grant(c)] else [])
  {
    var f, env := Freed(s, st, r), EnvOn(s, st, r);
    VanishedOwnerLeavesNobody(s, st, r);
    TouchesOne(s, st, r);
    FreedStartsAfresh(s, st, r);
    FreedIsServed(s, st, r);
    GrantNextWinner(f, env);
    SingleWaiter(f.waiters[0]);
    assert f.waiters == [f.waiters[0]];
    LoneWaiterWins(f, env, f.waiters[0]);
  }

  lemma LoneWaiterWins(f: Slot, env: Env, w: Waiter)
    requires f.owner.None? && f.waiters == [w] && (f.policy != FirstOwner || w.seatClaim)
    ensures GrantNext(f, env).slot.owner == if Deliverable(env, w.client) then Some(w.client) else None
  {
    SingleWaiter(w);
    GrantNextIsServe(f, env);
    var order := ServiceOrder(f.policy, f.waiters);
    assert [w][1..] == [] && Reverse([w]) == [w];
    assert order == [w];
    if !Deliverable(env, w.client) {
      assert order[1..] == [];
    }
  }

  lemma AcquirerJoins(s: State, st: Step, r: Resource, c: ClientId)
    requires Inv(s) && !WaitsIn(s, r, c) && st.event == Acquire(c, r) && WaitsIn(Apply(s, st), r, c)
    ensures JoinsQueue(s, st, r, c)
  {
    AcquireOutcomeIff(s, st, c, r);
    if OutcomeOf(s, st).Denied? {
      RefusalChangesNothing(s, st, c, r);
    } else if OutcomeOf(s, st) == Outcome.Granted {
      GrantedTakesFreeSlot(s, st, c, r);
    } else if FreedQueue(s, st, r).Some? {
      VanishedOwnerLeavesNobody(s, st, r);
    }
  }

  lemma ReleaserJoins(s: State, st: Step, r: Resource, c: ClientId)
    requires Inv(s) && RevokeAck(s, st, r, c) && WaitsIn(Apply(s, st), r, c)
    ensures JoinsQueue(s, st, r, c)
  {
    var slot, env := s.slots[r], EnvOn(s, st, r);
    RevokeAckWinner(s, st, r, c);
    WinnerIffReachable(slot.policy, slot.waiters, env);
    ApplyInv(s, st);
    assert SlotInv(r, Apply(s, st).slots[r], Apply(s, st).registered);
  }

  lemma NewcomerActed(s: State, st: Step, r: Resource, c: ClientId)
    requires Inv(s) && r in s.slots && !WaitsIn(s, r, c) && WaitsIn(Apply(s, st), r, c)
    ensures st.event == Acquire(c, r) || st.event == Release(c, r)
  {
    var ws, base, gone := s.slots[r].waiters, BaseQueue(s, st, r), Leavers(s, st, r);
    QueueLaw(s, st, r);
    KeepClients(base, gone);
    if JoinsAtFront(ws, base, st.event.client) {
      SingleWaiter(Waiter(st.event.client, false));
      ClientsConcat([Waiter(st.event.client, false)], ws);
    } else if JoinsAtBack(ws, base, st.event.client) {
      var claim :| base == ws + [Waiter(st.event.client, claim)];
      SingleWaiter(Waiter(st.event.client, claim));
      ClientsConcat(ws, [Waiter(st.event.client, claim)]);
    }
  }

  lemma ReleaserWasAsked(s: State, st: Step, r: Resource, c: ClientId)
    requires Inv(s) && r in s.slots && st.event == Release(c, r) && !WaitsIn(s, r, c) && WaitsIn(Apply(s, st), r, c)
    ensures RevokeAck(s, st, r, c)
  {
    var slot := s.slots[r];
    QueueLaw(s, st, r);
    KeepClients(BaseQueue(s, st, r), Leavers(s, st, r));
    assert SlotInv(r, slot, s.registered);
    assert BaseQueue(s, st, r) != slot.waiters;
  }

  /** Exactly who joins a queue. */
  lemma QueuesIff(s: State, st: Step, s': State, r: Resource, c: ClientId)
    requires Inv(s) && s' == Apply(s, st) && r in s.slots && !WaitsIn(s, r, c)
    ensures WaitsIn(s', r, c) <==> JoinsQueue(s, st, r, c)
  {
    if JoinsQueue(s, st, r, c) {
      JoinerWaits(s, st, s', r, c);
    } else if WaitsIn(s', r, c) {
      NewcomerActed(s, st, r, c);
      if st.event.Acquire? {
        AcquirerJoins(s, st, r, c);
      } else {
        ReleaserWasAsked(s, st, r, c);
        ReleaserJoins(s, st, r, c);
      }
    }
  }

  /** The documentation says that a client without a display never queues for an input.
      It does exactly when it lets go of the input after a Revoke while somebody who
      waits can be reached. */
  lemma DisplaylessQueuesIff(s: State, st: Step, s': State, r: Resource, c: ClientId)
    requires Inv(s) && s' == Apply(s, st) && r in s.slots && r.Input? && !HoldsDisplay(s, c) && !WaitsIn(s, r, c)
    ensures WaitsIn(s', r, c) <==> RevokeAck(s, st, r, c) && SomebodyReachable(s.slots[r].waiters, EnvOn(s, st, r))
  {
    QueuesIff(s, st, s', r, c);
  }

  /** A new owner was waiting, or asked for what was free or had lost its owner; on an
      input, in the last case, it has a display. */
  lemma NewOwnerWaited(s: State, st: Step, s': State, r: Resource, c: ClientId)
    requires Inv(s) && s' == Apply(s, st) && r in s.slots && !OwnedBy(s, r, c) && OwnedBy(s', r, c)
    ensures || WaitsIn(s, r, c)
            || (st.event == Acquire(c, r) && (s.slots[r].owner.None? || !r.Input? || HoldsDisplay(s, c)))
  {
    SeatLostLaw(s, st, r);
    if FreedQueue(s, st, r).None? {
      UnfreedLaw(s, st, r);
    } else {
      FreedStartsAfresh(s, st, r);
      FreedQueueClients(s, st, r, c);
    }
  }

  lemma FreedQueueClients(s: State, st: Step, r: Resource, c: ClientId)
    requires Inv(s) && r in s.slots && FreedQueue(s, st, r).Some? && !OwnedBy(s, r, c)
    requires c in Clients(FreedQueue(s, st, r).value)
    ensures WaitsIn(s, r, c) || (st.event == Acquire(c, r) && (!r.Input? || HoldsDisplay(s, c)))
  {
    var ws, queue := s.slots[r].waiters, FreedQueue(s, st, r).value;
    match st.event
    case Disconnected(d) => KeepClients(ws, {d});
    case Release(d, _) =>
      SingleWaiter(Waiter(d, false));
      ClientsConcat(ws, [Waiter(d, false)]);
      ClientsConcat([Waiter(d, false)], ws);
    case Acquire(d, _) =>
      SingleWaiter(queue[0]);
      assert queue == [queue[0]];
    case _ =>
  }

  // ---- Whole runs

  /** Client `c` joined the queue of `r` in turn `t` and has waited ever since. */
  ghost predicate WaitsSince(states: seq<State>, steps: seq<Step>, r: Resource, c: ClientId, t: nat, i: nat)
    requires |states| == |steps| + 1 && i < |states|
  {
    t < i && JoinsQueue(states[t], steps[t], r, c) && forall k | t < k <= i :: WaitsIn(states[k], r, c)
  }

  ghost predicate EntryStep(s: State, st: Step, s': State, r: Resource, c: ClientId) {
    !WaitsIn(s, r, c) && WaitsIn(s', r, c) ==> JoinsQueue(s, st, r, c)
  }

  lemma EntryRunStep(states: seq<State>, steps: seq<Step>, k: nat, r: Resource, c: ClientId)
    requires IsRun(states, steps) && k < |steps|
    ensures EntryStep(states[k], steps[k], states[k + 1], r, c)
  {
    ReachableInv(states, steps, k);
    if r in states[k].slots && !WaitsIn(states[k], r, c) {
      QueuesIff(states[k], steps[k], states[k + 1], r, c);
    }
  }

  lemma {:induction false} EntryTrace(states: seq<State>, steps: seq<Step>, i: nat, r: Resource, c: ClientId)
    returns (t: nat)
    requires |states| == |steps| + 1 && i < |states| && WaitsIn(states[i], r, c) && !WaitsIn(states[0], r, c)
    requires forall k | 0 <= k < |steps| :: EntryStep(states[k], steps[k], states[k + 1], r, c)
    ensures WaitsSince(states, steps, r, c, t, i)
  {
    var k := i - 1;
    assert EntryStep(states[k], steps[k], states[k + 1], r, c);
    t := k;
    if WaitsIn(states[k], r, c) {
      t := EntryTrace(states, steps, k, r, c);
    }
  }

  /** Everybody who waits joined in some turn and has waited since. */
  lemma WaiterJoined(states: seq<State>, steps: seq<Step>, i: nat, r: Resource, c: ClientId) returns (t: nat)
    requires IsRun(states, steps) && i < |states| && WaitsIn(states[i], r, c)
    ensures WaitsSince(states, steps, r, c, t, i)
  {
    forall k | 0 <= k < |steps| ensures EntryStep(states[k], steps[k], states[k + 1], r, c) {
      EntryRunStep(states, steps, k, r, c);
    }
    t := EntryTrace(states, steps, i, r, c);
  }

  ghost predicate LosesDisplay(s: State, s': State, c: ClientId) {
    HoldsDisplay(s, c) && !HoldsDisplay(s', c)
  }

  lemma {:induction false} DisplayWasLost(states: seq<State>, c: ClientId, t: nat, i: nat) returns (k: nat)
    requires t <= i < |states| && HoldsDisplay(states[t], c) && !HoldsDisplay(states[i], c)
    ensures t <= k < i && LosesDisplay(states[k], states[k + 1], c)
    decreases i
  {
    k := i - 1;
    if !HoldsDisplay(states[k], c) {
      k := DisplayWasLost(states, c, t, k);
    }
  }

  /** Why a client that waits for an input has no display: it was put back by its own
      Release after a Revoke, or it had a display when it asked and has lost it since. */
  ghost predicate HadItsReason(states: seq<State>, steps: seq<Step>, r: Resource, c: ClientId, t: nat, i: nat)
    requires |states| == |steps| + 1 && i < |states|
  {
    && WaitsSince(states, steps, r, c, t, i)
    && (|| RevokeAck(states[t], steps[t], r, c)
        || (&& steps[t].event == Acquire(c, r) && HoldsDisplay(states[t], c)
            && exists k | t <= k < i :: LosesDisplay(states[k], states[k + 1], c)))
  }

  lemma DisplaylessWaiter(states: seq<State>, steps: seq<Step>, i: nat, r: Resource, c: ClientId) returns (t: nat)
    requires IsRun(states, steps) && i < |states| && r.Input? && WaitsIn(states[i], r, c) && !HoldsDisplay(states[i], c)
    ensures HadItsReason(states, steps, r, c, t, i)
  {
    t := WaiterJoined(states, steps, i, r, c);
    if steps[t].event == Acquire(c, r) {
      var k := DisplayWasLost(states, c, t, i);
    }
  }

  /** Why a client without a display is handed an input: it asked for a free one, or it
      was waiting for one of those reasons. */
  lemma DisplaylessWinner(states: seq<State>, steps: seq<Step>, i: nat, r: Resource, c: ClientId)
    requires IsRun(states, steps) && i < |steps| && r.Input? && r in states[i].slots && !HoldsDisplay(states[i], c)
    requires !OwnedBy(states[i], r, c) && OwnedBy(states[i + 1], r, c)
    ensures || (steps[i].event == Acquire(c, r) && states[i].slots[r].owner.None?)
            || exists t: nat :: HadItsReason(states, steps, r, c, t, i)
  {
    ReachableInv(states, steps, i);
    NewOwnerWaited(states[i], steps[i], states[i + 1], r, c);
    if WaitsIn(states[i], r, c) {
      var t := DisplaylessWaiter(states, steps, i, r, c);
    }
  }
}
