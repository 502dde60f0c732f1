/** Preempted owners and newcomers: where a revoked owner is put back, and the order
    in which a LatestOwner queue is built and served. */
module Preemption {
  import opened Types
  import opened Policies
  import opened Queues
  import opened Slots
  import opened Machine
  import opened Turns
  import opened Handoff
  import opened QueueRuns

  // ---- The revoke acknowledgement

  lemma {:induction false} WinnerOfConcat(a: seq<Waiter>, b: seq<Waiter>, env: Env)
    ensures Winner(a + b, env) == if Winner(a, env).Some? then Winner(a, env) else Winner(b, env)
    ensures Winner(a, env).Some? ==> Popped(a + b, env) == Popped(a, env)
  {
    if a == [] {
      assert a + b == b;
    } else {
      assert (a + b)[0] == a[0] && (a + b)[1..] == a[1..] + b;
      WinnerOfConcat(a[1..], b, env);
    }
  }

  ghost predicate SomebodyReachable(ws: seq<Waiter>, env: Env) {
    exists c | c in Clients(ws) :: Deliverable(env, c)
  }

  lemma WinnerIffReachable(policy: Policy, ws: seq<Waiter>, env: Env)
    requires policy != FirstOwner
    ensures Winner(ServiceOrder(policy, ws), env).Some? <==> SomebodyReachable(ws, env)
  {
    WinnerIsPopped(ServiceOrder(policy, ws), env);
    ServiceOrderClients(policy, ws);
  }

  ghost predicate RevokeAck(s: State, st: Step, r: Resource, o: ClientId) {
    && OwnedBy(s, r, o) && st.event == Release(o, r)
    && s.slots[r].revokeDeadline.Some? && s.slots[r].waiters != [] && s.slots[r].policy != FirstOwner
  }

  /** Who is served when a revoked owner releases: the first reachable client that
      was waiting; the releaser itself only when none of them can be reached. */
  lemma RevokeAckWinner(s: State, st: Step, r: Resource, o: ClientId)
    requires Inv(s) && RevokeAck(s, st, r, o)
    ensures var slot, env := s.slots[r], EnvOn(s, st, r);
      var first := Winner(ServiceOrder(slot.policy, slot.waiters), env);
      Apply(s, st).slots[r].owner ==
        if first.Some? then first else if Deliverable(env, o) then Some(o) else None
  {
    var slot, f, env := s.slots[r], Freed(s, st, r), EnvOn(s, st, r);
    SeatLostLaw(s, st, r);
    FreedIsServed(s, st, r);
    GrantNextIsServe(f, env);
    RequeueIsServedLast(slot.policy, slot.waiters, Waiter(o, false));
    WinnerOfConcat(ServiceOrder(slot.policy, slot.waiters), [Waiter(o, false)], env);
  }

  /** A revoke acknowledgement with a reachable waiter never hands the resource
      straight back: a waiter gets it, and the releaser is queued, to be served
      after everybody then waiting. */
  lemma RevokeAckRequeues(s: State, st: Step, r: Resource, o: ClientId)
    requires Inv(s) && RevokeAck(s, st, r, o)
    requires SomebodyReachable(s.slots[r].waiters, EnvOn(s, st, r))
    ensures var slot, after := s.slots[r], Apply(s, st).slots[r];
      && after.owner.Some? && after.owner != Some(o) && after.owner.value in Clients(slot.waiters)
      && ServiceOrder(slot.policy, after.waiters) != []
      && ServiceOrder(slot.policy, after.waiters)[|ServiceOrder(slot.policy, after.waiters)| - 1] == Waiter(o, false)
      && Distinct(after.waiters)
  {
    var slot, f, env := s.slots[r], Freed(s, st, r), EnvOn(s, st, r);
    var order, back := ServiceOrder(slot.policy, slot.waiters), Waiter(o, false);
    assert SlotInv(r, slot, s.registered);
    RevokeAckWinner(s, st, r, o);
    WinnerIffReachable(slot.policy, slot.waiters, env);
    WinnerIsPopped(order, env);
    ServiceOrderClients(slot.policy, slot.waiters);
    AckServiceOrder(s, st, r, o);
    ApplyInv(s, st);
    assert SlotInv(r, Apply(s, st).slots[r], Apply(s, st).registered);
  }

  lemma AckServiceOrder(s: State, st: Step, r: Resource, o: ClientId)
    requires Inv(s) && RevokeAck(s, st, r, o)
    requires SomebodyReachable(s.slots[r].waiters, EnvOn(s, st, r))
    ensures var slot, env := s.slots[r], EnvOn(s, st, r);
      ServiceOrder(slot.policy, Apply(s, st).slots[r].waiters) ==
      Unpopped(ServiceOrder(slot.policy, slot.waiters), env) + [Waiter(o, false)]
  {
    var slot, f, env := s.slots[r], Freed(s, st, r), EnvOn(s, st, r);
    var order, back := ServiceOrder(slot.policy, slot.waiters), [Waiter(o, false)];
    SeatLostLaw(s, st, r);
    FreedIsServed(s, st, r);
    GrantNextConserves(f, env);
    RequeueIsServedLast(slot.policy, slot.waiters, Waiter(o, false));
    WinnerIffReachable(slot.policy, slot.waiters, env);
    WinnerOfConcat(order, back, env);
    PoppedSplits(order, env);
    var p := Popped(order, env);
    assert p + ServiceOrder(slot.policy, Apply(s, st).slots[r].waiters) == p + (Unpopped(order, env) + back);
    SameTail(p, ServiceOrder(slot.policy, Apply(s, st).slots[r].waiters), Unpopped(order, env) + back);
  }

  lemma SameTail(p: seq<Waiter>, a: seq<Waiter>, b: seq<Waiter>)
    requires p + a == p + b
    ensures a == b
  {
    assert a == (p + a)[|p|..] && b == (p + b)[|p|..];
  }

  lemma PlainQueue(s: State, st: Step, r: Resource, o: ClientId)
    requires Inv(s) && OwnedBy(s, r, o) && Vacates(s, st, r, o) && !RevokeAck(s, st, r, o)
    ensures FreedQueue(s, st, r) == Some(s.slots[r].waiters)
  {
    assert SlotInv(r, s.slots[r], s.registered);
    KeepAll(s.slots[r].waiters, {o});
  }

  /** A holder that lets go of its own accord, disconnects or is reclaimed is not put
      back: the resource goes to the first reachable client in service order, and the
      queue loses exactly that client and those before it. */
  lemma VacatedGoesToFirst(s: State, st: Step, r: Resource, o: ClientId)
    requires Inv(s) && OwnedBy(s, r, o) && Vacates(s, st, r, o) && !RevokeAck(s, st, r, o)
    ensures var slot, env, after := s.slots[r], EnvOn(s, st, r), Apply(s, st).slots[r];
      var order := ServiceOrder(slot.policy, slot.waiters);
      && after.owner == Winner(order, env)
      && after.waiters == Keep(slot.waiters, Clients(Popped(order, env)))
  {
    PlainQueue(s, st, r, o);
    SeatLostLaw(s, st, r);
    FreedIsServed(s, st, r);
    GrantNextIsServe(Freed(s, st, r), EnvOn(s, st, r));
  }

  /** Any release without a waiter frees the slot. */
  lemma ReleaseFreesIdleSlot(s: State, st: Step, r: Resource, o: ClientId)
    requires Inv(s) && OwnedBy(s, r, o) && st.event == Release(o, r) && s.slots[r].waiters == []
    ensures Apply(s, st).slots[r] == s.slots[r].(owner := None, revokeDeadline := None)
    ensures Sent(s, st, r) == []
  {
    SeatLostLaw(s, st, r);
  }

  lemma DisconnectedOwner(s: State, st: Step, r: Resource, c: ClientId)
    requires Inv(s) && OwnedBy(s, r, c) && st.event == Disconnected(c)
    ensures OwnEffect(s, st, r).slot.owner ==
      Winner(ServiceOrder(s.slots[r].policy, s.slots[r].waiters), EnvOn(s, st, r))
    ensures OwnEffect(s, st, r).slot.owner != Some(c) && !IsQueued(OwnEffect(s, st, r).slot.waiters, c)
  {
    var slot, env, f := s.slots[r], EnvOn(s, st, r), Freed(s, st, r);
    assert SlotInv(r, slot, s.registered);
    KeepAll(slot.waiters, {c});
    FreedIsServed(s, st, r);
    GrantNextWinner(f, env);
    GrantNextIsServe(f, env);
    KeepClients(slot.waiters, Served(f, env));
  }

  /** A client that disconnects leaves no trace: it owns nothing and waits nowhere,
      what it owned goes to the first reachable waiter, and every other slot keeps
      its owner and the order of its queue. */
  lemma DisconnectedLeavesNoTrace(s: State, st: Step, r: Resource, c: ClientId)
    requires Inv(s) && r in s.slots && st.event == Disconnected(c)
    ensures var slot, after := s.slots[r], Apply(s, st).slots[r];
      && after.owner != Some(c) && !IsQueued(after.waiters, c)
      && (slot.owner == Some(c) ==>
            after.owner == Winner(ServiceOrder(slot.policy, slot.waiters), EnvOn(s, st, r)))
      && (slot.owner != Some(c) ==> after == slot.(waiters := Keep(slot.waiters, {c})) && Sent(s, st, r) == [])
  {
    SeatLostLaw(s, st, r);
    if s.slots[r].owner == Some(c) {
      DisconnectedOwner(s, st, r, c);
    } else {
      KeepClients(s.slots[r].waiters, {c});
    }
  }

  // ---- The LatestOwner queue

  /** How and when a client came to be queued: by its own Acquire, or put back by its
      own Release after a Revoke. */
  datatype Entry = Fresh(turn: nat) | Requeued(turn: nat)

  ghost predicate WaitsIn(s: State, r: Resource, c: ClientId) {
    r in s.slots && IsQueued(s.slots[r].waiters, c)
  }

  /** Read off the history: the last turn in which the client was not queued before
      and is queued after. */
  ghost function EntryOf(states: seq<State>, steps: seq<Step>, r: Resource, c: ClientId, i: nat): Entry
    requires |states| == |steps| + 1 && i < |states|
  {
    if i == 0 then Fresh(0)
    else if WaitsIn(states[i - 1], r, c) then EntryOf(states, steps, r, c, i - 1)
    else if steps[i - 1].event.Release? then Requeued(i - 1)
    else Fresh(i - 1)
  }

  /** Preempted clients, latest requeue first, then fresh requesters, oldest first. */
  predicate Precedes(a: Entry, b: Entry) {
    match (a, b)
    case (Requeued(_), Fresh(_)) => true
    case (Requeued(m), Requeued(n)) => m > n
    case (Fresh(m), Fresh(n)) => m < n
    case (Fresh(_), Requeued(_)) => false
  }

  lemma {:induction false} EntryIsPast(states: seq<State>, steps: seq<Step>, r: Resource, c: ClientId, i: nat)
    requires |states| == |steps| + 1 && i < |states| && !WaitsIn(states[0], r, c) && WaitsIn(states[i], r, c)
    ensures EntryOf(states, steps, r, c, i).turn < i
  {
    if WaitsIn(states[i - 1], r, c) {
      EntryIsPast(states, steps, r, c, i - 1);
    }
  }

  lemma AheadInBase(ws: seq<Waiter>, base: seq<Waiter>, e: Event, r: Resource, c: ClientId, d: ClientId)
    requires BaseLaw(LatestOwner, ws, base, e, r) && Ahead(base, c, d) && d in Clients(base)
    ensures || (Ahead(ws, c, d) && d in Clients(ws))
            || (e == Release(c, r) && c !in Clients(ws) && d in Clients(ws))
            || (e == Acquire(d, r) && d !in Clients(ws) && c in Clients(ws))
  {
    if base != ws {
      if e.Acquire? {
        var claim :| base == ws + [Waiter(e.client, claim)];
        SingleWaiter(Waiter(e.client, claim));
        BeforeConcat(ws, [Waiter(e.client, claim)], d);
        ClientsConcat(ws, [Waiter(e.client, claim)]);
        ClientsConcat(ws, Before([Waiter(e.client, claim)], d));
      } else {
        var x := Waiter(e.client, false);
        SingleWaiter(x);
        assert base == [x] + ws;
        BeforeConcat([x], ws, d);
        ClientsConcat([x], ws);
        ClientsConcat([x], Before(ws, d));
      }
    }
  }

  /** One turn of a LatestOwner queue: whoever is before whom stays so; a requeued
      client comes in before everybody, a fresh one behind everybody. */
  lemma LatestTurn(s: State, st: Step, s': State, r: Resource, c: ClientId, d: ClientId)
    requires Inv(s) && s' == Apply(s, st) && r in s.slots && s.slots[r].policy == LatestOwner
    requires WaitsIn(s', r, c) && WaitsIn(s', r, d) && Ahead(s'.slots[r].waiters, c, d)
    ensures || (WaitsIn(s, r, c) && WaitsIn(s, r, d) && Ahead(s.slots[r].waiters, c, d))
            || (st.event == Release(c, r) && !WaitsIn(s, r, c) && WaitsIn(s, r, d))
            || (st.event == Acquire(d, r) && !WaitsIn(s, r, d) && WaitsIn(s, r, c))
  {
    var ws, base, gone := s.slots[r].waiters, BaseQueue(s, st, r), Leavers(s, st, r);
    QueueLaw(s, st, r);
    KeepClients(base, gone);
    KeepAhead(base, gone, c, d);
    AheadInBase(ws, base, st.event, r, c, d);
    BeforeClients(ws, d);
  }

  /** Client `c` waits before client `d` in a LatestOwner queue. */
  ghost predicate LatestAhead(s: State, r: Resource, c: ClientId, d: ClientId) {
    WaitsIn(s, r, c) && WaitsIn(s, r, d) && s.slots[r].policy == LatestOwner && Ahead(s.slots[r].waiters, c, d)
  }

  /** Where an order between two clients can come from. */
  ghost predicate OrderStep(s: State, e: Event, s': State, r: Resource, c: ClientId, d: ClientId) {
    LatestAhead(s', r, c, d) ==>
      || LatestAhead(s, r, c, d)
      || (e == Release(c, r) && !WaitsIn(s, r, c) && WaitsIn(s, r, d))
      || (e == Acquire(d, r) && !WaitsIn(s, r, d) && WaitsIn(s, r, c))
  }

  lemma OrderRunStep(states: seq<State>, steps: seq<Step>, k: nat, r: Resource, c: ClientId, d: ClientId)
    requires IsRun(states, steps) && k < |steps|
    ensures OrderStep(states[k], steps[k].event, states[k + 1], r, c, d)
  {
    ReachableInv(states, steps, k);
    if r in states[k].slots && LatestAhead(states[k + 1], r, c, d) {
      PolicyKept(states[k], steps[k], r);
      LatestTurn(states[k], steps[k], states[k + 1], r, c, d);
    }
  }

  lemma {:induction false} OrderTrace(
    states: seq<State>, steps: seq<Step>, i: nat, r: Resource, c: ClientId, d: ClientId)
    requires |states| == |steps| + 1 && i < |states| && LatestAhead(states[i], r, c, d)
    requires !WaitsIn(states[0], r, c) && !WaitsIn(states[0], r, d)
    requires forall k | 0 <= k < |steps| :: OrderStep(states[k], steps[k].event, states[k + 1], r, c, d)
    ensures Precedes(EntryOf(states, steps, r, c, i), EntryOf(states, steps, r, d, i))
  {
    var k := i - 1;
    assert OrderStep(states[k], steps[k].event, states[k + 1], r, c, d);
    if LatestAhead(states[k], r, c, d) {
      OrderTrace(states, steps, k, r, c, d);
    } else if WaitsIn(states[k], r, d) {
      EntryIsPast(states, steps, r, d, k);
    } else {
      EntryIsPast(states, steps, r, c, k);
    }
  }

  /** The order invariant of LatestOwner, in every reachable state: the deque is the
      preempted clients, latest requeue first, followed by the fresh requesters,
      oldest first. */
  lemma LatestOwnerOrder(states: seq<State>, steps: seq<Step>, i: nat, r: Resource, c: ClientId, d: ClientId)
    requires IsRun(states, steps) && i < |states| && LatestAhead(states[i], r, c, d)
    ensures Precedes(EntryOf(states, steps, r, c, i), EntryOf(states, steps, r, d, i))
  {
    forall k | 0 <= k < |steps| ensures OrderStep(states[k], steps[k].event, states[k + 1], r, c, d) {
      OrderRunStep(states, steps, k, r, c, d);
    }
    OrderTrace(states, steps, i, r, c, d);
  }

  lemma {:induction false} ReverseAhead(ws: seq<Waiter>, c: ClientId, d: ClientId)
    requires Distinct(ws) && c in Clients(ws) && d in Clients(ws) && c != d
    requires Ahead(Reverse(ws), c, d)
    ensures Ahead(ws, d, c)
  {
    var h, tail := ws[0], ws[1..];
    SingleWaiter(h);
    ReverseClients(tail);
    BeforeConcat(Reverse(tail), [h], d);
    if h.client == d {
      assert Before(ws, c)[0] == h;
    } else {
      BeforeClients(Reverse(tail), d);
      assert c in Clients(tail);
      ReverseAhead(tail, c, d);
      assert Before(ws, c)[1..] == Before(tail, c);
    }
  }

  /** Of two clients without a seat claim, a LatestOwner slot that is freed goes to the
      reachable one further back. */
  lemma LatestServesBack(f: Slot, env: Env, c: ClientId, w: ClientId)
    requires Distinct(f.waiters) && f.owner.None? && f.policy == LatestOwner
    requires Waiter(c, false) in f.waiters && Waiter(w, false) in f.waiters && Deliverable(env, c)
    requires GrantNext(f, env).slot.owner == Some(w) && w != c
    ensures Ahead(f.waiters, c, w)
  {
    var claims, others := Claims(f.waiters), Others(f.waiters);
    PartitionClients(f.waiters);
    OtherIsQueued(f.waiters, c);
    OtherIsQueued(f.waiters, w);
    ReverseClients(others);
    GrantNextIsServe(f, env);
    ClientsConcat(claims, Reverse(others));
    WinnerIsFirst(claims + Reverse(others), env, c);
    BeforeConcat(claims, Reverse(others), c);
    ClientsConcat(claims, Before(Reverse(others), c));
    ReverseAhead(others, w, c);
    OthersAhead(f.waiters, c, w);
  }

  lemma OtherIsQueued(ws: seq<Waiter>, c: ClientId)
    requires Waiter(c, false) in ws
    ensures c in Clients(Others(ws))
  {
    OtherIsWaiter(ws, Waiter(c, false));
    WaiterIsQueued(Others(ws), Waiter(c, false));
  }

  lemma LatestServedTurn(s: State, st: Step, s': State, r: Resource, w: ClientId, c: ClientId)
    requires Inv(s) && s' == Apply(s, st) && c != w
    requires IsWaiting(s, r, Waiter(w, false)) && IsWaiting(s, r, Waiter(c, false))
    requires s.slots[r].policy == LatestOwner && OwnedBy(s', r, w)
    requires st.event != Disconnected(c) && Deliverable(EnvOn(s, st, r), c)
    ensures LatestAhead(s, r, c, w)
  {
    var ws := s.slots[r].waiters;
    WaiterIsQueued(ws, Waiter(w, false));
    WaiterIsQueued(ws, Waiter(c, false));
    ServedMeansFreed(s, st, r);
    FreedIsServed(s, st, r);
    GrantNextWinner(Freed(s, st, r), EnvOn(s, st, r));
    if st.event.Disconnected? {
      DisconnectedServesBack(s, st, r, w, c);
    } else {
      QueueServesBack(s, st, r, w, c);
    }
  }

  lemma DisconnectedServesBack(s: State, st: Step, r: Resource, w: ClientId, c: ClientId)
    requires Inv(s) && IsWaiting(s, r, Waiter(w, false)) && IsWaiting(s, r, Waiter(c, false)) && c != w
    requires st.event.Disconnected? && FreedQueue(s, st, r).Some? && s.slots[r].policy == LatestOwner
    requires var f := Freed(s, st, r);
      && Distinct(f.waiters) && w in Clients(f.waiters)
      && GrantNext(f, EnvOn(s, st, r)).slot.owner == Some(w)
    requires st.event.client != c && Deliverable(EnvOn(s, st, r), c)
    ensures Ahead(s.slots[r].waiters, c, w)
  {
    var ws, gone := s.slots[r].waiters, {st.event.client};
    KeepClients(ws, gone);
    KeepWaiter(ws, gone, Waiter(c, false));
    KeepWaiter(ws, gone, Waiter(w, false));
    LatestServesBack(Freed(s, st, r), EnvOn(s, st, r), c, w);
    KeepAhead(ws, gone, c, w);
  }

  lemma QueueServesBack(s: State, st: Step, r: Resource, w: ClientId, c: ClientId)
    requires Inv(s) && IsWaiting(s, r, Waiter(w, false)) && IsWaiting(s, r, Waiter(c, false)) && c != w
    requires !st.event.Disconnected? && FreedQueue(s, st, r).Some? && s.slots[r].policy == LatestOwner
    requires Distinct(Freed(s, st, r).waiters) && GrantNext(Freed(s, st, r), EnvOn(s, st, r)).slot.owner == Some(w)
    requires Deliverable(EnvOn(s, st, r), c)
    ensures Ahead(s.slots[r].waiters, c, w)
  {
    var ws, f := s.slots[r].waiters, Freed(s, st, r);
    FreedBase(s, st, r);
    assert SlotInv(r, s.slots[r], s.registered);
    WaiterIsQueued(ws, Waiter(w, false));
    if f.waiters == ws {
      LatestServesBack(f, EnvOn(s, st, r), c, w);
    } else {
      var x := Waiter(st.event.client, false);
      assert f.waiters == [x] + ws;
      SingleWaiter(x);
      LatestServesBack(f, EnvOn(s, st, r), c, w);
      BeforeConcat([x], ws, w);
      WaiterIsQueued(ws, Waiter(c, false));
      ClientsConcat([x], Before(ws, w));
    }
  }

  /** Service under LatestOwner between clients without a seat claim, whoever else is in
      the queue: whoever is served came in after every reachable client left waiting if
      it was a fresh requester, and a preempted client is served only when no fresh one
      can be reached, the one put back first first. */
  lemma LatestOwnerServes(states: seq<State>, steps: seq<Step>, i: nat, r: Resource, w: ClientId, c: ClientId)
    requires IsRun(states, steps) && i < |steps| && c != w
    requires IsWaiting(states[i], r, Waiter(w, false)) && IsWaiting(states[i], r, Waiter(c, false))
    requires states[i].slots[r].policy == LatestOwner && OwnedBy(states[i + 1], r, w)
    requires steps[i].event != Disconnected(c) && Deliverable(EnvOn(states[i], steps[i], r), c)
    ensures Precedes(EntryOf(states, steps, r, c, i), EntryOf(states, steps, r, w, i))
  {
    ReachableInv(states, steps, i);
    LatestServedTurn(states[i], steps[i], states[i + 1], r, w, c);
    LatestOwnerOrder(states, steps, i, r, c, w);
  }
}
