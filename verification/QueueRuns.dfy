/** What happens to the clients in a queue: nobody is lost, order is kept, and a
    waiter moves towards the head. */
module QueueRuns {
  import opened Types
  import opened Policies
  import opened Queues
  import opened Slots
  import opened Machine
  import opened Turns
  import opened Handoff

  /** The queue with this turn's newcomer in it, before anybody leaves. */
  function BaseQueue(s: State, st: Step, r: Resource): seq<Waiter>
    requires r in s.slots
  {
    match st.event
    case Disconnected(c) => s.slots[r].waiters
    case _ => if FreedQueue(s, st, r).Some? then FreedQueue(s, st, r).value else OwnEffect(s, st, r).slot.waiters
  }

  /** The clients that leave the queue in this turn. */
  function Leavers(s: State, st: Step, r: Resource): set<ClientId>
    requires r in s.slots
  {
    (if st.event.Disconnected? then {st.event.client} else {}) +
    (if FreedQueue(s, st, r).Some? then Served(Freed(s, st, r), EnvOn(s, st, r)) else {})
  }

  ghost predicate JoinsAtBack(ws: seq<Waiter>, base: seq<Waiter>, c: ClientId) {
    c !in Clients(ws) && exists claim :: base == ws + [Waiter(c, claim)]
  }

  ghost predicate JoinsAtFront(ws: seq<Waiter>, base: seq<Waiter>, c: ClientId) {
    c !in Clients(ws) && base == [Waiter(c, false)] + ws
  }

  /** The newcomers of a turn: nobody, or the client of an Acquire at the back, or
      the client of a Release at the end its policy serves last. */
  ghost predicate BaseLaw(policy: Policy, ws: seq<Waiter>, base: seq<Waiter>, e: Event, r: Resource) {
    || base == ws
    || (e.Acquire? && e.resource == r && JoinsAtBack(ws, base, e.client))
    || (e.Release? && e.resource == r && policy == FairQueue && JoinsAtBack(ws, base, e.client))
    || (e.Release? && e.resource == r && policy == LatestOwner && JoinsAtFront(ws, base, e.client))
  }

  lemma FreedBase(s: State, st: Step, r: Resource)
    requires Inv(s) && r in s.slots && FreedQueue(s, st, r).Some?
    ensures BaseLaw(s.slots[r].policy, s.slots[r].waiters, BaseQueue(s, st, r), st.event, r)
  {
    var slot := s.slots[r];
    assert SlotInv(r, slot, s.registered);
    if st.event.Acquire? {
      assert slot.waiters == [];
      assert [] + FreedQueue(s, st, r).value == FreedQueue(s, st, r).value;
    }
  }

  lemma UnfreedBase(s: State, st: Step, r: Resource)
    requires Inv(s) && r in s.slots && FreedQueue(s, st, r).None?
    ensures BaseLaw(s.slots[r].policy, s.slots[r].waiters, BaseQueue(s, st, r), st.event, r)
    ensures OwnEffect(s, st, r).slot.waiters == Keep(BaseQueue(s, st, r), Leavers(s, st, r))
  {
    UnfreedQueue(s, st, r);
    if st.event.Disconnected? {
      assert Leavers(s, st, r) == {st.event.client};
    } else {
      assert Leavers(s, st, r) == {};
      KeepAll(BaseQueue(s, st, r), {});
    }
  }

  lemma FreedLeaves(s: State, st: Step, r: Resource)
    requires Inv(s) && r in s.slots && FreedQueue(s, st, r).Some?
    ensures OwnEffect(s, st, r).slot.waiters == Keep(BaseQueue(s, st, r), Leavers(s, st, r))
    ensures OwnEffect(s, st, r).slot.owner.Some? ==>
              && OwnEffect(s, st, r).slot.owner.value in Leavers(s, st, r)
              && Grant(OwnEffect(s, st, r).slot.owner.value) in OwnEffect(s, st, r).sent
    ensures forall c | c in Leavers(s, st, r) ::
              st.event == Disconnected(c) || OwnEffect(s, st, r).slot.owner == Some(c) ||
                !Deliverable(EnvOn(s, st, r), c)
  {
    var f, env := Freed(s, st, r), EnvOn(s, st, r);
    FreedIsServed(s, st, r);
    GrantNextWinner(f, env);
    if st.event.Disconnected? {
      KeepTwice(s.slots[r].waiters, {st.event.client}, Served(f, env));
    } else {
      assert Leavers(s, st, r) == Served(f, env);
    }
  }

  /** The law of queues, for every turn: at most one client is added, at an end of
      the queue, by its own Acquire or Release; the leavers disconnected, won, or
      could not be reached; nobody else moves. */
  lemma QueueLaw(s: State, st: Step, r: Resource)
    requires Inv(s) && r in s.slots
    ensures var ws, after := s.slots[r].waiters, Apply(s, st).slots[r];
      var base, gone := BaseQueue(s, st, r), Leavers(s, st, r);
      && after.waiters == Keep(base, gone)
      && BaseLaw(s.slots[r].policy, ws, base, st.event, r)
      && (forall c | c in gone ::
            st.event == Disconnected(c) || (after.owner == Some(c) && Grant(c) in Sent(s, st, r)) ||
            (!Deliverable(EnvOn(s, st, r), c) && FreedQueue(s, st, r).Some?))
  {
    SeatLostLaw(s, st, r);
    if FreedQueue(s, st, r).Some? {
      FreedBase(s, st, r);
      FreedLeaves(s, st, r);
    } else {
      UnfreedBase(s, st, r);
    }
  }

  lemma BaseKeepsClients(policy: Policy, ws: seq<Waiter>, base: seq<Waiter>, e: Event, r: Resource, w: Waiter)
    requires BaseLaw(policy, ws, base, e, r) && w in ws
    ensures w in base
  {
  }

  // ---- Nobody is lost

  /** A client leaves a queue only by becoming the owner with a Grant, by
      disconnecting, or because its channel could not take a Grant. */
  lemma NoLostWaiter(s: State, st: Step, r: Resource, w: Waiter)
    requires Inv(s) && r in s.slots && w in s.slots[r].waiters
    ensures || w in Apply(s, st).slots[r].waiters
            || (OwnedBy(Apply(s, st), r, w.client) && Grant(w.client) in Sent(s, st, r))
            || st.event == Disconnected(w.client)
            || (!Deliverable(EnvOn(s, st, r), w.client) && FreedQueue(s, st, r).Some?)
  {
    var base, gone := BaseQueue(s, st, r), Leavers(s, st, r);
    QueueLaw(s, st, r);
    BaseKeepsClients(s.slots[r].policy, s.slots[r].waiters, base, st.event, r, w);
    if w.client !in gone {
      KeepWaiter(base, gone, w);
    }
  }

  /** A client stays reachable over the turns `i` to `j`: it does not disconnect and
      its channel takes messages for `r`. */
  ghost predicate Reachable(states: seq<State>, steps: seq<Step>, r: Resource, c: ClientId, i: nat, j: nat)
    requires |states| == |steps| + 1 && j <= |steps|
  {
    forall k | i <= k < j ::
      steps[k].event != Disconnected(c) && Deliverable(EnvOn(states[k], steps[k], r), c)
  }

  ghost predicate NeverOwner(states: seq<State>, r: Resource, c: ClientId, i: nat, j: nat)
    requires j < |states|
  {
    forall k | i < k <= j :: !OwnedBy(states[k], r, c)
  }

  ghost predicate IsWaiting(s: State, r: Resource, w: Waiter) {
    r in s.slots && w in s.slots[r].waiters
  }

  lemma WaitingRunStep(states: seq<State>, steps: seq<Step>, k: nat, r: Resource, w: Waiter)
    requires IsRun(states, steps) && k < |steps| && IsWaiting(states[k], r, w)
    requires steps[k].event != Disconnected(w.client) && Deliverable(EnvOn(states[k], steps[k], r), w.client)
    ensures IsWaiting(states[k + 1], r, w) || OwnedBy(states[k + 1], r, w.client)
  {
    ReachableInv(states, steps, k);
    NoLostWaiter(states[k], steps[k], r, w);
  }

  lemma {:induction false} WaitingTrace(states: seq<State>, i: nat, j: nat, r: Resource, w: Waiter)
    requires i <= j < |states| && IsWaiting(states[i], r, w)
    requires forall k | i <= k < j && IsWaiting(states[k], r, w) :: IsWaiting(states[k + 1], r, w)
    ensures IsWaiting(states[j], r, w)
    decreases j
  {
    if i < j {
      var k := j - 1;
      WaitingTrace(states, i, k, r, w);
      assert IsWaiting(states[k + 1], r, w);
    }
  }

  /** Over any run, a reachable client that is queued is still queued, with the same
      claim, until it becomes the owner. */
  lemma WaiterStaysUntilServed(states: seq<State>, steps: seq<Step>, i: nat, j: nat, r: Resource, w: Waiter)
    requires IsRun(states, steps) && i <= j < |states| && IsWaiting(states[i], r, w)
    requires Reachable(states, steps, r, w.client, i, j) && NeverOwner(states, r, w.client, i, j)
    ensures IsWaiting(states[j], r, w)
  {
    forall k | i <= k < j && IsWaiting(states[k], r, w) ensures IsWaiting(states[k + 1], r, w) {
      WaitingRunStep(states, steps, k, r, w);
    }
    WaitingTrace(states, i, j, r, w);
  }

  // ---- FairQueue

  /** The resource goes to somebody who was waiting for it. */
  predicate ServedFromQueue(s: State, s': State, r: Resource) {
    && r in s.slots && r in s'.slots
    && s'.slots[r].owner.Some? && IsQueued(s.slots[r].waiters, s'.slots[r].owner.value)
  }

  lemma ServedMeansFreed(s: State, st: Step, r: Resource)
    requires Inv(s) && ServedFromQueue(s, Apply(s, st), r)
    ensures FreedQueue(s, st, r).Some?
    ensures OwnEffect(s, st, r).slot.owner == Apply(s, st).slots[r].owner
    ensures Apply(s, st).slots[r].owner.value in Leavers(s, st, r)
  {
    assert SlotInv(r, s.slots[r], s.registered);
    SeatLostLaw(s, st, r);
    if FreedQueue(s, st, r).None? {
      UnfreedLaw(s, st, r);
    } else {
      FreedLeaves(s, st, r);
    }
  }

  lemma {:induction false} WinnerIsFirst(order: seq<Waiter>, env: Env, c: ClientId)
    requires c in Clients(order) && Deliverable(env, c) && Winner(order, env) != Some(c)
    ensures Winner(order, env).Some? && Ahead(order, Winner(order, env).value, c)
  {
    if !Deliverable(env, order[0].client) {
      WinnerIsFirst(order[1..], env, c);
    }
    assert Before(order, c)[0] == order[0] && Before(order, c)[1..] == Before(order[1..], c);
  }

  /** On a FairQueue without seat claims, the client served stood before every
      reachable client that goes on waiting. */
  lemma FairWinnerIsAhead(f: Slot, env: Env, c: ClientId)
    requires Distinct(f.waiters) && f.owner.None? && f.policy == FairQueue && Claims(f.waiters) == []
    requires c in Clients(f.waiters) && Deliverable(env, c) && GrantNext(f, env).slot.owner != Some(c)
    ensures GrantNext(f, env).slot.owner.Some? && Ahead(f.waiters, GrantNext(f, env).slot.owner.value, c)
  {
    GrantNextIsServe(f, env);
    NoClaims(f.waiters);
    assert ServiceOrder(FairQueue, f.waiters) == f.waiters;
    WinnerIsFirst(f.waiters, env, c);
  }

  /** A reachable waiter that is not served is passed only by somebody before it. */
  lemma FairFreed(s: State, st: Step, r: Resource, c: ClientId)
    requires Inv(s) && r in s.slots && IsDisplay(r) && s.slots[r].policy == FairQueue
    requires IsQueued(s.slots[r].waiters, c) && FreedQueue(s, st, r).Some?
    requires st.event != Disconnected(c) && Deliverable(EnvOn(s, st, r), c)
    requires OwnEffect(s, st, r).slot.owner != Some(c)
    ensures OwnEffect(s, st, r).slot.owner.Some?
    ensures Ahead(s.slots[r].waiters, OwnEffect(s, st, r).slot.owner.value, c)
  {
    var ws, f, env := s.slots[r].waiters, Freed(s, st, r), EnvOn(s, st, r);
    assert SlotInv(r, s.slots[r], s.registered);
    FreedIsServed(s, st, r);
    if st.event.Disconnected? {
      var gone := {st.event.client};
      KeepClients(ws, gone);
      FairWinnerIsAhead(f, env, c);
      KeepBefore(ws, gone, c);
      KeepClients(Before(ws, c), gone);
    } else {
      FreedBase(s, st, r);
      var base := f.waiters;
      if base != ws {
        var w := Waiter(st.event.client, false);
        assert base == ws + [w];
        BeforeConcat(ws, [w], c);
        ClientsConcat(ws, [w]);
      }
      FairWinnerIsAhead(f, env, c);
    }
  }

  lemma PositionInBase(policy: Policy, ws: seq<Waiter>, base: seq<Waiter>, e: Event, r: Resource, c: ClientId)
    requires BaseLaw(policy, ws, base, e, r) && policy == FairQueue && c in Clients(ws)
    ensures c in Clients(base) && Before(base, c) == Before(ws, c)
  {
    if base != ws {
      var claim :| base == ws + [Waiter(e.client, claim)];
      BeforeConcat(ws, [Waiter(e.client, claim)], c);
      ClientsConcat(ws, [Waiter(e.client, claim)]);
    }
  }

  /** One turn of a FairQueue display: a reachable waiter never moves back, and
      moves up at every grant from the queue it does not win itself. */
  lemma FairTurn(s: State, st: Step, r: Resource, c: ClientId)
    requires Inv(s) && r in s.slots && IsDisplay(r) && s.slots[r].policy == FairQueue
    requires IsQueued(s.slots[r].waiters, c)
    requires st.event != Disconnected(c) && Deliverable(EnvOn(s, st, r), c) && !OwnedBy(Apply(s, st), r, c)
    ensures var ws, after := s.slots[r].waiters, Apply(s, st).slots[r].waiters;
      && IsQueued(after, c)
      && Position(after, c) + (if ServedFromQueue(s, Apply(s, st), r) then 1 else 0) <= Position(ws, c)
  {
    var ws, base, gone := s.slots[r].waiters, BaseQueue(s, st, r), Leavers(s, st, r);
    QueueLaw(s, st, r);
    PositionInBase(FairQueue, ws, base, st.event, r, c);
    KeepClients(base, gone);
    KeepPosition(base, gone, c);
    if ServedFromQueue(s, Apply(s, st), r) {
      ServedMeansFreed(s, st, r);
      FairFreed(s, st, r, c);
    }
  }

  ghost predicate FairlyQueued(s: State, r: Resource, c: ClientId) {
    r in s.slots && IsDisplay(r) && s.slots[r].policy == FairQueue && IsQueued(s.slots[r].waiters, c)
  }

  ghost function Rank(s: State, r: Resource, c: ClientId): nat {
    if r in s.slots then Position(s.slots[r].waiters, c) else 0
  }

  ghost function GrantsIn(s: State, s': State, r: Resource): nat {
    if ServedFromQueue(s, s', r) then 1 else 0
  }

  /** From one state to the next the client is still queued, and each grant to somebody
      else has moved it up. */
  ghost predicate MovesUp(s: State, s': State, r: Resource, c: ClientId) {
    FairlyQueued(s', r, c) && Rank(s', r, c) + GrantsIn(s, s', r) <= Rank(s, r, c)
  }

  lemma FairStep(s: State, st: Step, s': State, r: Resource, c: ClientId)
    requires Inv(s) && s' == Apply(s, st) && FairlyQueued(s, r, c)
    requires st.event != Disconnected(c) && Deliverable(EnvOn(s, st, r), c) && !OwnedBy(s', r, c)
    ensures MovesUp(s, s', r, c)
  {
    PolicyKept(s, st, r);
    FairTurn(s, st, r, c);
  }

  lemma FairRunStep(states: seq<State>, steps: seq<Step>, k: nat, r: Resource, c: ClientId)
    requires IsRun(states, steps) && k < |steps| && FairlyQueued(states[k], r, c) && !OwnedBy(states[k + 1], r, c)
    requires steps[k].event != Disconnected(c) && Deliverable(EnvOn(states[k], steps[k], r), c)
    ensures MovesUp(states[k], states[k + 1], r, c)
  {
    ReachableInv(states, steps, k);
    FairStep(states[k], steps[k], states[k + 1], r, c);
  }

  /** How often the resource was handed to a waiter between the states `i` and `j`. */
  ghost function Grants(states: seq<State>, r: Resource, i: nat, j: nat): nat
    requires i <= j < |states|
    decreases j
  {
    if i == j then 0 else Grants(states, r, i, j - 1) + GrantsIn(states[j - 1], states[j], r)
  }

  lemma {:induction false} FairTrace(states: seq<State>, i: nat, j: nat, r: Resource, c: ClientId)
    requires i <= j < |states| && FairlyQueued(states[i], r, c)
    requires forall k | i <= k < j && FairlyQueued(states[k], r, c) :: MovesUp(states[k], states[k + 1], r, c)
    ensures FairlyQueued(states[j], r, c)
    ensures Rank(states[j], r, c) + Grants(states, r, i, j) <= Rank(states[i], r, c)
    decreases j
  {
    if i < j {
      var k := j - 1;
      FairTrace(states, i, k, r, c);
      assert MovesUp(states[k], states[k + 1], r, c);
    }
  }

  /** Bounded overtaking. On a FairQueue display, a reachable client at rank `p` that
      has not been served yet has been passed over at most `p` times, and each grant
      to somebody else has moved it up: after `p + 1` grants it has been the owner,
      whatever anybody sends in between. */
  lemma FairQueueBoundedOvertaking(states: seq<State>, steps: seq<Step>, i: nat, j: nat, r: Resource, c: ClientId)
    requires IsRun(states, steps) && i <= j < |states| && FairlyQueued(states[i], r, c)
    requires Reachable(states, steps, r, c, i, j) && NeverOwner(states, r, c, i, j)
    ensures FairlyQueued(states[j], r, c)
    ensures Rank(states[j], r, c) + Grants(states, r, i, j) <= Rank(states[i], r, c)
  {
    forall k | i <= k < j && FairlyQueued(states[k], r, c) ensures MovesUp(states[k], states[k + 1], r, c) {
      FairRunStep(states, steps, k, r, c);
    }
    FairTrace(states, i, j, r, c);
  }
}
