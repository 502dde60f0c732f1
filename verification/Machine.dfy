/** The policy engine as a state machine: one slot per resource, the set of
    registered clients, and the effect of every command and of the expiry sweep. */
module Machine {
  import opened Types
  import opened Policies
  import opened Queues
  import opened Slots

  datatype State = State(slots: map<Resource, Slot>, registered: set<ClientId>)

  datatype Event =
    | Register(client: ClientId)
    | Disconnected(client: ClientId)
    | Acquire(client: ClientId, resource: Resource)
    | Release(client: ClientId, resource: Resource)
    | Suspend(resource: Resource)
    | Resume(resource: Resource)
    | Offer(resource: Resource, policy: Policy)
    | Broadcast
    | Expire

  /** One turn of the engine loop: an event, the instant it is handled at, and per
      resource the clients whose channel would accept a message. Nothing is assumed
      about channels: any client may be unreachable in any turn. */
  datatype Step = Step(event: Event, now: Instant, live: map<Resource, set<ClientId>>)

  function LiveOn(st: Step, r: Resource): set<ClientId> {
    if r in st.live then st.live[r] else {}
  }

  /** The registry after the event, which is what its handler looks clients up in. */
  function RegisteredAfter(s: State, e: Event): set<ClientId> {
    match e
    case Register(c) => s.registered + {c}
    case Disconnected(c) => s.registered - {c}
    case _ => s.registered
  }

  function EnvOn(s: State, st: Step, r: Resource): Env {
    Env(st.now, RegisteredAfter(s, st.event), LiveOn(st, r))
  }

  predicate HoldsDisplay(s: State, c: ClientId) {
    exists r | r in s.slots :: IsDisplay(r) && s.slots[r].owner == Some(c)
  }

  predicate HolderIsSeat(s: State, r: Resource)
    requires r in s.slots
  {
    s.slots[r].owner.Some? && HoldsDisplay(s, s.slots[r].owner.value)
  }

  /** The displays a sweep takes from client `c`. */
  function LostDisplays(s: State, now: Instant, c: ClientId): set<Resource> {
    set r | r in s.slots && IsDisplay(r) && s.slots[r].owner == Some(c) && Expired(s.slots[r], now)
  }

  /** How many displays client `c` gives up or loses in this turn. */
  function SeatLosses(s: State, st: Step, c: ClientId): nat {
    match st.event
    case Release(d, r) => if c == d && IsDisplay(r) && r in s.slots && s.slots[r].owner == Some(c) then 1 else 0
    case Expire => |LostDisplays(s, st.now, c)|
    case _ => 0
  }

  /** What the event does to the slot of `r` by itself. */
  function OwnEffect(s: State, st: Step, r: Resource): Effect
    requires r in s.slots
  {
    var slot, env := s.slots[r], EnvOn(s, st, r);
    match st.event
    case Disconnected(c) => DisconnectOne(slot, c, env)
    case Acquire(c, q) =>
      if q == r then AcquireOne(r, slot, c, HoldsDisplay(s, c), HolderIsSeat(s, r), env).effect else Effect(slot, [])
    case Release(c, q) => if q == r then ReleaseOne(slot, c, env) else Effect(slot, [])
    case Suspend(q) => if q == r then Effect(SuspendOne(slot), []) else Effect(slot, [])
    case Resume(q) => if q == r then ResumeOne(slot, env) else Effect(slot, [])
    case Expire => SweepOne(slot, env)
    case _ => Effect(slot, [])
  }

  /** An input goes with its owner's display: the event itself, then one Revoke for
      each display the slot's owner lost in this turn. */
  function SlotEffect(s: State, st: Step, r: Resource): Effect
    requires r in s.slots
  {
    var own := OwnEffect(s, st, r);
    if r.Input? && own.slot.owner.Some? then
      var lost := SeatLost(own.slot, SeatLosses(s, st, own.slot.owner.value), EnvOn(s, st, r));
      Effect(lost.slot, own.sent + lost.sent)
    else own
  }

  function Apply(s: State, st: Step): (s': State)
    ensures s.slots.Keys <= s'.slots.Keys
    ensures s'.registered == RegisteredAfter(s, st.event)
  {
    var after := map r | r in s.slots :: SlotEffect(s, st, r).slot;
    var slots :=
      if st.event.Offer? && st.event.resource !in s.slots
      then after[st.event.resource := NewSlot(st.event.policy)]
      else after;
    State(slots, RegisteredAfter(s, st.event))
  }

  /** The messages a turn pushes for one resource, in order. */
  function Sent(s: State, st: Step, r: Resource): seq<Push> {
    if r in s.slots then SlotEffect(s, st, r).sent else []
  }

  function OutcomeOf(s: State, st: Step): Outcome
    requires st.event.Acquire?
  {
    var c, r := st.event.client, st.event.resource;
    if r !in s.slots then Denied(NotRegistered)
    else AcquireOne(r, s.slots[r], c, HoldsDisplay(s, c), HolderIsSeat(s, r), EnvOn(s, st, r)).outcome
  }

  function Spawn(policies: map<Resource, Policy>): State {
    State(map r | r in policies :: NewSlot(policies[r]), {})
  }

  // ---- Runs

  /** Any engine, any commands in any order (no client discipline is assumed), a
      clock that never goes back. `states[i]` is the state before `steps[i]`. */
  ghost predicate IsRun(states: seq<State>, steps: seq<Step>) {
    && |states| == |steps| + 1
    && (exists policies :: states[0] == Spawn(policies))
    && (forall i | 0 <= i < |steps| :: states[i + 1] == Apply(states[i], steps[i]))
    && (forall i, j | 0 <= i <= j < |steps| :: steps[i].now <= steps[j].now)
  }

  /** A run goes on with any turn that is not earlier than the last. */
  lemma RunGrows(states: seq<State>, steps: seq<Step>, st: Step)
    requires IsRun(states, steps) && forall i | 0 <= i < |steps| :: steps[i].now <= st.now
    ensures IsRun(states + [Apply(states[|steps|], st)], steps + [st])
  {
  }

  // ---- The slot invariant

  ghost predicate SlotInv(r: Resource, slot: Slot, registered: set<ClientId>) {
    && QueueInv(r, slot.policy, slot.waiters)
    && (slot.owner.None? ==> slot.waiters == [] && slot.revokeDeadline.None?)
    && (slot.owner.Some? ==> !IsQueued(slot.waiters, slot.owner.value))
    && (slot.owner.Some? && slot.owner.value !in registered ==> slot.waiters == [] && slot.revokeDeadline.None?)
  }

  ghost predicate QueueInv(r: Resource, policy: Policy, ws: seq<Waiter>) {
    && Distinct(ws)
    && (Claims(ws) != [] ==> r.Input?)
    && (policy == FirstOwner ==> Others(ws) == [])
  }

  ghost predicate Inv(s: State) {
    forall r | r in s.slots :: SlotInv(r, s.slots[r], s.registered)
  }

  lemma KeepQueueInv(r: Resource, policy: Policy, ws: seq<Waiter>, gone: set<ClientId>)
    requires QueueInv(r, policy, ws)
    ensures QueueInv(r, policy, Keep(ws, gone))
  {
    KeepDistinct(ws, gone);
    PartitionKeep(ws, gone);
  }

  /** Serving a freed slot restores the invariant. */
  lemma GrantNextInv(r: Resource, slot: Slot, env: Env)
    requires slot.owner.None? && slot.revokeDeadline.None? && QueueInv(r, slot.policy, slot.waiters)
    ensures SlotInv(r, GrantNext(slot, env).slot, env.registered)
  {
    GrantNextWinner(slot, env);
    KeepQueueInv(r, slot.policy, slot.waiters, Served(slot, env));
    KeepClients(slot.waiters, Served(slot, env));
  }

  lemma JoinQueueInv(r: Resource, policy: Policy, ws: seq<Waiter>, w: Waiter)
    requires QueueInv(r, policy, ws) && !IsQueued(ws, w.client)
    requires (w.seatClaim ==> r.Input?) && (policy == FirstOwner ==> w.seatClaim)
    ensures QueueInv(r, policy, ws + [w]) && QueueInv(r, policy, [w] + ws)
    ensures Clients(ws + [w]) == Clients([w] + ws) == Clients(ws) + {w.client}
  {
    SingleWaiter(w);
    DistinctConcat(ws, [w]);
    DistinctConcat([w], ws);
    ClientsConcat(ws, [w]);
    ClientsConcat([w], ws);
    PartitionConcat(ws, [w]);
    PartitionConcat([w], ws);
  }

  lemma JoinInv(r: Resource, slot: Slot, c: ClientId, claim: bool, env: Env)
    requires SlotInv(r, slot, env.registered) && slot.owner.Some? && slot.owner.value != c
    requires (claim ==> r.Input?) && (slot.policy == FirstOwner ==> claim)
    ensures SlotInv(r, JoinOne(slot, c, claim, env).slot, env.registered)
  {
    if !IsQueued(slot.waiters, c) {
      JoinQueueInv(r, slot.policy, slot.waiters, Waiter(c, claim));
      var joined := slot.(waiters := slot.waiters + [Waiter(c, claim)]);
      var o := slot.owner.value;
      if slot.revokeDeadline.None? && o !in env.registered {
        GrantNextInv(r, joined.(owner := None), env);
      }
    }
  }

  lemma AcquireInv(r: Resource, slot: Slot, c: ClientId, requesterSeat: bool, holderSeat: bool, env: Env)
    requires SlotInv(r, slot, env.registered)
    ensures SlotInv(r, AcquireOne(r, slot, c, requesterSeat, holderSeat, env).effect.slot, env.registered)
  {
    if slot.owner.Some? && slot.owner.value != c {
      var steal := SeatSteal(r, slot, requesterSeat, holderSeat);
      if steal || slot.policy != FirstOwner {
        JoinInv(r, slot, c, steal, env);
      }
    }
  }

  lemma ReleaseInv(r: Resource, slot: Slot, c: ClientId, env: Env)
    requires SlotInv(r, slot, env.registered)
    ensures SlotInv(r, ReleaseOne(slot, c, env).slot, env.registered)
  {
    if slot.owner == Some(c) {
      if slot.policy != FirstOwner {
        JoinQueueInv(r, slot.policy, slot.waiters, Waiter(c, false));
      }
      var waiters :=
        if slot.revokeDeadline.Some? && slot.waiters != []
        then RequeueWaiter(slot.policy, slot.waiters, Waiter(c, false))
        else slot.waiters;
      GrantNextInv(r, slot.(owner := None, revokeDeadline := None, waiters := waiters), env);
    }
  }

  lemma DisconnectInv(r: Resource, slot: Slot, c: ClientId, registered: set<ClientId>, env: Env)
    requires SlotInv(r, slot, registered) && env.registered == registered - {c}
    ensures SlotInv(r, DisconnectOne(slot, c, env).slot, env.registered)
  {
    KeepQueueInv(r, slot.policy, slot.waiters, {c});
    KeepClients(slot.waiters, {c});
    if slot.owner == Some(c) {
      GrantNextInv(r, slot.(waiters := Keep(slot.waiters, {c}), owner := None, revokeDeadline := None), env);
    }
  }

  lemma ResumeInv(r: Resource, slot: Slot, env: Env)
    requires SlotInv(r, slot, env.registered)
    ensures SlotInv(r, ResumeOne(slot, env).slot, env.registered)
  {
  }

  lemma OwnEffectInv(s: State, st: Step, r: Resource)
    requires Inv(s) && r in s.slots
    ensures SlotInv(r, OwnEffect(s, st, r).slot, RegisteredAfter(s, st.event))
  {
    var slot, env := s.slots[r], EnvOn(s, st, r);
    assert SlotInv(r, slot, s.registered);
    match st.event
    case Disconnected(c) => DisconnectInv(r, slot, c, s.registered, env);
    case Acquire(c, q) => AcquireInv(r, slot, c, HoldsDisplay(s, c), HolderIsSeat(s, r), env);
    case Release(c, q) => ReleaseInv(r, slot, c, env);
    case Resume(q) => ResumeInv(r, slot, env);
    case Expire =>
      if Expired(slot, st.now) {
        GrantNextInv(r, slot.(owner := None, revokeDeadline := None), env);
      }
    case _ =>
  }

  /** Every command and every sweep keeps every slot well formed, whoever sends it
      and whichever channels are dead. */
  lemma ApplyInv(s: State, st: Step)
    requires Inv(s)
    ensures Inv(Apply(s, st))
  {
    var s' := Apply(s, st);
    forall r | r in s'.slots ensures SlotInv(r, s'.slots[r], s'.registered) {
      if r in s.slots {
        OwnEffectInv(s, st, r);
      }
    }
  }

  /** Work conservation and well-formedness in every reachable state: an ownerless
      slot has nobody waiting, nobody waits twice or waits for what it owns, an
      armed deadline has a registered owner, seat claims exist on inputs only, and
      a FirstOwner queue holds seat claims only. */
  lemma {:induction false} ReachableInv(states: seq<State>, steps: seq<Step>, i: nat)
    requires IsRun(states, steps) && i < |states|
    ensures Inv(states[i])
  {
    if i > 0 {
      ReachableInv(states, steps, i - 1);
      ApplyInv(states[i - 1], steps[i - 1]);
    }
  }
}
