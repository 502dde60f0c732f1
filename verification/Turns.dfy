/** Every turn does one of two things to a slot: it frees it and serves the queue,
    or it leaves the queue unserved. The laws of both kinds. */
module Turns {
  import opened Types
  import opened Policies
  import opened Queues
  import opened Slots
  import opened Machine

  /** The queue a Release serves from: a revoked owner is put back in it, provided
      somebody is waiting. */
  function ReleasedQueue(slot: Slot, c: ClientId): seq<Waiter> {
    if slot.revokeDeadline.Some? && slot.waiters != []
    then RequeueWaiter(slot.policy, slot.waiters, Waiter(c, false))
    else slot.waiters
  }

  /** The queue the slot of `r` is served from in this turn, if it is freed in it. */
  function FreedQueue(s: State, st: Step, r: Resource): Option<seq<Waiter>>
    requires r in s.slots
  {
    var slot := s.slots[r];
    match st.event
    case Disconnected(c) => if slot.owner == Some(c) then Some(Keep(slot.waiters, {c})) else None
    case Release(c, q) => if q == r && slot.owner == Some(c) then Some(ReleasedQueue(slot, c)) else None
    case Expire => if Expired(slot, st.now) then Some(slot.waiters) else None
    case Acquire(c, q) =>
      if && q == r && slot.owner.Some? && slot.owner.value !in s.registered && !slot.suspended && slot.owner.value != c
         && (r.Input? ==> HoldsDisplay(s, c))
         && (SeatSteal(r, slot, HoldsDisplay(s, c), HolderIsSeat(s, r)) || slot.policy != FirstOwner)
      then Some([Waiter(c, SeatSteal(r, slot, HoldsDisplay(s, c), HolderIsSeat(s, r)))])
      else None
    case _ => None
  }

  /** The freed slot, about to be served. */
  function Freed(s: State, st: Step, r: Resource): Slot
    requires r in s.slots && FreedQueue(s, st, r).Some?
  {
    s.slots[r].(owner := None, revokeDeadline := None, waiters := FreedQueue(s, st, r).value)
  }

  lemma ReleasedQueueInv(r: Resource, slot: Slot, c: ClientId, registered: set<ClientId>)
    requires SlotInv(r, slot, registered) && slot.owner == Some(c)
    ensures QueueInv(r, slot.policy, ReleasedQueue(slot, c))
  {
    if slot.policy != FirstOwner {
      JoinQueueInv(r, slot.policy, slot.waiters, Waiter(c, false));
    }
  }

  /** The queue a slot is freed with is well formed. */
  lemma FreedQueueInv(s: State, st: Step, r: Resource)
    requires Inv(s) && r in s.slots && FreedQueue(s, st, r).Some?
    ensures QueueInv(r, s.slots[r].policy, FreedQueue(s, st, r).value)
  {
    var slot := s.slots[r];
    assert SlotInv(r, slot, s.registered);
    match st.event
    case Disconnected(c) => KeepQueueInv(r, slot.policy, slot.waiters, {c});
    case Release(c, q) => ReleasedQueueInv(r, slot, c, s.registered);
    case _ =>
  }

  /** A client that finds the owner vanished is served at once, alone in the queue. */
  lemma JoinFreed(slot: Slot, c: ClientId, claim: bool, env: Env)
    requires slot.owner.Some? && slot.owner.value !in env.registered && slot.waiters == [] && slot.revokeDeadline.None?
    ensures JoinOne(slot, c, claim, env) == GrantNext(slot.(owner := None, waiters := [Waiter(c, claim)]), env)
  {
    assert slot.waiters + [Waiter(c, claim)] == [Waiter(c, claim)];
  }

  lemma AcquireOneFreed(r: Resource, slot: Slot, c: ClientId, seat: bool, holderSeat: bool, env: Env)
    requires slot.owner.Some? && slot.owner.value !in env.registered && slot.waiters == [] && slot.revokeDeadline.None?
    requires !slot.suspended && slot.owner.value != c && (r.Input? ==> seat)
    requires SeatSteal(r, slot, seat, holderSeat) || slot.policy != FirstOwner
    ensures AcquireOne(r, slot, c, seat, holderSeat, env).effect ==
      GrantNext(slot.(owner := None, waiters := [Waiter(c, SeatSteal(r, slot, seat, holderSeat))]), env)
  {
    JoinFreed(slot, c, SeatSteal(r, slot, seat, holderSeat), env);
  }

  lemma AcquireFreed(s: State, st: Step, r: Resource)
    requires Inv(s) && r in s.slots && FreedQueue(s, st, r).Some? && st.event.Acquire?
    ensures OwnEffect(s, st, r) == GrantNext(Freed(s, st, r), EnvOn(s, st, r))
  {
    var slot, c := s.slots[r], st.event.client;
    assert SlotInv(r, slot, s.registered);
    AcquireOneFreed(r, slot, c, HoldsDisplay(s, c), HolderIsSeat(s, r), EnvOn(s, st, r));
  }

  /** A freed slot is served from a well-formed queue. */
  lemma FreedIsServed(s: State, st: Step, r: Resource)
    requires Inv(s) && r in s.slots && FreedQueue(s, st, r).Some?
    ensures OwnEffect(s, st, r) == GrantNext(Freed(s, st, r), EnvOn(s, st, r))
    ensures QueueInv(r, s.slots[r].policy, Freed(s, st, r).waiters)
  {
    FreedQueueInv(s, st, r);
    match st.event
    case Acquire(_, _) => AcquireFreed(s, st, r);
    case Disconnected(c) => assert OwnEffect(s, st, r) == DisconnectOne(s.slots[r], c, EnvOn(s, st, r));
    case Release(c, _) => assert OwnEffect(s, st, r) == ReleaseOne(s.slots[r], c, EnvOn(s, st, r));
    case Expire => assert OwnEffect(s, st, r) == SweepOne(s.slots[r], EnvOn(s, st, r));
    case _ =>
  }

  /** Only Suspend and Resume, and only of that resource, move the suspended flag. */
  predicate Flag(e: Event, r: Resource, was: bool) {
    if e == Suspend(r) then true else if e == Resume(r) then false else was
  }

  /** What a turn that frees no slot may do to the owner, the deadline and the client
      at the other end of a channel. */
  ghost predicate LeavesHeld(r: Resource, slot: Slot, own: Effect, st: Step, registered: set<ClientId>) {
    && own.slot.policy == slot.policy && own.slot.suspended == Flag(st.event, r, slot.suspended)
    && (slot.owner.Some? && slot.owner.value in registered ==> own.slot.owner == slot.owner)
    && (slot.owner.None? ==> own.slot.waiters == [] && own.sent == [])
    && (own.slot.owner.Some? && own.slot.owner != slot.owner ==>
          slot.owner.None? && st.event == Acquire(own.slot.owner.value, r))
    && (own.slot.revokeDeadline.Some? && own.slot.revokeDeadline != slot.revokeDeadline ==>
          && own.slot.owner == slot.owner && slot.owner.Some? && slot.revokeDeadline.None?
          && own.slot.revokeDeadline == Some(st.now + REVOKE_TIMEOUT)
          && own.sent == [Revoke(slot.owner.value)])
    && (own.slot.revokeDeadline.Some? && own.slot.revokeDeadline == slot.revokeDeadline ==>
          own.slot.owner == slot.owner)
    && (forall c: ClientId | Revoke(c) in own.sent ::
          slot.owner == Some(c) && slot.revokeDeadline.None? &&
            own.slot.revokeDeadline == Some(st.now + REVOKE_TIMEOUT))
    && (forall c: ClientId | Grant(c) in own.sent :: slot.owner == Some(c) && st.event == Resume(r) && slot.suspended)
  }

  lemma JoinUnfreed(r: Resource, slot: Slot, c: ClientId, claim: bool, st: Step, env: Env)
    requires slot.owner.Some? && (slot.revokeDeadline.Some? || slot.owner.value in env.registered)
    requires env.now == st.now && st.event == Acquire(c, r)
    ensures LeavesHeld(r, slot, JoinOne(slot, c, claim, env), st, env.registered)
  {
  }

  lemma AcquireOneUnfreed(r: Resource, slot: Slot, c: ClientId, seat: bool, holderSeat: bool, st: Step, env: Env)
    requires st.event == Acquire(c, r) && env.now == st.now && (slot.owner.None? ==> slot.waiters == [])
    requires slot.owner.None? ==> slot.revokeDeadline.None?
    requires AcquireOne(r, slot, c, seat, holderSeat, env).outcome == Queued ==>
      slot.revokeDeadline.Some? || (slot.owner.Some? && slot.owner.value in env.registered)
    ensures LeavesHeld(r, slot, AcquireOne(r, slot, c, seat, holderSeat, env).effect, st, env.registered)
  {
    if AcquireOne(r, slot, c, seat, holderSeat, env).outcome == Queued {
      JoinUnfreed(r, slot, c, SeatSteal(r, slot, seat, holderSeat), st, env);
    }
  }

  lemma AcquireUnfreed(s: State, st: Step, r: Resource)
    requires Inv(s) && r in s.slots && FreedQueue(s, st, r).None? && st.event.Acquire? && st.event.resource == r
    ensures LeavesHeld(r, s.slots[r], OwnEffect(s, st, r), st, s.registered)
  {
    var c := st.event.client;
    assert SlotInv(r, s.slots[r], s.registered);
    AcquireOneUnfreed(r, s.slots[r], c, HoldsDisplay(s, c), HolderIsSeat(s, r), st, EnvOn(s, st, r));
  }

  lemma ResumeUnfreed(r: Resource, slot: Slot, st: Step, env: Env)
    requires st.event == Resume(r) && (slot.owner.None? ==> slot.waiters == [] && slot.revokeDeadline.None?)
    requires slot.owner.Some? && slot.owner.value !in env.registered ==> slot.revokeDeadline.None?
    ensures LeavesHeld(r, slot, ResumeOne(slot, env), st, env.registered)
  {
  }

  /** A turn that does not free a slot changes its owner only by taking a free one
      or by resuming one whose owner has vanished, serves nobody from the queue,
      and arms a deadline exactly when it sends the owner a Revoke. */
  lemma UnfreedLaw(s: State, st: Step, r: Resource)
    requires Inv(s) && r in s.slots && FreedQueue(s, st, r).None?
    ensures LeavesHeld(r, s.slots[r], OwnEffect(s, st, r), st, RegisteredAfter(s, st.event))
  {
    var slot, env := s.slots[r], EnvOn(s, st, r);
    assert SlotInv(r, slot, s.registered);
    if st.event.Acquire? && st.event.resource == r {
      AcquireUnfreed(s, st, r);
    } else if st.event == Resume(r) {
      ResumeUnfreed(r, slot, st, env);
    } else {
      var own := OwnEffect(s, st, r);
      assert own.sent == [] && own.slot.owner == slot.owner && own.slot.policy == slot.policy;
      assert own.slot.revokeDeadline == if st.event == Suspend(r) then None else slot.revokeDeadline;
    }
  }

  /** What the queue of an unfreed slot becomes: everybody stays where they are,
      except a client that disconnects, and a client that joins does so at the back. */
  lemma UnfreedQueue(s: State, st: Step, r: Resource)
    requires Inv(s) && r in s.slots && FreedQueue(s, st, r).None?
    ensures var slot, own := s.slots[r], OwnEffect(s, st, r);
      if st.event.Disconnected? then own.slot.waiters == Keep(slot.waiters, {st.event.client})
      else
        own.slot.waiters == slot.waiters ||
        (&& st.event.Acquire? && st.event.resource == r
         && !IsQueued(slot.waiters, st.event.client)
         && slot.owner.Some? && slot.owner.value in s.registered
         && exists claim :: own.slot.waiters == slot.waiters + [Waiter(st.event.client, claim)])
  {
    assert SlotInv(r, s.slots[r], s.registered);
    if st.event.Acquire? && st.event.resource == r {
      var c := st.event.client;
      var claim := SeatSteal(r, s.slots[r], HoldsDisplay(s, c), HolderIsSeat(s, r));
      var own := OwnEffect(s, st, r);
      assert own.slot.waiters == s.slots[r].waiters || own.slot.waiters == s.slots[r].waiters + [Waiter(c, claim)];
    }
  }

  /** Losing a display never changes an input's owner, queue or suspension: it only
      arms the deadline and sends Revokes. */
  lemma SeatLostLaw(s: State, st: Step, r: Resource)
    requires r in s.slots
    ensures var own, e := OwnEffect(s, st, r), SlotEffect(s, st, r);
      && e.slot == own.slot.(revokeDeadline := e.slot.revokeDeadline)
      && own.sent <= e.sent
      && (if r.Input? && own.slot.owner.Some? && own.slot.owner.value in RegisteredAfter(s, st.event)
             && SeatLosses(s, st, own.slot.owner.value) > 0
          then && e.slot.revokeDeadline == Some(st.now + REVOKE_TIMEOUT)
               && Revoke(own.slot.owner.value) in e.sent
               && e.sent == own.sent + Repeat(Revoke(own.slot.owner.value), SeatLosses(s, st, own.slot.owner.value))
          else e == own)
  {
  }

  // ---- Turns about one slot

  /** A turn that touches the slot of `r` alone. */
  ghost predicate OnlyAt(s: State, st: Step, r: Resource, e: Effect) {
    && r in s.slots
    && Apply(s, st) == State(s.slots[r := e.slot], s.registered)
    && forall q :: Sent(s, st, q) == if q == r then e.sent else []
  }

  ghost predicate NoTurn(s: State, st: Step) {
    Apply(s, st) == s && forall q :: Sent(s, st, q) == []
  }

  predicate IsAbout(e: Event, r: Resource) {
    (e.Acquire? || e.Suspend? || e.Resume?) && e.resource == r
  }

  lemma OthersQuiet(s: State, st: Step, r: Resource, q: Resource)
    requires IsAbout(st.event, r) && q in s.slots
    ensures SlotEffect(s, st, q) == if q == r then OwnEffect(s, st, r) else Effect(s.slots[q], [])
  {
    SeatLostLaw(s, st, q);
  }

  /** An Acquire, a Suspend and a Resume change one slot and send messages for it only. */
  lemma TouchesOne(s: State, st: Step, r: Resource)
    requires IsAbout(st.event, r)
    ensures if r in s.slots then OnlyAt(s, st, r, OwnEffect(s, st, r)) else NoTurn(s, st)
  {
    forall q | q in s.slots
      ensures SlotEffect(s, st, q) == if q == r then OwnEffect(s, st, r) else Effect(s.slots[q], [])
    {
      OthersQuiet(s, st, r, q);
    }
    assert Apply(s, st).slots == if r in s.slots then s.slots[r := OwnEffect(s, st, r).slot] else s.slots;
  }

  /** A slot keeps its policy, and its suspended flag unless the turn is about that. */
  lemma PolicyKept(s: State, st: Step, r: Resource)
    requires Inv(s) && r in s.slots
    ensures SlotEffect(s, st, r).slot.policy == s.slots[r].policy
    ensures SlotEffect(s, st, r).slot.suspended == Flag(st.event, r, s.slots[r].suspended)
  {
    SeatLostLaw(s, st, r);
    if FreedQueue(s, st, r).Some? {
      FreedIsServed(s, st, r);
      GrantNextWinner(Freed(s, st, r), EnvOn(s, st, r));
    } else {
      UnfreedLaw(s, st, r);
    }
  }
}
