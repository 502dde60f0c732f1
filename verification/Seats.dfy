/** The seat: the application on the display is served before any other waiter,
    whatever the policy, and its inputs are asked back when it leaves. */
module Seats {
  import opened Types
  import opened Policies
  import opened Queues
  import opened Slots
  import opened Machine
  import opened Turns
  import opened Handoff
  import opened QueueRuns

  /** Client `o` holds `r`, and the earliest seat claim waiting for it is `c`'s. */
  ghost predicate ClaimHeldUp(s: State, r: Resource, c: ClientId, o: ClientId) {
    && OwnedBy(s, r, o)
    && Claims(s.slots[r].waiters) != []
    && Claims(s.slots[r].waiters)[0].client == c
  }

  lemma FirstClaimKept(ws: seq<Waiter>, gone: set<ClientId>)
    requires Claims(ws) != [] && Claims(ws)[0].client !in gone
    ensures Claims(Keep(ws, gone)) != [] && Claims(Keep(ws, gone))[0] == Claims(ws)[0]
  {
    PartitionKeep(ws, gone);
  }

  lemma FirstClaimInBase(policy: Policy, ws: seq<Waiter>, base: seq<Waiter>, e: Event, r: Resource)
    requires BaseLaw(policy, ws, base, e, r) && Claims(ws) != []
    ensures Claims(base) != [] && Claims(base)[0] == Claims(ws)[0]
  {
    if base != ws {
      if JoinsAtBack(ws, base, e.client) {
        var claim :| base == ws + [Waiter(e.client, claim)];
        PartitionConcat(ws, [Waiter(e.client, claim)]);
      } else {
        SingleWaiter(Waiter(e.client, false));
        PartitionConcat([Waiter(e.client, false)], ws);
      }
    }
  }

  /** A freed slot goes to its earliest seat claim, under every policy. */
  lemma ClaimServedFirst(f: Slot, env: Env)
    requires Distinct(f.waiters) && Claims(f.waiters) != [] && Deliverable(env, Claims(f.waiters)[0].client)
    ensures GrantNext(f, env).slot.owner == Some(Claims(f.waiters)[0].client)
  {
    GrantNextIsServe(f, env);
    assert ServiceOrder(f.policy, f.waiters)[0] == Claims(f.waiters)[0];
  }

  lemma SeatFreed(s: State, st: Step, r: Resource, c: ClientId, o: ClientId)
    requires Inv(s) && ClaimHeldUp(s, r, c, o) && FreedQueue(s, st, r).Some?
    requires st.event != Disconnected(c) && Deliverable(EnvOn(s, st, r), c)
    ensures OwnEffect(s, st, r).slot.owner == Some(c)
  {
    var ws, f := s.slots[r].waiters, Freed(s, st, r);
    FreedIsServed(s, st, r);
    if st.event.Disconnected? {
      FirstClaimKept(ws, {st.event.client});
    } else {
      FreedBase(s, st, r);
      FirstClaimInBase(s.slots[r].policy, ws, f.waiters, st.event, r);
    }
    ClaimServedFirst(f, EnvOn(s, st, r));
  }

  lemma SeatHeld(s: State, st: Step, r: Resource, c: ClientId, o: ClientId)
    requires Inv(s) && ClaimHeldUp(s, r, c, o) && FreedQueue(s, st, r).None?
    requires st.event != Disconnected(c)
    ensures ClaimHeldUp(Apply(s, st), r, c, o)
  {
    var ws, base, gone := s.slots[r].waiters, BaseQueue(s, st, r), Leavers(s, st, r);
    assert SlotInv(r, s.slots[r], s.registered);
    SeatLostLaw(s, st, r);
    UnfreedLaw(s, st, r);
    UnfreedBase(s, st, r);
    FirstClaimInBase(s.slots[r].policy, ws, base, st.event, r);
    FirstClaimKept(base, gone);
  }

  lemma ClaimantIsNotHolder(s: State, r: Resource, c: ClientId, o: ClientId)
    requires Inv(s) && ClaimHeldUp(s, r, c, o)
    ensures c != o && o in s.registered
  {
    assert SlotInv(r, s.slots[r], s.registered);
    PartitionClients(s.slots[r].waiters);
  }

  /** One turn: the claim is served exactly if the holder vacates, and otherwise nothing
      has changed for it. */
  ghost predicate SeatTurn(s: State, st: Step, s': State, r: Resource, c: ClientId, o: ClientId) {
    && c != o
    && if Vacates(s, st, r, o) then OwnedBy(s', r, c) else ClaimHeldUp(s', r, c, o)
  }

  lemma SeatStep(s: State, st: Step, s': State, r: Resource, c: ClientId, o: ClientId)
    requires Inv(s) && s' == Apply(s, st) && ClaimHeldUp(s, r, c, o)
    requires st.event != Disconnected(c) && Deliverable(EnvOn(s, st, r), c)
    ensures SeatTurn(s, st, s', r, c, o)
  {
    ClaimantIsNotHolder(s, r, c, o);
    VacatesIsFreed(s, st, r, o);
    if FreedQueue(s, st, r).Some? {
      SeatFreed(s, st, r, c, o);
      SeatLostLaw(s, st, r);
    } else {
      SeatHeld(s, st, r, c, o);
    }
  }

  lemma SeatRunStep(states: seq<State>, steps: seq<Step>, k: nat, r: Resource, c: ClientId, o: ClientId)
    requires IsRun(states, steps) && k < |steps| && ClaimHeldUp(states[k], r, c, o)
    requires steps[k].event != Disconnected(c) && Deliverable(EnvOn(states[k], steps[k], r), c)
    ensures SeatTurn(states[k], steps[k], states[k + 1], r, c, o)
  {
    ReachableInv(states, steps, k);
    SeatStep(states[k], steps[k], states[k + 1], r, c, o);
  }

  /** From state `i` the claim is held up until turn `m`, the first in which the holder
      vacates; or it is held up through state `j`, and `m` is `j`. */
  ghost predicate HeldUpUntil(
    states: seq<State>, steps: seq<Step>, r: Resource, c: ClientId, o: ClientId, i: nat, m: nat, j: nat)
    requires |states| == |steps| + 1 && m <= j < |states|
  {
    && (forall k | i <= k <= m :: ClaimHeldUp(states[k], r, c, o))
    && (forall k | i <= k < m :: !Vacates(states[k], steps[k], r, o))
    && (m < j ==> Vacates(states[m], steps[m], r, o) && OwnedBy(states[m + 1], r, c))
  }

  lemma {:induction false} SeatTrace(
    states: seq<State>, steps: seq<Step>, i: nat, j: nat, r: Resource, c: ClientId, o: ClientId) returns (m: nat)
    requires |states| == |steps| + 1 && i <= j < |states| && ClaimHeldUp(states[i], r, c, o)
    requires forall k | i <= k < j && ClaimHeldUp(states[k], r, c, o) ::
      SeatTurn(states[k], steps[k], states[k + 1], r, c, o)
    ensures i <= m <= j && HeldUpUntil(states, steps, r, c, o, i, m, j)
    decreases j - i
  {
    m := i;
    if i < j {
      assert SeatTurn(states[i], steps[i], states[i + 1], r, c, o);
      if !Vacates(states[i], steps[i], r, o) {
        m := SeatTrace(states, steps, i + 1, j, r, c, o);
      }
    }
  }

  /** Seat priority, under all three policies: once a reachable client has the earliest
      seat claim on an input, it becomes the owner in exactly the first turn in which
      the holder releases, disconnects or is reclaimed, whatever commands come between;
      until then the holder keeps the input and the claim stays first. */
  lemma SeatPriority(states: seq<State>, steps: seq<Step>, i: nat, j: nat, r: Resource, c: ClientId, o: ClientId)
    returns (m: nat)
    requires IsRun(states, steps) && i <= j < |states| && ClaimHeldUp(states[i], r, c, o)
    requires Reachable(states, steps, r, c, i, j)
    ensures i <= m <= j && HeldUpUntil(states, steps, r, c, o, i, m, j)
    ensures forall k | i <= k < j && ClaimHeldUp(states[k], r, c, o) ::
              Vacates(states[k], steps[k], r, o) <==> OwnedBy(states[k + 1], r, c)
  {
    forall k | i <= k < j && ClaimHeldUp(states[k], r, c, o)
      ensures SeatTurn(states[k], steps[k], states[k + 1], r, c, o)
    {
      SeatRunStep(states, steps, k, r, c, o);
    }
    m := SeatTrace(states, steps, i, j, r, c, o);
  }

  /** If the holder is being asked to let go, the claim is served by the first sweep at
      or after the deadline at the latest, unless the device is suspended or the holder
      loses a display in the meantime. */
  lemma SeatServedByDeadline(
    states: seq<State>, steps: seq<Step>, i: nat, j: nat, r: Resource, c: ClientId, o: ClientId)
    returns (m: nat)
    requires IsRun(states, steps) && i <= j < |steps| && ClaimHeldUp(states[i], r, c, o) && Armed(states[i], r)
    requires Reachable(states, steps, r, c, i, j + 1)
    requires forall k | i <= k <= j :: steps[k].event != Suspend(r) && SeatLosses(states[k], steps[k], o) == 0
    requires steps[j].event == Expire && states[i].slots[r].revokeDeadline.value <= steps[j].now
    ensures i < m <= j + 1 && OwnedBy(states[m], r, c)
  {
    var first := SeatPriority(states, steps, i, j + 1, r, c, o);
    m := first + 1;
    if first == j + 1 {
      forall k | i <= k <= j ensures Silent(states[k], steps[k], r, o) {
        assert !Vacates(states[k], steps[k], r, o);
      }
      SilentOwnerEvicted(states, steps, i, j, r, o);
      assert false;
    }
  }

  // ---- What an Acquire gets

  /** May `c` wait for `r`, which somebody else holds? On an input only the app on the
      display may, and there FirstOwner protects only another display's owner. */
  ghost predicate MayWait(s: State, c: ClientId, r: Resource)
    requires r in s.slots
  {
    if r.Input? then HoldsDisplay(s, c) && (s.slots[r].policy == FirstOwner ==> !HolderIsSeat(s, r))
    else s.slots[r].policy != FirstOwner
  }

  /** Somebody else holds `r`, its device is there, and `c` may wait for it. */
  ghost predicate Waits(s: State, c: ClientId, r: Resource) {
    && r in s.slots && !s.slots[r].suspended
    && s.slots[r].owner.Some? && s.slots[r].owner != Some(c) && MayWait(s, c, r)
  }

  /** Exactly when an Acquire is granted or queued. */
  lemma AcquireOutcomeIff(s: State, st: Step, c: ClientId, r: Resource)
    requires Inv(s) && st.event == Acquire(c, r)
    ensures OutcomeOf(s, st) == Outcome.Granted <==> r in s.slots && !s.slots[r].suspended && s.slots[r].owner.None?
    ensures OutcomeOf(s, st) == Queued <==> Waits(s, c, r)
  {
  }

  /** Exactly why an Acquire is refused. */
  lemma DenialIff(s: State, st: Step, c: ClientId, r: Resource)
    requires Inv(s) && st.event == Acquire(c, r)
    ensures OutcomeOf(s, st) == Denied(NotRegistered) <==> r !in s.slots
    ensures OutcomeOf(s, st) == Denied(AlreadyOwned) <==> OwnedBy(s, r, c)
    ensures OutcomeOf(s, st) == Denied(DeviceAway) <==> r in s.slots && !OwnedBy(s, r, c) && s.slots[r].suspended
    ensures OutcomeOf(s, st) == Denied(SeatOnly) <==> HeldByAnother(s, c, r) && r.Input? && !HoldsDisplay(s, c)
    ensures OutcomeOf(s, st) == Denied(Owned) <==>
      && HeldByAnother(s, c, r) && s.slots[r].policy == FirstOwner
      && (r.Input? ==> HoldsDisplay(s, c) && HolderIsSeat(s, r))
  {
  }

  /** Somebody else holds `r`, and its device is there. */
  ghost predicate HeldByAnother(s: State, c: ClientId, r: Resource) {
    r in s.slots && !s.slots[r].suspended && s.slots[r].owner.Some? && s.slots[r].owner != Some(c)
  }

  lemma RefusalChangesNothing(s: State, st: Step, c: ClientId, r: Resource)
    requires st.event == Acquire(c, r) && OutcomeOf(s, st).Denied?
    ensures Apply(s, st) == s && forall q :: Sent(s, st, q) == []
  {
    TouchesOne(s, st, r);
    if r in s.slots {
      assert OwnEffect(s, st, r) == Effect(s.slots[r], []);
      assert s.slots[r := s.slots[r]] == s.slots;
    }
  }

  lemma GrantedEffect(s: State, st: Step, c: ClientId, r: Resource)
    requires st.event == Acquire(c, r) && OutcomeOf(s, st) == Outcome.Granted
    ensures OwnEffect(s, st, r) == Effect(s.slots[r].(owner := Some(c)), []) && s.slots[r].owner.None?
  {
  }

  /** A granted Acquire takes the resource at once, from nobody, past nobody. */
  lemma GrantedTakesFreeSlot(s: State, st: Step, c: ClientId, r: Resource)
    requires Inv(s) && st.event == Acquire(c, r) && OutcomeOf(s, st) == Outcome.Granted
    ensures s.slots[r].waiters == []
    ensures Apply(s, st) == s.(slots := s.slots[r := s.slots[r].(owner := Some(c))]) && Sent(s, st, r) == []
  {
    assert SlotInv(r, s.slots[r], s.registered);
    TouchesOne(s, st, r);
    GrantedEffect(s, st, c, r);
  }

  function ClaimOf(s: State, c: ClientId, r: Resource): bool
    requires r in s.slots
  {
    r.Input? && HoldsDisplay(s, c) && !HolderIsSeat(s, r)
  }

  /** A slot with a new waiter, whose owner is asked to release unless it has been. */
  function Joined(slot: Slot, w: Waiter, now: Instant): Slot {
    slot.(waiters := slot.waiters + [w],
          revokeDeadline := if slot.revokeDeadline.Some? then slot.revokeDeadline else Some(now + REVOKE_TIMEOUT))
  }

  lemma QueuedEffect(s: State, st: Step, c: ClientId, r: Resource)
    requires Inv(s) && st.event == Acquire(c, r) && Waits(s, c, r)
    ensures OwnEffect(s, st, r) == JoinOne(s.slots[r], c, ClaimOf(s, c, r), EnvOn(s, st, r))
  {
  }

  lemma JoinAsks(slot: Slot, w: Waiter, env: Env)
    requires slot.owner.Some? && slot.owner.value in env.registered && !IsQueued(slot.waiters, w.client)
    ensures JoinOne(slot, w.client, w.seatClaim, env) ==
      Effect(Joined(slot, w, env.now), if slot.revokeDeadline.None? then [Revoke(slot.owner.value)] else [])
  {
  }

  /** A queued Acquire leaves a registered holder in place, asked to release if the
      client is new to the queue, and the client is waiting, as a seat claim exactly
      if it is the display's owner and the holder is not. */
  lemma QueuedAsksHolder(s: State, st: Step, c: ClientId, r: Resource)
    requires Inv(s) && st.event == Acquire(c, r) && Waits(s, c, r) && s.slots[r].owner.value in s.registered
    ensures IsQueued(s.slots[r].waiters, c) ==> Apply(s, st) == s && Sent(s, st, r) == []
    ensures !IsQueued(s.slots[r].waiters, c) ==>
      && Apply(s, st) == s.(slots := s.slots[r := Joined(s.slots[r], Waiter(c, ClaimOf(s, c, r)), st.now)])
      && Sent(s, st, r) == if s.slots[r].revokeDeadline.None? then [Revoke(s.slots[r].owner.value)] else []
  {
    var slot := s.slots[r];
    TouchesOne(s, st, r);
    QueuedEffect(s, st, c, r);
    if IsQueued(slot.waiters, c) {
      assert s.slots[r := slot] == s.slots;
    } else {
      JoinAsks(slot, Waiter(c, ClaimOf(s, c, r)), EnvOn(s, st, r));
    }
  }

  // ---- One Revoke in flight

  /** The owner gives up or loses a display, in a turn that does not find the input's
      own deadline passed. */
  ghost predicate LosesSeat(s: State, st: Step, r: Resource, o: ClientId) {
    && r in s.slots && r.Input? && SeatLosses(s, st, o) > 0
    && !(st.event == Expire && Expired(s.slots[r], st.now))
  }

  /** Somebody new joins the queue, and no deadline is armed. */
  ghost predicate StartsRevoke(s: State, st: Step, r: Resource) {
    && st.event.Acquire? && st.event.resource == r && Waits(s, st.event.client, r)
    && !IsQueued(s.slots[r].waiters, st.event.client) && !Armed(s, r)
  }

  lemma AcquireSendsRevokeIff(s: State, st: Step, r: Resource, o: ClientId)
    requires Inv(s) && OwnedBy(s, r, o) && o in s.registered && st.event.Acquire? && st.event.resource == r
    ensures Revoke(o) in Sent(s, st, r) <==> StartsRevoke(s, st, r)
  {
    var c := st.event.client;
    AcquireOutcomeIff(s, st, c, r);
    if Waits(s, c, r) {
      QueuedAsksHolder(s, st, c, r);
    } else {
      RefusalChangesNothing(s, st, c, r);
    }
  }

  lemma HeldRevokeIff(s: State, st: Step, r: Resource, o: ClientId)
    requires Inv(s) && OwnedBy(s, r, o) && o in s.registered && FreedQueue(s, st, r).None?
    requires !(st.event.Acquire? && st.event.resource == r)
    ensures Revoke(o) in Sent(s, st, r) <==> r.Input? && SeatLosses(s, st, o) > 0
  {
    SeatLostLaw(s, st, r);
    UnfreedLaw(s, st, r);
    assert OwnEffect(s, st, r).sent == [] || OwnEffect(s, st, r).sent == [Grant(o)];
  }

  lemma NoRevokeWhenFreed(s: State, st: Step, r: Resource, o: ClientId)
    requires Inv(s) && OwnedBy(s, r, o) && FreedQueue(s, st, r).Some?
    ensures Revoke(o) !in Sent(s, st, r)
  {
    var own := OwnEffect(s, st, r);
    FreedStartsAfresh(s, st, r);
    SeatLostLaw(s, st, r);
    if st.event != Release(o, r) {
      OwnerNotServed(s, st, r, o);
      if own.slot.owner.Some? {
        RepeatOnly(Revoke(own.slot.owner.value), SeatLosses(s, st, own.slot.owner.value), Revoke(o));
      }
    }
  }

  /** Exactly when a turn sends the owner of a resource a Revoke for it. */
  lemma RevokeSentIff(s: State, st: Step, r: Resource, o: ClientId)
    requires Inv(s) && OwnedBy(s, r, o) && o in s.registered
    ensures Revoke(o) in Sent(s, st, r) <==> LosesSeat(s, st, r, o) || StartsRevoke(s, st, r)
  {
    if FreedQueue(s, st, r).Some? {
      NoRevokeWhenFreed(s, st, r, o);
    } else if st.event.Acquire? && st.event.resource == r {
      AcquireSendsRevokeIff(s, st, r, o);
    } else {
      HeldRevokeIff(s, st, r, o);
    }
  }

  /** The documentation says that only one Revoke is ever in flight per resource. Over
      any run, an owner that has not answered a Revoke is sent another exactly when it
      gives up or loses a display, or when somebody joins the queue after a Suspend has
      cleared the deadline. So the rule holds for a display that is never suspended. */
  lemma SecondRevokeIff(states: seq<State>, steps: seq<Step>, i: nat, r: Resource, o: ClientId, j: nat)
    requires IsRun(states, steps) && i < |steps| && RevokedSince(states, steps, r, o, j, i)
    ensures Revoke(o) in Sent(states[i], steps[i], r) <==>
            LosesSeat(states[i], steps[i], r, o) || StartsRevoke(states[i], steps[i], r)
    ensures StartsRevoke(states[i], steps[i], r) ==> exists k | j < k < i :: steps[k].event == Suspend(r)
  {
    ReachableInv(states, steps, i);
    RevokedIsRegistered(states, steps, r, o, j, i);
    RevokeSentIff(states[i], steps[i], r, o);
    if InService(steps, r, j, i) {
      RevokedStaysArmed(states, steps, r, o, j, i);
    }
  }

  lemma RegisteredRunStep(states: seq<State>, steps: seq<Step>, k: nat, r: Resource, o: ClientId)
    requires IsRun(states, steps) && k < |steps| && OwnedBy(states[k + 1], r, o)
    requires Revoke(o) in Sent(states[k], steps[k], r) || (OwnedBy(states[k], r, o) && o in states[k].registered)
    ensures o in states[k + 1].registered
  {
    ReachableInv(states, steps, k);
    if Revoke(o) in Sent(states[k], steps[k], r) {
      RevokeArms(states[k], steps[k], states[k + 1], r, o);
      ReachableInv(states, steps, k + 1);
      assert SlotInv(r, states[k + 1].slots[r], states[k + 1].registered);
    } else if steps[k].event == Disconnected(o) {
      FreedTenureEnds(states[k], steps[k], r, o);
    }
  }

  lemma {:induction false} RegisteredTrace(states: seq<State>, o: ClientId, j: nat, i: nat)
    requires j <= i < |states| && o in states[j].registered
    requires forall k | j <= k < i && o in states[k].registered :: o in states[k + 1].registered
    ensures o in states[i].registered
    decreases i
  {
    if j < i {
      var k := i - 1;
      RegisteredTrace(states, o, j, k);
      assert o in states[k + 1].registered;
    }
  }

  lemma RevokedIsRegistered(states: seq<State>, steps: seq<Step>, r: Resource, o: ClientId, j: nat, i: nat)
    requires IsRun(states, steps) && i < |states| && RevokedSince(states, steps, r, o, j, i)
    ensures o in states[i].registered
  {
    RegisteredRunStep(states, steps, j, r, o);
    forall k | j + 1 <= k < i && o in states[k].registered ensures o in states[k + 1].registered {
      RegisteredRunStep(states, steps, k, r, o);
    }
    RegisteredTrace(states, o, j + 1, i);
  }

  // ---- When waiting means asking

  /** Whoever joins a queue has the owner asked: as long as the tenure lasts, the owner
      does not answer and the resource is not suspended, it is Revoking. */
  lemma JoinerIsHeard(states: seq<State>, steps: seq<Step>, i: nat, j: nat, r: Resource, o: ClientId, c: ClientId)
    requires IsRun(states, steps) && j < i < |states| && steps[j].event == Acquire(c, r)
    requires Waits(states[j], c, r) && !IsQueued(states[j].slots[r].waiters, c) && o in states[j].registered
    requires forall k | j <= k <= i :: OwnedBy(states[k], r, o)
    requires forall k | j < k < i :: steps[k].event != Release(o, r) && steps[k].event != Suspend(r)
    ensures Armed(states[i], r)
  {
    ReachableInv(states, steps, j);
    assert OwnedBy(states[j], r, o);
    QueuedAsksHolder(states[j], steps[j], c, r);
    assert Armed(states[j + 1], r);
    forall k | j + 1 <= k < i && Armed(states[k], r) ensures Armed(states[k + 1], r) {
      ArmedRunStep(states, steps, k, r, o);
    }
    ArmedTrace(states, r, j + 1, i);
  }

  // ---- How long the seat waits

  /** The two ways in which a turn has the registered client `o` asked for `r`, if it
      owns `r` afterwards: it gives up or loses a display, or somebody new joins the
      queue behind it. */
  ghost predicate AsksFor(s: State, st: Step, r: Resource, o: ClientId) {
    && o in s.registered
    && (|| (r.Input? && SeatLosses(s, st, o) > 0)
        || (&& OwnedBy(s, r, o) && st.event.Acquire? && st.event.resource == r
            && Waits(s, st.event.client, r) && !IsQueued(s.slots[r].waiters, st.event.client)))
  }

  lemma AskingArms(s: State, st: Step, s': State, r: Resource, o: ClientId)
    requires Inv(s) && s' == Apply(s, st) && r in s.slots && AsksFor(s, st, r, o) && OwnedBy(s', r, o)
    ensures Armed(s', r)
  {
    if r.Input? && SeatLosses(s, st, o) > 0 {
      SeatLostLaw(s, st, r);
    } else {
      QueuedAsksHolder(s, st, st.event.client, r);
    }
  }

  lemma OwnRevokeIsAcquire(s: State, st: Step, r: Resource, o: ClientId)
    requires Inv(s) && r in s.slots && Revoke(o) in OwnEffect(s, st, r).sent
    ensures OwnedBy(s, r, o) && st.event.Acquire? && st.event.resource == r && FreedQueue(s, st, r).None?
    ensures o in s.registered
  {
    if FreedQueue(s, st, r).Some? {
      FreedStartsAfresh(s, st, r);
    } else {
      UnfreedLaw(s, st, r);
      assert SlotInv(r, s.slots[r], s.registered);
    }
  }

  /** A Revoke has one of the two causes. */
  lemma RevokeHasCause(s: State, st: Step, r: Resource, o: ClientId)
    requires Inv(s) && Revoke(o) in Sent(s, st, r)
    ensures AsksFor(s, st, r, o)
  {
    var own := OwnEffect(s, st, r);
    SeatLostLaw(s, st, r);
    if Revoke(o) in own.sent {
      OwnRevokeIsAcquire(s, st, r, o);
      TouchesOne(s, st, r);
      RevokeSentIff(s, st, r, o);
    } else {
      RepeatOnly(Revoke(own.slot.owner.value), SeatLosses(s, st, own.slot.owner.value), Revoke(o));
    }
  }

  /** In turn `j` the holder was asked, and since then it has owned `r` without a break,
      has not answered, and the device was not suspended. */
  ghost predicate AskedSince(states: seq<State>, steps: seq<Step>, r: Resource, o: ClientId, j: nat, i: nat)
    requires |states| == |steps| + 1 && i < |states|
  {
    && j < i && r in states[j].slots && AsksFor(states[j], steps[j], r, o) && InService(steps, r, j, i)
    && (forall k | j < k <= i :: OwnedBy(states[k], r, o))
    && (forall k | j < k < i :: steps[k].event != Release(o, r))
  }

  lemma AskedIsArmed(states: seq<State>, steps: seq<Step>, r: Resource, o: ClientId, j: nat, i: nat)
    requires IsRun(states, steps) && i < |states| && AskedSince(states, steps, r, o, j, i)
    ensures Armed(states[i], r)
  {
    ReachableInv(states, steps, j);
    assert OwnedBy(states[j + 1], r, o);
    AskingArms(states[j], steps[j], states[j + 1], r, o);
    forall k | j + 1 <= k < i && Armed(states[k], r) ensures Armed(states[k + 1], r) {
      ArmedRunStep(states, steps, k, r, o);
    }
    ArmedTrace(states, r, j + 1, i);
  }

  lemma OriginIsAsking(states: seq<State>, steps: seq<Step>, r: Resource, o: ClientId, j: nat, i: nat)
    requires IsRun(states, steps) && i < |states| && OwnedBy(states[i], r, o) && ComesFrom(states, steps, r, j, i)
    ensures AskedSince(states, steps, r, o, j, i)
  {
    ReachableInv(states, steps, j);
    RevokeHasCause(states[j], steps[j], r, o);
  }

  /** In terms of events: an owner is being asked exactly if, in its present tenure and
      since the last Suspend, somebody joined the queue or it gave up or lost a
      display, and it has not answered. Waiters and claims left over from an earlier
      tenure do not have it asked. */
  lemma RevokingHasCause(states: seq<State>, steps: seq<Step>, i: nat, r: Resource, o: ClientId)
    requires IsRun(states, steps) && i < |states| && OwnedBy(states[i], r, o)
    ensures Armed(states[i], r) <==> exists j: nat :: AskedSince(states, steps, r, o, j, i)
  {
    if Armed(states[i], r) {
      var j := DeadlineOrigin(states, steps, i, r);
      OriginIsAsking(states, steps, r, o, j, i);
    }
    forall j: nat | AskedSince(states, steps, r, o, j, i) ensures Armed(states[i], r) {
      AskedIsArmed(states, steps, r, o, j, i);
    }
  }

  /** How long the seat waits. A sweep serves a reachable earliest claim exactly if the
      holder was sent a Revoke at least REVOKE_TIMEOUT before, in its present tenure, not
      answered and with no Suspend since; and there is such a Revoke exactly if somebody
      joined or the holder gave up or lost a display in that tenure, since the last
      Suspend. Otherwise no sweep, however late, serves it. */
  lemma SeatWaitsForDeadline(states: seq<State>, steps: seq<Step>, i: nat, r: Resource, c: ClientId, o: ClientId)
    requires IsRun(states, steps) && i < |steps| && ClaimHeldUp(states[i], r, c, o)
    requires steps[i].event == Expire && Deliverable(EnvOn(states[i], steps[i], r), c)
    ensures OwnedBy(states[i + 1], r, c) <==>
            exists j: nat :: ComesFrom(states, steps, r, j, i) && steps[j].now + REVOKE_TIMEOUT <= steps[i].now
    ensures (exists j: nat :: ComesFrom(states, steps, r, j, i)) <==>
            exists j: nat :: AskedSince(states, steps, r, o, j, i)
  {
    SeatRunStep(states, steps, i, r, c, o);
    RevokingHasCause(states, steps, i, r, o);
    if Armed(states[i], r) {
      var j := DeadlineOrigin(states, steps, i, r);
    }
  }
}
