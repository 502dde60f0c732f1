/** Where the parts of an engine state come from: which slots there are and under which
    policy, who is registered, and what a turn leaves alone. */
module Origins {
  import opened Types
  import opened Policies
  import opened Queues
  import opened Slots
  import opened Machine
  import opened Turns
  import opened Handoff
  import opened QueueRuns

  // ---- Slots and policies

  /** A slot nobody owns or waits for, whose device is there. */
  ghost predicate IsFresh(slot: Slot, policy: Policy) {
    && slot.policy == policy && slot.owner.None? && slot.waiters == []
    && slot.revokeDeadline.None? && !slot.suspended
  }

  /** A fresh engine has a free slot for each resource of its policy table, under the
      policy the table says, and no client. */
  lemma SpawnIsFresh(policies: map<Resource, Policy>)
    ensures Spawn(policies).slots.Keys == policies.Keys && Spawn(policies).registered == {}
    ensures forall r | r in policies :: IsFresh(Spawn(policies).slots[r], policies[r])
  {
  }

  predicate IsOfferOf(e: Event, r: Resource) {
    e.Offer? && e.resource == r
  }

  /** Slots appear by Offer only, under the policy of the Offer, and never change it. */
  ghost predicate PolicyStep(s: State, e: Event, s': State, r: Resource) {
    && (r in s'.slots <==> r in s.slots || IsOfferOf(e, r))
    && (r in s.slots && r in s'.slots ==> s'.slots[r].policy == s.slots[r].policy)
    && (r !in s.slots && r in s'.slots ==> IsOfferOf(e, r) && IsFresh(s'.slots[r], e.policy))
  }

  lemma ApplyPolicy(s: State, st: Step, s': State, r: Resource)
    requires Inv(s) && s' == Apply(s, st)
    ensures PolicyStep(s, st.event, s', r)
  {
    if r in s.slots {
      PolicyKept(s, st, r);
    }
  }

  /** An Offer of a resource that has a slot leaves everything as it is. */
  lemma OfferedAgain(s: State, st: Step)
    requires st.event.Offer? && st.event.resource in s.slots
    ensures Apply(s, st) == s && forall r :: Sent(s, st, r) == []
  {
    QuietEvents(s, st);
  }

  ghost predicate IsFirstOffer(steps: seq<Step>, r: Resource, j: nat) {
    j < |steps| && IsOfferOf(steps[j].event, r) && forall k | 0 <= k < j :: !IsOfferOf(steps[k].event, r)
  }

  /** The slot of `r` as the policy table and the first `i` turns have made it: there
      exactly if `r` is in the table or was offered, under the policy of the table, or
      else of the first Offer. */
  ghost predicate HasOrigin(
    policies: map<Resource, Policy>, steps: seq<Step>, i: nat, s: State, r: Resource)
    requires i <= |steps|
  {
    if r in policies then r in s.slots && s.slots[r].policy == policies[r]
    else if r in s.slots then
      exists j: nat :: j < i && IsFirstOffer(steps, r, j) && s.slots[r].policy == steps[j].event.policy
    else forall j | 0 <= j < i :: !IsOfferOf(steps[j].event, r)
  }

  lemma OriginStep(
    policies: map<Resource, Policy>, steps: seq<Step>, i: nat, s: State, s': State, r: Resource)
    requires i < |steps| && HasOrigin(policies, steps, i, s, r) && PolicyStep(s, steps[i].event, s', r)
    ensures HasOrigin(policies, steps, i + 1, s', r)
  {
    if r !in policies {
      if r in s.slots {
        var j: nat :| j < i && IsFirstOffer(steps, r, j) && s.slots[r].policy == steps[j].event.policy;
        assert j < i + 1 && IsFirstOffer(steps, r, j) && s'.slots[r].policy == steps[j].event.policy;
      } else if r in s'.slots {
        assert i < i + 1 && IsFirstOffer(steps, r, i) && s'.slots[r].policy == steps[i].event.policy;
      }
    }
  }

  lemma {:induction false} OriginTrace(
    policies: map<Resource, Policy>, states: seq<State>, steps: seq<Step>, i: nat, r: Resource)
    requires |states| == |steps| + 1 && i < |states| && HasOrigin(policies, steps, 0, states[0], r)
    requires forall k | 0 <= k < |steps| :: PolicyStep(states[k], steps[k].event, states[k + 1], r)
    ensures HasOrigin(policies, steps, i, states[i], r)
  {
    if i > 0 {
      var k := i - 1;
      OriginTrace(policies, states, steps, k, r);
      assert PolicyStep(states[k], steps[k].event, states[k + 1], r);
      OriginStep(policies, steps, k, states[k], states[k + 1], r);
    }
  }

  /** In every run a resource has a slot exactly if the policy table names it or it was
      offered, and the slot's policy is that of the table, or else of the first Offer. */
  lemma PolicyOrigin(
    policies: map<Resource, Policy>, states: seq<State>, steps: seq<Step>, i: nat, r: Resource)
    requires IsRun(states, steps) && states[0] == Spawn(policies) && i < |states|
    ensures HasOrigin(policies, steps, i, states[i], r)
  {
    SpawnIsFresh(policies);
    forall k | 0 <= k < |steps| ensures PolicyStep(states[k], steps[k].event, states[k + 1], r) {
      ReachableInv(states, steps, k);
      ApplyPolicy(states[k], steps[k], states[k + 1], r);
    }
    OriginTrace(policies, states, steps, i, r);
  }

  // ---- The registry

  /** Client `c` registered in turn `j` and has not disconnected since. */
  ghost predicate RegisteredSince(steps: seq<Step>, c: ClientId, j: nat, i: nat)
    requires i <= |steps|
  {
    j < i && steps[j].event == Register(c) && forall k | j < k < i :: steps[k].event != Disconnected(c)
  }

  ghost predicate HasRegistered(steps: seq<Step>, c: ClientId, i: nat)
    requires i <= |steps|
  {
    exists j: nat :: RegisteredSince(steps, c, j, i)
  }

  lemma RegisteredStep(steps: seq<Step>, c: ClientId, i: nat, n: nat)
    requires i < |steps| && n == i + 1
    ensures HasRegistered(steps, c, n) <==>
      steps[i].event == Register(c) || (steps[i].event != Disconnected(c) && HasRegistered(steps, c, i))
  {
    if steps[i].event == Register(c) {
      assert RegisteredSince(steps, c, i, n);
    } else {
      if HasRegistered(steps, c, n) {
        var j: nat :| RegisteredSince(steps, c, j, n);
        assert steps[i].event != Disconnected(c);
        assert RegisteredSince(steps, c, j, i);
      }
      if steps[i].event != Disconnected(c) && HasRegistered(steps, c, i) {
        var j: nat :| RegisteredSince(steps, c, j, i);
        assert RegisteredSince(steps, c, j, n);
      }
    }
  }

  ghost predicate RegistryStep(s: State, e: Event, s': State, c: ClientId) {
    c in s'.registered <==> e == Register(c) || (e != Disconnected(c) && c in s.registered)
  }

  lemma {:induction false} RegistryTrace(states: seq<State>, steps: seq<Step>, i: nat, c: ClientId)
    requires |states| == |steps| + 1 && i < |states| && c !in states[0].registered
    requires forall k | 0 <= k < |steps| :: RegistryStep(states[k], steps[k].event, states[k + 1], c)
    ensures c in states[i].registered <==> HasRegistered(steps, c, i)
  {
    if i > 0 {
      var k := i - 1;
      RegistryTrace(states, steps, k, c);
      RegisteredStep(steps, c, k, i);
      assert RegistryStep(states[k], steps[k].event, states[k + 1], c);
    }
  }

  /** In every run exactly those clients are registered that have registered and have not
      disconnected since. */
  lemma RegisteredIff(states: seq<State>, steps: seq<Step>, i: nat, c: ClientId)
    requires IsRun(states, steps) && i < |states|
    ensures c in states[i].registered <==> HasRegistered(steps, c, i)
  {
    forall k | 0 <= k < |steps| ensures RegistryStep(states[k], steps[k].event, states[k + 1], c) {
    }
    RegistryTrace(states, steps, i, c);
  }

  // ---- Giving up displays

  ghost predicate IsDisplayOf(s: State, d: Resource, c: ClientId) {
    (d.Drm? || d.Fbdev?) && OwnedBy(s, d, c)
  }

  /** The displays a client owns and vacates in this turn. */
  ghost function VacatedDisplays(s: State, st: Step, c: ClientId): set<Resource> {
    set d | d in s.slots && IsDisplayOf(s, d, c) && Vacates(s, st, d, c)
  }

  /** The losses a client is asked for its inputs for are the displays it owns and
      vacates, one each; a client that disconnects is not asked. */
  lemma SeatLossesCount(s: State, st: Step, c: ClientId)
    ensures SeatLosses(s, st, c) == if st.event == Disconnected(c) then 0 else |VacatedDisplays(s, st, c)|
  {
    match st.event
    case Release(d, r) =>
      assert VacatedDisplays(s, st, c) == if c == d && IsDisplayOf(s, r, c) then {r} else {};
    case Expire =>
      assert VacatedDisplays(s, st, c) == LostDisplays(s, st.now, c);
    case Disconnected(d) =>
      assert c != d ==> VacatedDisplays(s, st, c) == {};
    case _ =>
      assert VacatedDisplays(s, st, c) == {};
  }

  lemma SeatLossesIff(s: State, st: Step, c: ClientId)
    ensures SeatLosses(s, st, c) > 0 <==>
      st.event != Disconnected(c) && exists d :: IsDisplayOf(s, d, c) && Vacates(s, st, d, c)
    ensures st.event.Release? ==> SeatLosses(s, st, c) <= 1
  {
    SeatLossesCount(s, st, c);
    if d :| IsDisplayOf(s, d, c) && Vacates(s, st, d, c) {
      assert d in VacatedDisplays(s, st, c);
    }
    if VacatedDisplays(s, st, c) != {} {
      var d :| d in VacatedDisplays(s, st, c);
      assert IsDisplayOf(s, d, c) && Vacates(s, st, d, c);
    }
  }

  // ---- What a turn leaves alone

  /** Registering, a broadcast and an Offer change no slot that is there and send
      nothing for any resource. */
  lemma QuietEvents(s: State, st: Step)
    requires st.event.Register? || st.event.Broadcast? || st.event.Offer?
    ensures forall r | r in s.slots :: Apply(s, st).slots[r] == s.slots[r]
    ensures forall r :: Sent(s, st, r) == []
    ensures !st.event.Offer? || st.event.resource in s.slots ==> Apply(s, st).slots == s.slots
  {
  }

  /** Releasing what one does not own changes nothing at all and sends nothing. */
  lemma StrayRelease(s: State, st: Step, c: ClientId, r: Resource)
    requires st.event == Release(c, r) && !OwnedBy(s, r, c)
    ensures Apply(s, st) == s && forall q :: Sent(s, st, q) == []
  {
    forall q | q in s.slots ensures SlotEffect(s, st, q) == Effect(s.slots[q], []) {
      SeatLostLaw(s, st, q);
    }
    assert Apply(s, st).slots == s.slots;
  }

  /** Releasing a resource touches no other slot, except that the inputs of a registered
      client that gives up a display are asked for, once. */
  lemma ReleaseElsewhere(s: State, st: Step, c: ClientId, r: Resource, q: Resource)
    requires st.event == Release(c, r) && q in s.slots && q != r
    ensures if IsDisplayOf(s, r, c) && q.Input? && OwnedBy(s, q, c) && c in s.registered
      then && Apply(s, st).slots[q] == s.slots[q].(revokeDeadline := Some(st.now + REVOKE_TIMEOUT))
           && Sent(s, st, q) == [Revoke(c)]
      else Apply(s, st).slots[q] == s.slots[q] && Sent(s, st, q) == []
  {
    SeatLostLaw(s, st, q);
    assert Repeat(Revoke(c), 1) == [Revoke(c)];
  }

  /** A sweep touches no slot whose deadline has not passed, except that the inputs of a
      registered client that loses displays are asked for, once for each. */
  lemma SweepElsewhere(s: State, st: Step, r: Resource)
    requires st.event == Expire && r in s.slots && !Expired(s.slots[r], st.now)
    ensures var slot := s.slots[r];
      if r.Input? && slot.owner.Some? && slot.owner.value in s.registered
         && VacatedDisplays(s, st, slot.owner.value) != {}
      then && Apply(s, st).slots[r] == slot.(revokeDeadline := Some(st.now + REVOKE_TIMEOUT))
           && Sent(s, st, r) == Repeat(Revoke(slot.owner.value), |VacatedDisplays(s, st, slot.owner.value)|)
      else Apply(s, st).slots[r] == slot && Sent(s, st, r) == []
  {
    SeatLostLaw(s, st, r);
    if s.slots[r].owner.Some? {
      SeatLossesCount(s, st, s.slots[r].owner.value);
    }
  }

  // ---- Reachable clients

  /** The client's channel is registered after the event and takes a message. */
  ghost predicate HasLiveChannel(s: State, st: Step, r: Resource, c: ClientId) {
    && (st.event == Register(c) || (c in s.registered && st.event != Disconnected(c)))
    && r in st.live && c in st.live[r]
  }

  lemma LiveChannelIff(s: State, st: Step, r: Resource, c: ClientId)
    ensures Deliverable(EnvOn(s, st, r), c) <==> HasLiveChannel(s, st, r, c)
  {
  }

  /** A resource is handed over only to a client whose channel takes the Grant. */
  lemma GrantsReachTheirClients(s: State, st: Step, r: Resource, c: ClientId)
    requires Inv(s) && Grant(c) in Sent(s, st, r) && !st.event.Resume?
    ensures HasLiveChannel(s, st, r, c) && OwnedBy(Apply(s, st), r, c)
  {
    var own := OwnEffect(s, st, r);
    SeatLostLaw(s, st, r);
    LiveChannelIff(s, st, r, c);
    if own.slot.owner.Some? {
      RepeatOnly(Revoke(own.slot.owner.value), SeatLosses(s, st, own.slot.owner.value), Grant(c));
    }
    if FreedQueue(s, st, r).None? {
      UnfreedLaw(s, st, r);
    } else {
      FreedIsServed(s, st, r);
      GrantNextWinner(Freed(s, st, r), EnvOn(s, st, r));
    }
  }

  /** A waiter whose channel takes messages goes on waiting, or is the owner. */
  lemma LiveWaiterIsKept(s: State, st: Step, r: Resource, w: Waiter)
    requires Inv(s) && IsWaiting(s, r, w) && HasLiveChannel(s, st, r, w.client)
    ensures IsWaiting(Apply(s, st), r, w) || OwnedBy(Apply(s, st), r, w.client)
  {
    LiveChannelIff(s, st, r, w.client);
    NoLostWaiter(s, st, r, w);
  }
}
