/** Who may lose a resource, when, and after what warning: the revoke handshake
    and its deadlines, over whole runs. */
module Handoff {
  import opened Types
  import opened Policies
  import opened Queues
  import opened Slots
  import opened Machine
  import opened Turns

  ghost predicate OwnedBy(s: State, r: Resource, c: ClientId) {
    r in s.slots && s.slots[r].owner == Some(c)
  }

  ghost predicate Armed(s: State, r: Resource) {
    r in s.slots && s.slots[r].revokeDeadline.Some?
  }

  /** The holder `h` of `r` lets it go in this turn, or has it reclaimed. */
  ghost predicate Vacates(s: State, st: Step, r: Resource, h: ClientId) {
    || st.event == Release(h, r) || st.event == Disconnected(h)
    || (r in s.slots && st.event == Expire && Expired(s.slots[r], st.now))
  }

  // ---- One turn

  /** A slot is freed exactly when its registered holder vacates it. */
  lemma VacatesIsFreed(s: State, st: Step, r: Resource, h: ClientId)
    requires Inv(s) && OwnedBy(s, r, h) && (h in s.registered || s.slots[r].suspended)
    ensures Vacates(s, st, r, h) <==> FreedQueue(s, st, r).Some?
  {
  }

  /** A registered owner stops owning only by releasing, by disconnecting, or in a
      sweep that finds its deadline passed. */
  lemma OwnerKept(s: State, st: Step, r: Resource, o: ClientId)
    requires Inv(s) && OwnedBy(s, r, o) && o in s.registered
    ensures OwnedBy(Apply(s, st), r, o) || Vacates(s, st, r, o)
  {
    SeatLostLaw(s, st, r);
    VacatesIsFreed(s, st, r, o);
    if FreedQueue(s, st, r).None? {
      UnfreedLaw(s, st, r);
    }
  }

  /** A freed slot starts afresh: no deadline, unless its new owner lost a display. */
  lemma FreedStartsAfresh(s: State, st: Step, r: Resource)
    requires Inv(s) && r in s.slots && FreedQueue(s, st, r).Some?
    ensures var own := OwnEffect(s, st, r);
      && own.slot.revokeDeadline.None?
      && own.slot == s.slots[r].(owner := own.slot.owner, revokeDeadline := None, waiters := own.slot.waiters)
      && own.sent == (if own.slot.owner.Some? then [Grant(own.slot.owner.value)] else [])
      && (own.slot.owner.Some? ==> own.slot.owner.value in Clients(FreedQueue(s, st, r).value))
  {
    FreedIsServed(s, st, r);
    GrantNextWinner(Freed(s, st, r), EnvOn(s, st, r));
  }

  /** The deadline is armed in this turn, with a Revoke to the owner. */
  ghost predicate Arms(after: Slot, sent: seq<Push>, now: Instant) {
    after.owner.Some? && after.revokeDeadline == Some(now + REVOKE_TIMEOUT) && Revoke(after.owner.value) in sent
  }

  /** The deadline and the tenure were there before this turn. */
  ghost predicate KeepsArmed(slot: Slot, after: Slot, e: Event, r: Resource) {
    && after.owner.Some? && slot.owner == after.owner && slot.revokeDeadline == after.revokeDeadline
    && e != Release(after.owner.value, r) && e != Suspend(r)
  }

  lemma SuspendDisarms(s: State, st: Step, r: Resource)
    requires r in s.slots && st.event == Suspend(r)
    ensures SlotEffect(s, st, r).slot.revokeDeadline.None?
  {
  }

  lemma ArmedWhileHeld(s: State, st: Step, r: Resource)
    requires Inv(s) && r in s.slots && FreedQueue(s, st, r).None? && st.event != Suspend(r)
    requires OwnEffect(s, st, r).slot.revokeDeadline.Some?
    ensures var own := OwnEffect(s, st, r);
      Arms(own.slot, own.sent, st.now) || KeepsArmed(s.slots[r], own.slot, st.event, r)
  {
    assert SlotInv(r, s.slots[r], s.registered);
    UnfreedLaw(s, st, r);
  }

  lemma SlotKeptOrArmed(s: State, st: Step, r: Resource)
    requires Inv(s) && r in s.slots && SlotEffect(s, st, r).slot.revokeDeadline.Some?
    ensures var e := SlotEffect(s, st, r);
      Arms(e.slot, e.sent, st.now) || KeepsArmed(s.slots[r], e.slot, st.event, r)
  {
    SeatLostLaw(s, st, r);
    if st.event == Suspend(r) {
      SuspendDisarms(s, st, r);
    } else if SlotEffect(s, st, r) == OwnEffect(s, st, r) {
      if FreedQueue(s, st, r).Some? {
        FreedStartsAfresh(s, st, r);
      } else {
        ArmedWhileHeld(s, st, r);
      }
    }
  }

  ghost predicate ArmedIn(s: State, st: Step, s': State, r: Resource)
    requires Armed(s', r)
  {
    Arms(s'.slots[r], Sent(s, st, r), st.now)
  }

  ghost predicate ArmedBefore(s: State, st: Step, s': State, r: Resource)
    requires Armed(s', r)
  {
    r in s.slots && KeepsArmed(s.slots[r], s'.slots[r], st.event, r)
  }

  /** An armed deadline is the old one of the same tenure, or it was armed in this
      turn together with a Revoke to the owner. */
  lemma DeadlineKeptOrArmed(s: State, st: Step, s': State, r: Resource)
    requires Inv(s) && s' == Apply(s, st) && Armed(s', r)
    ensures ArmedIn(s, st, s', r) || ArmedBefore(s, st, s', r)
  {
    if r in s.slots {
      SlotKeptOrArmed(s, st, r);
    }
  }

  /** The other way round: a Revoke arms the deadline of its addressee, who owns the
      resource. */
  lemma RevokeArms(s: State, st: Step, s': State, r: Resource, o: ClientId)
    requires Inv(s) && s' == Apply(s, st) && Revoke(o) in Sent(s, st, r)
    ensures OwnedBy(s', r, o) && s'.slots[r].revokeDeadline == Some(st.now + REVOKE_TIMEOUT)
  {
    SeatLostLaw(s, st, r);
    var own := OwnEffect(s, st, r);
    if own.slot.owner.Some? {
      RepeatOnly(Revoke(own.slot.owner.value), SeatLosses(s, st, own.slot.owner.value), Revoke(o));
    }
    if FreedQueue(s, st, r).None? {
      UnfreedLaw(s, st, r);
    } else {
      FreedStartsAfresh(s, st, r);
    }
  }

  lemma {:induction false} RepeatOnly(p: Push, n: nat, q: Push)
    ensures q in Repeat(p, n) <==> q == p && n > 0
  {
    if n > 0 {
      RepeatOnly(p, n - 1, q);
    }
  }

  /** A deadline stays armed through any turn in which the owner keeps the resource,
      does not answer and is not suspended. */
  lemma StaysArmed(s: State, st: Step, s': State, r: Resource, o: ClientId)
    requires Inv(s) && s' == Apply(s, st) && OwnedBy(s, r, o) && Armed(s, r) && OwnedBy(s', r, o)
    requires st.event != Release(o, r) && st.event != Suspend(r)
    ensures Armed(s', r)
  {
    SeatLostLaw(s, st, r);
    assert SlotInv(r, s.slots[r], s.registered);
    if FreedQueue(s, st, r).Some? {
      FreedTenureEnds(s, st, r, o);
    } else {
      HeldStaysArmed(s, st, r);
    }
  }

  lemma HeldStaysArmed(s: State, st: Step, r: Resource)
    requires Inv(s) && r in s.slots && FreedQueue(s, st, r).None? && s.slots[r].revokeDeadline.Some? &&
      st.event != Suspend(r)
    ensures OwnEffect(s, st, r).slot.revokeDeadline == s.slots[r].revokeDeadline
  {
    assert SlotInv(r, s.slots[r], s.registered);
  }

  // ---- Whole runs

  /** A Revoke for `r` was sent to `o` in turn `j`, and up to state `i` client `o` has
      owned `r` without a break and without answering: the tenure is the same. */
  ghost predicate RevokedSince(states: seq<State>, steps: seq<Step>, r: Resource, o: ClientId, j: nat, i: nat)
    requires |states| == |steps| + 1 && i < |states|
  {
    && j < i
    && Revoke(o) in Sent(states[j], steps[j], r)
    && (forall k | j < k <= i :: OwnedBy(states[k], r, o))
    && (forall k | j < k < i :: steps[k].event != Release(o, r))
  }

  /** No Suspend(r) came after turn `j`. */
  ghost predicate InService(steps: seq<Step>, r: Resource, j: nat, i: nat)
    requires i <= |steps|
  {
    forall k | j < k < i :: steps[k].event != Suspend(r)
  }

  lemma DeadlineRunStep(states: seq<State>, steps: seq<Step>, k: nat, r: Resource)
    requires IsRun(states, steps) && k < |steps| && Armed(states[k + 1], r)
    ensures ArmedIn(states[k], steps[k], states[k + 1], r) || ArmedBefore(states[k], steps[k], states[k + 1], r)
  {
    ReachableInv(states, steps, k);
    DeadlineKeptOrArmed(states[k], steps[k], states[k + 1], r);
  }

  /** The deadline in state `i` comes from a Revoke sent in turn `j` of the present
      tenure, and nothing has cleared it since. */
  ghost predicate ComesFrom(states: seq<State>, steps: seq<Step>, r: Resource, j: nat, i: nat)
    requires |states| == |steps| + 1 && i < |states|
  {
    && Armed(states[i], r) && states[i].slots[r].owner.Some?
    && RevokedSince(states, steps, r, states[i].slots[r].owner.value, j, i) && InService(steps, r, j, i)
    && steps[j].now + REVOKE_TIMEOUT == states[i].slots[r].revokeDeadline.value
  }

  lemma OriginHere(states: seq<State>, steps: seq<Step>, i: nat, r: Resource)
    requires |states| == |steps| + 1 && i < |steps| && Armed(states[i + 1], r)
    requires ArmedIn(states[i], steps[i], states[i + 1], r)
    ensures ComesFrom(states, steps, r, i, i + 1)
  {
  }

  lemma OriginEarlier(states: seq<State>, steps: seq<Step>, i: nat, r: Resource, j: nat)
    requires |states| == |steps| + 1 && i < |steps| && Armed(states[i + 1], r)
    requires ArmedBefore(states[i], steps[i], states[i + 1], r) && ComesFrom(states, steps, r, j, i)
    ensures ComesFrom(states, steps, r, j, i + 1)
  {
    var o := states[i + 1].slots[r].owner.value;
    forall k | j < k <= i + 1 ensures OwnedBy(states[k], r, o) {
      assert k <= i ==> OwnedBy(states[k], r, o);
    }
    forall k | j < k < i + 1 ensures steps[k].event != Release(o, r) && steps[k].event != Suspend(r) {
      assert k < i ==> steps[k].event != Release(o, r) && steps[k].event != Suspend(r);
    }
  }

  lemma {:induction false} DeadlineTrace(states: seq<State>, steps: seq<Step>, i: nat, r: Resource) returns (j: nat)
    requires |states| == |steps| + 1 && i < |states| && Armed(states[i], r) && !Armed(states[0], r)
    requires forall k | 0 <= k < |steps| && Armed(states[k + 1], r) ::
      ArmedIn(states[k], steps[k], states[k + 1], r) || ArmedBefore(states[k], steps[k], states[k + 1], r)
    ensures ComesFrom(states, steps, r, j, i)
  {
    var k := i - 1;
    assert Armed(states[k + 1], r);
    if ArmedIn(states[k], steps[k], states[k + 1], r) {
      OriginHere(states, steps, k, r);
      j := k;
    } else {
      j := DeadlineTrace(states, steps, k, r);
      OriginEarlier(states, steps, k, r, j);
    }
  }

  /** Every deadline has an origin: a Revoke sent to the present owner, in its
      present tenure and not answered yet, exactly REVOKE_TIMEOUT before the deadline,
      with no Suspend since. */
  lemma DeadlineOrigin(states: seq<State>, steps: seq<Step>, i: nat, r: Resource) returns (j: nat)
    requires IsRun(states, steps) && i < |states| && Armed(states[i], r)
    ensures ComesFrom(states, steps, r, j, i)
  {
    forall k | 0 <= k < |steps| && Armed(states[k + 1], r)
      ensures ArmedIn(states[k], steps[k], states[k + 1], r) || ArmedBefore(states[k], steps[k], states[k + 1], r)
    {
      DeadlineRunStep(states, steps, k, r);
    }
    j := DeadlineTrace(states, steps, i, r);
  }

  lemma ArmedRunStep(states: seq<State>, steps: seq<Step>, k: nat, r: Resource, o: ClientId)
    requires IsRun(states, steps) && k < |steps| && OwnedBy(states[k + 1], r, o)
    requires || Revoke(o) in Sent(states[k], steps[k], r)
             || (OwnedBy(states[k], r, o) && Armed(states[k], r) && steps[k].event != Release(o, r) &&
               steps[k].event != Suspend(r))
    ensures Armed(states[k + 1], r)
  {
    ReachableInv(states, steps, k);
    if Revoke(o) in Sent(states[k], steps[k], r) {
      RevokeArms(states[k], steps[k], states[k + 1], r, o);
    } else {
      StaysArmed(states[k], steps[k], states[k + 1], r, o);
    }
  }

  lemma {:induction false} ArmedTrace(states: seq<State>, r: Resource, j: nat, i: nat)
    requires j <= i < |states| && Armed(states[j], r)
    requires forall k | j <= k < i && Armed(states[k], r) :: Armed(states[k + 1], r)
    ensures Armed(states[i], r)
    decreases i
  {
    if j < i {
      var k := i - 1;
      ArmedTrace(states, r, j, k);
      assert Armed(states[k + 1], r);
    }
  }

  lemma RevokedStaysArmed(states: seq<State>, steps: seq<Step>, r: Resource, o: ClientId, j: nat, i: nat)
    requires IsRun(states, steps) && i < |states| && RevokedSince(states, steps, r, o, j, i) &&
      InService(steps, r, j, i)
    ensures Armed(states[i], r)
  {
    ArmedRunStep(states, steps, j, r, o);
    forall k | j + 1 <= k < i && Armed(states[k], r) ensures Armed(states[k + 1], r) {
      ArmedRunStep(states, steps, k, r, o);
    }
    ArmedTrace(states, r, j + 1, i);
  }

  /** Exactly when an owner is being asked to let go (Revoking): a Revoke was sent to
      it in its present tenure, it has not answered, and the resource has not been
      suspended since. In particular an owner with clients waiting behind it is not
      being asked unless one of them came in this tenure. */
  lemma RevokingIff(states: seq<State>, steps: seq<Step>, i: nat, r: Resource, o: ClientId)
    requires IsRun(states, steps) && i < |states| && OwnedBy(states[i], r, o)
    ensures Armed(states[i], r) <==>
            exists j: nat :: RevokedSince(states, steps, r, o, j, i) && InService(steps, r, j, i)
  {
    if Armed(states[i], r) {
      var j := DeadlineOrigin(states, steps, i, r);
    }
    forall j: nat | RevokedSince(states, steps, r, o, j, i) && InService(steps, r, j, i) ensures Armed(states[i], r) {
      RevokedStaysArmed(states, steps, r, o, j, i);
    }
  }

  /** Handoff safety. In every run, a registered owner loses a resource only by its
      own Release, by its own Disconnected, or by a sweep at least REVOKE_TIMEOUT
      after a Revoke for that resource was sent to it during the same tenure, which
      it has not answered. */
  lemma HandoffSafety(states: seq<State>, steps: seq<Step>, i: nat, r: Resource, o: ClientId)
    requires IsRun(states, steps) && i < |steps|
    requires OwnedBy(states[i], r, o) && o in states[i].registered
    requires !OwnedBy(states[i + 1], r, o)
    ensures || steps[i].event == Release(o, r)
            || steps[i].event == Disconnected(o)
            || (&& steps[i].event == Expire
                && exists j: nat ::
                     RevokedSince(states, steps, r, o, j, i) && steps[j].now + REVOKE_TIMEOUT <= steps[i].now)
  {
    ReachableInv(states, steps, i);
    OwnerKept(states[i], steps[i], r, o);
    if steps[i].event == Expire {
      var j := DeadlineOrigin(states, steps, i, r);
    }
  }

  /** In every reachable state no deadline is further away than REVOKE_TIMEOUT. */
  lemma DeadlineWithinTimeout(states: seq<State>, steps: seq<Step>, i: nat, r: Resource)
    requires IsRun(states, steps) && 0 < i < |states|
    requires Armed(states[i], r)
    ensures states[i].slots[r].revokeDeadline.value <= steps[i - 1].now + REVOKE_TIMEOUT
  {
    var j := DeadlineOrigin(states, steps, i, r);
  }

  /** After a sweep nothing is left to expire: every deadline lies in the future. */
  lemma SweepLeavesNothingExpired(s: State, st: Step, r: Resource)
    requires Inv(s) && r in s.slots && st.event == Expire
    ensures !Expired(Apply(s, st).slots[r], st.now)
  {
    SeatLostLaw(s, st, r);
    if FreedQueue(s, st, r).Some? {
      FreedStartsAfresh(s, st, r);
    } else {
      UnfreedLaw(s, st, r);
    }
  }

  /** Leaving the seat: a registered client that gives up a display, by Release or
      in a sweep, is Revoking on every input it still owns, with a full timeout. */
  lemma LeavingTheSeat(s: State, st: Step, r: Resource, c: ClientId)
    requires Inv(s) && c in s.registered && SeatLosses(s, st, c) > 0
    requires r.Input? && OwnedBy(Apply(s, st), r, c)
    ensures Apply(s, st).slots[r].revokeDeadline == Some(st.now + REVOKE_TIMEOUT)
    ensures Revoke(c) in Sent(s, st, r)
    ensures StateOf(Apply(s, st).slots[r]) == Revoking
  {
    SeatLostLaw(s, st, r);
  }

  /** A client that loses a display without disconnecting does so in a turn that counts
      as a seat loss. */
  lemma SeatLossesMeaning(s: State, st: Step, d: Resource, c: ClientId)
    requires Inv(s) && IsDisplay(d) && OwnedBy(s, d, c) && c in s.registered && st.event != Disconnected(c)
    requires !OwnedBy(Apply(s, st), d, c)
    ensures SeatLosses(s, st, c) > 0
  {
    OwnerKept(s, st, d, c);
    if st.event == Expire {
      assert d in LostDisplays(s, st.now, c);
    }
  }

  lemma OwnerNotServed(s: State, st: Step, r: Resource, o: ClientId)
    requires Inv(s) && OwnedBy(s, r, o) && FreedQueue(s, st, r).Some? && st.event != Release(o, r)
    ensures o !in Clients(FreedQueue(s, st, r).value)
  {
    assert SlotInv(r, s.slots[r], s.registered);
    KeepClients(s.slots[r].waiters, {o});
  }

  /** Freeing a slot takes it from its owner, unless the owner released it and was
      requeued behind waiters none of whom can be reached. */
  lemma FreedTenureEnds(s: State, st: Step, r: Resource, o: ClientId)
    requires Inv(s) && OwnedBy(s, r, o) && FreedQueue(s, st, r).Some?
    requires st.event != Release(o, r)
    ensures !OwnedBy(Apply(s, st), r, o)
  {
    SeatLostLaw(s, st, r);
    FreedStartsAfresh(s, st, r);
    OwnerNotServed(s, st, r, o);
  }

  /** An owner that may not be asked again: it stays silent, the device stays, and it
      loses no display. */
  ghost predicate Silent(s: State, st: Step, r: Resource, o: ClientId) {
    st.event != Release(o, r) && st.event != Suspend(r) && SeatLosses(s, st, o) == 0
  }

  /** While its owner stays silent, an armed deadline stays as it is, and a sweep
      past it ends the tenure. */
  lemma RevokingPersists(s: State, st: Step, s': State, r: Resource, o: ClientId)
    requires Inv(s) && s' == Apply(s, st) && OwnedBy(s, r, o) && Armed(s, r) && Silent(s, st, r, o) && OwnedBy(s', r, o)
    ensures s'.slots[r].revokeDeadline == s.slots[r].revokeDeadline
    ensures !(st.event == Expire && Expired(s.slots[r], st.now))
  {
    SeatLostLaw(s, st, r);
    if FreedQueue(s, st, r).Some? {
      FreedTenureEnds(s, st, r, o);
    } else {
      HeldStaysArmed(s, st, r);
    }
  }

  lemma SilentRunStep(states: seq<State>, steps: seq<Step>, k: nat, r: Resource, o: ClientId)
    requires IsRun(states, steps) && k < |steps| && OwnedBy(states[k], r, o) && OwnedBy(states[k + 1], r, o)
    requires Armed(states[k], r) && Silent(states[k], steps[k], r, o)
    ensures Armed(states[k + 1], r) && states[k + 1].slots[r].revokeDeadline == states[k].slots[r].revokeDeadline
    ensures !(steps[k].event == Expire && Expired(states[k].slots[r], steps[k].now))
  {
    ReachableInv(states, steps, k);
    RevokingPersists(states[k], steps[k], states[k + 1], r, o);
  }

  /** A silent owner is evicted: once Revoking with deadline `d`, if it does not
      answer, the device is not suspended and the owner does not lose a display
      meanwhile, its tenure is over after a sweep at `d` or later. */
  lemma {:induction false} SilentOwnerEvicted(
    states: seq<State>, steps: seq<Step>, i: nat, j: nat, r: Resource, o: ClientId)
    requires IsRun(states, steps) && i <= j < |steps|
    requires OwnedBy(states[i], r, o) && Armed(states[i], r)
    requires forall k | i <= k <= j :: Silent(states[k], steps[k], r, o)
    requires steps[j].event == Expire && states[i].slots[r].revokeDeadline.value <= steps[j].now
    ensures exists k | i < k <= j + 1 :: !OwnedBy(states[k], r, o)
    decreases j - i
  {
    if OwnedBy(states[i + 1], r, o) {
      assert Silent(states[i], steps[i], r, o);
      SilentRunStep(states, steps, i, r, o);
      SilentOwnerEvicted(states, steps, i + 1, j, r, o);
    }
  }
}
