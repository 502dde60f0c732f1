/** Runs of the engine, from the moment it is spawned, in which something happens that
    its documentation rules out. */
module Scenarios {
  import opened Types
  import opened Policies
  import opened Queues
  import opened Slots
  import opened Machine
  import opened Turns
  import opened Handoff
  import opened QueueRuns
  import opened Preemption
  import opened Seats

  datatype Trace = Trace(states: seq<State>, steps: seq<Step>)

  /** A run that has come to state `s` at time `now`. */
  ghost predicate Ends(t: Trace, s: State, now: Instant) {
    && IsRun(t.states, t.steps) && t.states[|t.steps|] == s
    && forall i | 0 <= i < |t.steps| :: t.steps[i].now <= now
  }

  /** `t'` goes on where `t` ended. */
  ghost predicate GoesOn(t: Trace, t': Trace) {
    |t.states| <= |t'.states| && t.states == t'.states[..|t.states|] && t.steps <= t'.steps
  }

  lemma Start(policies: map<Resource, Policy>) returns (t: Trace)
    ensures Ends(t, Spawn(policies), 0)
  {
    t := Trace([Spawn(policies)], []);
  }

  lemma Turn(t: Trace, s: State, now: Instant, st: Step) returns (t': Trace)
    requires Ends(t, s, now) && now <= st.now
    ensures Ends(t', Apply(s, st), st.now) && GoesOn(t, t')
    ensures |t'.steps| == |t.steps| + 1 && t'.steps[|t.steps|] == st
  {
    RunGrows(t.states, t.steps, st);
    t' := Trace(t.states + [Apply(s, st)], t.steps + [st]);
  }

  const KEYBOARD := Input(Keyboard(0))

  /** Everybody can be reached. */
  const LIVE: map<Resource, set<ClientId>> := map[KEYBOARD := {1, 2, 3}, Fbdev := {1, 2, 3}]

  function At(e: Event, now: Instant): Step {
    Step(e, now, LIVE)
  }

  // ---- Single turns

  lemma Registers(s: State, c: ClientId, now: Instant)
    ensures Apply(s, At(Register(c), now)) == State(s.slots, s.registered + {c})
  {
    var s' := Apply(s, At(Register(c), now));
    assert s'.slots == s.slots;
  }

  lemma Takes(s: State, c: ClientId, r: Resource, now: Instant)
    requires Inv(s) && r in s.slots && s.slots[r].owner.None? && !s.slots[r].suspended
    ensures Apply(s, At(Acquire(c, r), now)) == s.(slots := s.slots[r := s.slots[r].(owner := Some(c))])
  {
    AcquireOutcomeIff(s, At(Acquire(c, r), now), c, r);
    GrantedTakesFreeSlot(s, At(Acquire(c, r), now), c, r);
  }

  lemma Register1(t: Trace, s: State, now: Instant, c: ClientId) returns (t': Trace)
    requires Ends(t, s, now)
    ensures Ends(t', State(s.slots, s.registered + {c}), now)
  {
    Registers(s, c, now);
    t' := Turn(t, s, now, At(Register(c), now));
  }

  lemma Take(t: Trace, s: State, now: Instant, c: ClientId, r: Resource) returns (t': Trace)
    requires Ends(t, s, now) && r in s.slots && s.slots[r].owner.None? && !s.slots[r].suspended
    ensures Ends(t', s.(slots := s.slots[r := s.slots[r].(owner := Some(c))]), now)
  {
    ReachableInv(t.states, t.steps, |t.steps|);
    Takes(s, c, r, now);
    t' := Turn(t, s, now, At(Acquire(c, r), now));
  }

  function Held(c: ClientId): Slot {
    NewSlot(FairQueue).(owner := Some(c))
  }

  /** Two displays, with their owners, and a keyboard. */
  function Desk(a: ClientId, b: ClientId, keyboard: Slot): State {
    State(map[Fbdev := Held(a), Drm(0) := Held(b), KEYBOARD := keyboard], {1, 2, 3})
  }

  lemma ReachRegistered(policies: map<Resource, Policy>) returns (t: Trace)
    ensures Ends(t, State(Spawn(policies).slots, {1, 2, 3}), 0)
  {
    var slots := Spawn(policies).slots;
    t := Start(policies);
    t := Register1(t, State(slots, {}), 0, 1);
    t := Register1(t, State(slots, {} + {1}), 0, 2);
    t := Register1(t, State(slots, {} + {1} + {2}), 0, 3);
    assert {} + {1} + {2} + {3} == {1, 2, 3};
  }

  lemma ReachFbdev(a: ClientId) returns (t: Trace, s: State)
    ensures Ends(t, s, 0) && s.slots.Keys == {Fbdev, Drm(0), KEYBOARD} && s.registered == {1, 2, 3}
    ensures s.slots[Fbdev] == Held(a) && s.slots[Drm(0)] == s.slots[KEYBOARD] == NewSlot(FairQueue)
  {
    var policies := map[Fbdev := FairQueue, Drm(0) := FairQueue, KEYBOARD := FairQueue];
    s := State(Spawn(policies).slots, {1, 2, 3});
    t := ReachRegistered(policies);
    t := Take(t, s, 0, a, Fbdev);
    s := s.(slots := s.slots[Fbdev := Held(a)]);
  }

  lemma ReachDisplays(a: ClientId, b: ClientId) returns (t: Trace)
    ensures Ends(t, Desk(a, b, NewSlot(FairQueue)), 0)
  {
    var s: State;
    t, s := ReachFbdev(a);
    t := Take(t, s, 0, b, Drm(0));
    assert s.slots[Drm(0) := Held(b)] == Desk(a, b, NewSlot(FairQueue)).slots;
  }

  lemma ReachDesk(a: ClientId, b: ClientId, c: ClientId) returns (t: Trace)
    ensures Ends(t, Desk(a, b, Held(c)), 0)
  {
    var s := Desk(a, b, NewSlot(FairQueue));
    t := ReachDisplays(a, b);
    t := Take(t, s, 0, c, KEYBOARD);
    assert s.slots[KEYBOARD := Held(c)] == Desk(a, b, Held(c)).slots;
  }

  // ---- Two displays

  /** A display that nobody waits for is given up: the keyboard is asked back. */
  lemma LeavesDisplay(s: State, d: Resource, now: Instant)
    requires IsDisplay(d) && d in s.slots && s.slots[d] == Held(1)
    requires KEYBOARD in s.slots && s.slots[KEYBOARD].owner == Some(1) && 1 in s.registered
    ensures var s' := Apply(s, At(Release(1, d), now));
      && Revoke(1) in Sent(s, At(Release(1, d), now), KEYBOARD) && OwnedBy(s', KEYBOARD, 1)
      && s'.registered == s.registered
      && forall q | q in s.slots && IsDisplay(q) && q != d :: s'.slots[q] == s.slots[q]
  {
    SeatLostLaw(s, At(Release(1, d), now), KEYBOARD);
  }

  /** Client 1 still has a display and the keyboard, which it has been asked for. */
  ghost predicate LeftOne(t: Trace, s: State, i: nat) {
    && Ends(t, s, 10) && |t.steps| == i + 1 && RevokedSince(t.states, t.steps, KEYBOARD, 1, i, i + 1)
    && Drm(0) in s.slots && s.slots[Drm(0)] == Held(1) && OwnedBy(s, KEYBOARD, 1) && 1 in s.registered
  }

  lemma ReachLeftOne() returns (t: Trace, s: State, i: nat)
    ensures LeftOne(t, s, i)
  {
    var desk := Desk(1, 1, Held(1));
    t := ReachDesk(1, 1, 1);
    i := |t.steps|;
    LeavesDisplay(desk, Fbdev, 10);
    s := Apply(desk, At(Release(1, Fbdev), 10));
    t := Turn(t, desk, 0, At(Release(1, Fbdev), 10));
  }

  lemma RevokedGoesOn(t: Trace, t': Trace, r: Resource, o: ClientId, j: nat, i: nat)
    requires |t.states| == |t.steps| + 1 && |t'.states| == |t'.steps| + 1 && GoesOn(t, t') && i < |t.states|
    requires RevokedSince(t.states, t.steps, r, o, j, i)
    ensures RevokedSince(t'.states, t'.steps, r, o, j, i)
  {
    forall k | 0 <= k < |t.states| ensures t'.states[k] == t.states[k] {
    }
    forall k | 0 <= k < |t.steps| ensures t'.steps[k] == t.steps[k] {
    }
  }

  /** A client with two displays that gives up one and then the other: the keyboard it
      still owns is asked back a second time before it has answered the first. */
  lemma TwoRevokesInFlight() returns (t: Trace, i: nat)
    ensures IsRun(t.states, t.steps) && i + 1 < |t.steps|
    ensures RevokedSince(t.states, t.steps, KEYBOARD, 1, i, i + 1)
    ensures Revoke(1) in Sent(t.states[i + 1], t.steps[i + 1], KEYBOARD)
  {
    var a: Trace, s: State;
    a, s, i := ReachLeftOne();
    LeavesDisplay(s, Drm(0), 20);
    t := Turn(a, s, 10, At(Release(1, Drm(0)), 20));
    RevokedGoesOn(a, t, KEYBOARD, 1, i, i + 1);
    assert t.states[i + 1] == a.states[i + 1];
  }

  // ---- A helper, two seats and one keyboard

  lemma Suspends(s: State, r: Resource, now: Instant)
    requires r in s.slots
    ensures Apply(s, At(Suspend(r), now)) == s.(slots := s.slots[r := SuspendOne(s.slots[r])])
  {
    TouchesOne(s, At(Suspend(r), now), r);
  }

  lemma Resumes(s: State, r: Resource, now: Instant)
    requires r in s.slots && s.slots[r].suspended && s.slots[r].owner.Some? && s.slots[r].owner.value in s.registered
    ensures Apply(s, At(Resume(r), now)) == s.(slots := s.slots[r := s.slots[r].(suspended := false)])
  {
    TouchesOne(s, At(Resume(r), now), r);
  }

  lemma SweepsNothing(s: State, now: Instant)
    requires forall r | r in s.slots :: s.slots[r].revokeDeadline.None?
    ensures Apply(s, At(Expire, now)) == s
  {
    var st := At(Expire, now);
    forall r | r in s.slots ensures SlotEffect(s, st, r).slot == s.slots[r] {
      if s.slots[r].owner.Some? {
        assert LostDisplays(s, now, s.slots[r].owner.value) == {};
      }
    }
    assert Apply(s, st).slots == s.slots;
  }

  /** Client 1 has no display and holds the keyboard; clients 2 and 3 have one each. */
  function Helper(keyboard: Slot): State {
    Desk(2, 3, keyboard)
  }

  lemma SeatMayWait(k: Slot, c: ClientId)
    requires c in {2, 3} && k.owner == Some(1) && !k.suspended
    ensures Waits(Helper(k), c, KEYBOARD) && ClaimOf(Helper(k), c, KEYBOARD)
  {
    var s := Helper(k);
    assert IsDisplay(Fbdev) && s.slots[Fbdev].owner == Some(2);
    assert IsDisplay(Drm(0)) && s.slots[Drm(0)].owner == Some(3);
  }

  lemma NewKeyboard(k: Slot, k': Slot)
    ensures Helper(k).(slots := Helper(k).slots[KEYBOARD := k']) == Helper(k')
  {
    assert Helper(k).slots[KEYBOARD := k'] == Helper(k').slots;
  }

  /** A seat asks for the keyboard, which no deadline is armed for. */
  lemma SeatClaims(k: Slot, c: ClientId, now: Instant)
    requires Inv(Helper(k)) && c in {2, 3} && k.owner == Some(1) && !k.suspended && k.revokeDeadline.None?
    requires !IsQueued(k.waiters, c)
    ensures Apply(Helper(k), At(Acquire(c, KEYBOARD), now)) == Helper(Joined(k, Waiter(c, true), now))
    ensures Sent(Helper(k), At(Acquire(c, KEYBOARD), now), KEYBOARD) == [Revoke(1)]
  {
    SeatMayWait(k, c);
    QueuedAsksHolder(Helper(k), At(Acquire(c, KEYBOARD), now), c, KEYBOARD);
    NewKeyboard(k, Joined(k, Waiter(c, true), now));
  }

  /** The keyboard with the claim of client 2 on it. */
  function Claimed(): Slot {
    Joined(Held(1), Waiter(2, true), 10)
  }

  lemma ReachClaimed() returns (t: Trace)
    ensures Ends(t, Helper(Claimed()), 10) && |t.steps| > 0
    ensures Revoke(1) in Sent(t.states[|t.steps| - 1], t.steps[|t.steps| - 1], KEYBOARD)
  {
    t := ReachDesk(2, 3, 1);
    ReachableInv(t.states, t.steps, |t.steps|);
    SeatClaims(Held(1), 2, 10);
    t := Turn(t, Helper(Held(1)), 0, At(Acquire(2, KEYBOARD), 10));
  }

  lemma ClaimIsHeldUp(k: Slot)
    requires k.owner == Some(1) && k.waiters == Claimed().waiters
    ensures ClaimHeldUp(Helper(k), KEYBOARD, 2, 1)
  {
    assert Claimed().waiters == [Waiter(2, true)];
    assert Claims(k.waiters) == [Waiter(2, true)];
  }

  function Unplugged(): Slot {
    SuspendOne(Claimed())
  }

  lemma ReachUnplugged(t: Trace) returns (t': Trace)
    requires Ends(t, Helper(Claimed()), 10)
    ensures Ends(t', Helper(Unplugged()), 20) && GoesOn(t, t')
    ensures |t'.steps| == |t.steps| + 1 && t'.steps[|t.steps|] == At(Suspend(KEYBOARD), 20)
  {
    var s := Helper(Claimed());
    Suspends(s, KEYBOARD, 20);
    t' := Turn(t, s, 10, At(Suspend(KEYBOARD), 20));
    NewKeyboard(Claimed(), Unplugged());
  }

  /** The keyboard is back; nobody is asked for it any more. */
  function Back(): Slot {
    Unplugged().(suspended := false)
  }

  lemma ReachBack(t: Trace) returns (t': Trace)
    requires Ends(t, Helper(Unplugged()), 20)
    ensures Ends(t', Helper(Back()), 30) && GoesOn(t, t')
    ensures |t'.steps| == |t.steps| + 1 && t'.steps[|t.steps|] == At(Resume(KEYBOARD), 30)
  {
    var s := Helper(Unplugged());
    Resumes(s, KEYBOARD, 30);
    t' := Turn(t, s, 20, At(Resume(KEYBOARD), 30));
    NewKeyboard(Unplugged(), Back());
  }

  lemma ReachSwept(t: Trace, late: Instant) returns (t': Trace)
    requires Ends(t, Helper(Back()), 30) && 30 <= late
    ensures Ends(t', Helper(Back()), late) && GoesOn(t, t')
    ensures |t'.steps| == |t.steps| + 1 && t'.steps[|t.steps|] == At(Expire, late)
  {
    SweepsNothing(Helper(Back()), late);
    t' := Turn(t, Helper(Back()), 30, At(Expire, late));
  }

  /** The keyboard is claimed in turn `i - 1`, goes away in turn `i` and comes back in
      the next. */
  ghost predicate Replugged(t: Trace, i: nat) {
    && 0 < i && i + 2 <= |t.steps| && |t.states| == |t.steps| + 1
    && t.states[i] == Helper(Claimed()) && t.states[i + 1] == Helper(Unplugged()) && t.states[i + 2] == Helper(Back())
    && Revoke(1) in Sent(t.states[i - 1], t.steps[i - 1], KEYBOARD)
    && t.steps[i] == At(Suspend(KEYBOARD), 20) && t.steps[i + 1] == At(Resume(KEYBOARD), 30)
  }

  lemma RepluggedGoesOn(t: Trace, t': Trace, i: nat)
    requires Replugged(t, i) && GoesOn(t, t') && |t'.states| == |t'.steps| + 1
    ensures Replugged(t', i)
  {
    forall k | 0 <= k < |t.states| ensures t'.states[k] == t.states[k] {
    }
  }

  lemma ReachReplugged() returns (t: Trace, i: nat)
    ensures Ends(t, Helper(Back()), 30) && |t.steps| == i + 2 && Replugged(t, i)
  {
    var a := ReachClaimed();
    i := |a.steps|;
    var b := ReachUnplugged(a);
    t := ReachBack(b);
    assert a.states[i] == b.states[i] == t.states[i] && a.states[i - 1] == b.states[i - 1] == t.states[i - 1];
    assert b.states[i + 1] == t.states[i + 1];
    assert a.steps[i - 1] == b.steps[i - 1] == t.steps[i - 1] && b.steps[i] == t.steps[i];
  }

  lemma ReachSweptLate(late: Instant) returns (t: Trace, i: nat)
    requires 30 <= late
    ensures Ends(t, Helper(Back()), late) && |t.steps| == i + 3 && Replugged(t, i) && t.steps[i + 2] == At(Expire, late)
  {
    var a: Trace;
    a, i := ReachReplugged();
    t := ReachSwept(a, late);
    RepluggedGoesOn(a, t, i);
  }

  /** The keyboard is claimed, goes away and comes back: from then on its holder is not
      asked, so that no sweep, however late, serves the reachable seat. */
  lemma SeatWaitsForever(late: Instant) returns (t: Trace, i: nat)
    requires 30 <= late
    ensures Ends(t, Helper(Back()), late) && |t.steps| == i + 3 && Replugged(t, i) && t.steps[i + 2] == At(Expire, late)
    ensures ClaimHeldUp(t.states[i], KEYBOARD, 2, 1) && ClaimHeldUp(t.states[i + 3], KEYBOARD, 2, 1)
    ensures t.states[i].slots[KEYBOARD].revokeDeadline == Some(10 + REVOKE_TIMEOUT)
    ensures Reachable(t.states, t.steps, KEYBOARD, 2, i, i + 3)
  {
    t, i := ReachSweptLate(late);
    ClaimIsHeldUp(Claimed());
    ClaimIsHeldUp(Back());
    SeatIsReachable(t, i);
  }

  lemma SeatIsReachable(t: Trace, i: nat)
    requires Replugged(t, i) && |t.steps| == i + 3 && t.steps[i + 2].event == Expire && t.steps[i + 2].live == LIVE
    ensures Reachable(t.states, t.steps, KEYBOARD, 2, i, i + 3)
  {
    forall k | i <= k < i + 3
      ensures t.steps[k].event != Disconnected(2) && Deliverable(EnvOn(t.states[k], t.steps[k], KEYBOARD), 2)
    {
      assert k == i || k == i + 1 || k == i + 2;
    }
  }

  lemma RevokedAcrossSuspend(t: Trace, i: nat)
    requires Replugged(t, i) && |t.steps| > i + 2 && t.steps[i + 2].event == Expire && t.states[i + 3] == Helper(Back())
    ensures RevokedSince(t.states, t.steps, KEYBOARD, 1, i - 1, i + 3)
  {
    forall k | i - 1 < k <= i + 3 ensures OwnedBy(t.states[k], KEYBOARD, 1) {
      assert k == i || k == i + 1 || k == i + 2 || k == i + 3;
    }
    forall k | i - 1 < k < i + 3 ensures t.steps[k].event != Release(1, KEYBOARD) {
      assert k == i || k == i + 1 || k == i + 2;
    }
  }

  lemma ReachSecondClaim() returns (t: Trace, i: nat)
    ensures IsRun(t.states, t.steps) && |t.steps| == i + 4 && Replugged(t, i) && t.steps[i + 2].event == Expire
    ensures t.states[i + 3] == Helper(Back()) && t.steps[i + 3] == At(Acquire(3, KEYBOARD), 200)
    ensures Revoke(1) in Sent(t.states[i + 3], t.steps[i + 3], KEYBOARD)
  {
    var a: Trace;
    a, i := ReachSweptLate(100);
    ReachableInv(a.states, a.steps, i + 3);
    SingleWaiter(Waiter(2, true));
    SeatClaims(Back(), 3, 200);
    t := Turn(a, Helper(Back()), 100, At(Acquire(3, KEYBOARD), 200));
    RepluggedGoesOn(a, t, i);
  }

  /** ... until another seat asks for the keyboard: its holder, which loses no display
      and has not answered the first Revoke, is sent a second one. */
  lemma TwoRevokesAroundSuspend() returns (t: Trace, i: nat)
    ensures IsRun(t.states, t.steps) && 0 < i && i + 3 < |t.steps|
    ensures RevokedSince(t.states, t.steps, KEYBOARD, 1, i - 1, i + 3)
    ensures Revoke(1) in Sent(t.states[i + 3], t.steps[i + 3], KEYBOARD)
    ensures SeatLosses(t.states[i + 3], t.steps[i + 3], 1) == 0
  {
    t, i := ReachSecondClaim();
    RevokedAcrossSuspend(t, i);
  }

  /** The keyboard is claimed and unplugged, and its holder lets go: the seat is granted
      a resource that is suspended. */
  lemma SuspendedIsTaken() returns (t: Trace, i: nat)
    ensures IsRun(t.states, t.steps) && i < |t.steps| && t.steps[i].event == Release(1, KEYBOARD)
    ensures OwnedBy(t.states[i], KEYBOARD, 1) && t.states[i].slots[KEYBOARD].suspended
    ensures OwnedBy(t.states[i + 1], KEYBOARD, 2) && t.states[i + 1].slots[KEYBOARD].suspended
  {
    var s, st := Helper(Unplugged()), At(Release(1, KEYBOARD), 30);
    t := ReachClaimed();
    t := ReachUnplugged(t);
    i := |t.steps|;
    ReachableInv(t.states, t.steps, i);
    ClaimIsHeldUp(Unplugged());
    SeatStep(s, st, Apply(s, st), KEYBOARD, 2, 1);
    PolicyKept(s, st, KEYBOARD);
    t := Turn(t, s, 20, st);
  }

  // ---- A new owner that is not asked

  /** One display, with client 1 or client 2 on it. */
  function Screen(display: Slot): State {
    State(map[Fbdev := display], {1, 2, 3})
  }

  lemma ReachScreen() returns (t: Trace)
    ensures Ends(t, Screen(Held(1)), 0)
  {
    var policies := map[Fbdev := FairQueue];
    var s := State(Spawn(policies).slots, {1, 2, 3});
    t := ReachRegistered(policies);
    t := Take(t, s, 0, 1, Fbdev);
    assert s.slots[Fbdev := Held(1)] == Screen(Held(1)).slots;
  }

  lemma ReachPreempted() returns (t: Trace)
    ensures Ends(t, Screen(Joined(Held(1), Waiter(2, false), 10)), 10)
  {
    var s := Screen(Held(1));
    t := ReachScreen();
    ReachableInv(t.states, t.steps, |t.steps|);
    QueuedAsksHolder(s, At(Acquire(2, Fbdev), 10), 2, Fbdev);
    assert s.slots[Fbdev := Joined(Held(1), Waiter(2, false), 10)] ==
      Screen(Joined(Held(1), Waiter(2, false), 10)).slots;
    t := Turn(t, s, 0, At(Acquire(2, Fbdev), 10));
  }

  lemma HandsOver(s: State, st: Step)
    requires s == Screen(Joined(Held(1), Waiter(2, false), 10)) && Inv(s) && st == At(Release(1, Fbdev), 20)
    ensures var after := Apply(s, st).slots[Fbdev];
      && after.owner == Some(2) && after.revokeDeadline.None? && !after.suspended && after.policy == FairQueue
      && IsQueued(after.waiters, 1)
  {
    SingleWaiter(Waiter(2, false));
    assert s.slots[Fbdev].waiters == [Waiter(2, false)];
    RevokeAckRequeues(s, st, Fbdev, 1);
    var after := Apply(s, st).slots[Fbdev];
    var order := ServiceOrder(FairQueue, after.waiters);
    WaiterIsQueued(order, order[|order| - 1]);
    ServiceOrderClients(FairQueue, after.waiters);
    SeatLostLaw(s, st, Fbdev);
    FreedStartsAfresh(s, st, Fbdev);
  }

  /** A preempted client is put back behind the new owner, which is never asked: the
      queue is not empty, nothing is armed, and asking again changes nothing. */
  lemma WaiterIsNotHeard() returns (t: Trace, i: nat)
    ensures IsRun(t.states, t.steps) && i < |t.steps| && OwnedBy(t.states[i], Fbdev, 2) && !Armed(t.states[i], Fbdev)
    ensures IsQueued(t.states[i].slots[Fbdev].waiters, 1)
    ensures t.steps[i].event == Acquire(1, Fbdev) && t.states[i + 1] == t.states[i]
  {
    t := ReachPreempted();
    var s, st := t.states[|t.steps|], At(Release(1, Fbdev), 20);
    ReachableInv(t.states, t.steps, |t.steps|);
    HandsOver(s, st);
    t := Turn(t, s, 10, st);
    i := |t.steps|;
    ReachableInv(t.states, t.steps, i);
    QueuedAsksHolder(Apply(s, st), At(Acquire(1, Fbdev), 30), 1, Fbdev);
    t := Turn(t, Apply(s, st), 20, At(Acquire(1, Fbdev), 30));
  }

  // ---- A claim that outlives its seat

  /** Client 2 has left its display; client 3 is on the other. */
  function Off(keyboard: Slot): State {
    State(map[Fbdev := NewSlot(FairQueue), Drm(0) := Held(3), KEYBOARD := keyboard], {1, 2, 3})
  }

  lemma LeavesFbdev(k: Slot)
    requires Inv(Helper(k)) && k.owner == Some(1)
    ensures Apply(Helper(k), At(Release(2, Fbdev), 20)) == Off(k)
  {
    var s, st := Helper(k), At(Release(2, Fbdev), 20);
    ReleaseFreesIdleSlot(s, st, Fbdev, 2);
    SeatLostLaw(s, st, KEYBOARD);
    SeatLostLaw(s, st, Drm(0));
    assert Apply(s, st).slots == Off(k).slots;
  }

  lemma SeatOfThree(k: Slot)
    ensures HoldsDisplay(Off(k), 3) && !HoldsDisplay(Off(k), 1) && !HoldsDisplay(Off(k), 2)
  {
    assert IsDisplay(Drm(0)) && Off(k).slots[Drm(0)].owner == Some(3);
  }

  /** The keyboard with the claims of both. */
  function ClaimedTwice(): Slot {
    Joined(Claimed(), Waiter(3, true), 30)
  }

  lemma SecondMayWait()
    ensures Waits(Off(Claimed()), 3, KEYBOARD) && ClaimOf(Off(Claimed()), 3, KEYBOARD)
    ensures !IsQueued(Claimed().waiters, 3)
  {
    SeatOfThree(Claimed());
    SingleWaiter(Waiter(2, true));
    assert Claimed().waiters == [Waiter(2, true)];
  }

  lemma NewKeyboardOff(k: Slot, k': Slot)
    ensures Off(k).(slots := Off(k).slots[KEYBOARD := k']) == Off(k')
  {
    assert Off(k).slots[KEYBOARD := k'] == Off(k').slots;
  }

  lemma SecondSeatClaims()
    requires Inv(Off(Claimed()))
    ensures Apply(Off(Claimed()), At(Acquire(3, KEYBOARD), 30)) == Off(ClaimedTwice())
  {
    SecondMayWait();
    QueuedAsksHolder(Off(Claimed()), At(Acquire(3, KEYBOARD), 30), 3, KEYBOARD);
    NewKeyboardOff(Claimed(), ClaimedTwice());
  }

  /** Client 2 has been served, and nobody asks it for the keyboard. */
  function Inherited(): Slot {
    Slot(FairQueue, Some(2), [Waiter(3, true), Waiter(1, false)], None, false)
  }

  lemma FirstClaimIsServed(env: Env)
    requires Deliverable(env, 2)
    ensures ReleaseOne(ClaimedTwice(), 1, env) == Effect(Inherited(), [Grant(2)])
  {
    var ws := [Waiter(2, true), Waiter(3, true), Waiter(1, false)];
    assert RequeueWaiter(FairQueue, ClaimedTwice().waiters, Waiter(1, false)) == ws;
    assert FirstClaim(ws) == 0 && ws[..0] + ws[1..] == Inherited().waiters;
  }

  lemma HelperLetsGo()
    ensures Apply(Off(ClaimedTwice()), At(Release(1, KEYBOARD), 40)) == Off(Inherited())
  {
    var s, st := Off(ClaimedTwice()), At(Release(1, KEYBOARD), 40);
    FirstClaimIsServed(EnvOn(s, st, KEYBOARD));
    SeatLostLaw(s, st, KEYBOARD);
    SeatLostLaw(s, st, Fbdev);
    SeatLostLaw(s, st, Drm(0));
    assert Apply(s, st).slots == Off(Inherited()).slots;
  }

  lemma AsksAgain()
    requires Inv(Off(Inherited()))
    ensures Apply(Off(Inherited()), At(Acquire(3, KEYBOARD), 50)) == Off(Inherited())
  {
    SeatOfThree(Inherited());
    WaiterIsQueued(Inherited().waiters, Waiter(3, true));
    QueuedAsksHolder(Off(Inherited()), At(Acquire(3, KEYBOARD), 50), 3, KEYBOARD);
  }

  lemma ReachOff() returns (t: Trace)
    ensures Ends(t, Off(Claimed()), 20)
  {
    t := ReachClaimed();
    ReachableInv(t.states, t.steps, |t.steps|);
    LeavesFbdev(Claimed());
    t := Turn(t, Helper(Claimed()), 10, At(Release(2, Fbdev), 20));
  }

  lemma ReachClaimedTwice() returns (t: Trace)
    ensures Ends(t, Off(ClaimedTwice()), 30)
  {
    t := ReachOff();
    ReachableInv(t.states, t.steps, |t.steps|);
    SecondSeatClaims();
    t := Turn(t, Off(Claimed()), 20, At(Acquire(3, KEYBOARD), 30));
  }

  lemma ReachInherited() returns (t: Trace)
    ensures Ends(t, Off(Inherited()), 40) && |t.steps| > 0
    ensures t.steps[|t.steps| - 1] == At(Release(1, KEYBOARD), 40) && t.states[|t.steps| - 1] == Off(ClaimedTwice())
  {
    var a := ReachClaimedTwice();
    HelperLetsGo();
    t := Turn(a, Off(ClaimedTwice()), 30, At(Release(1, KEYBOARD), 40));
    assert t.states[|a.steps|] == a.states[|a.steps|];
  }

  lemma ReachAskedAgain() returns (t: Trace, i: nat)
    ensures Ends(t, Off(Inherited()), 50) && |t.steps| == i + 1 && 0 < i
    ensures t.steps[i] == At(Acquire(3, KEYBOARD), 50) && t.states[i] == Off(Inherited())
    ensures t.steps[i - 1] == At(Release(1, KEYBOARD), 40) && t.states[i - 1] == Off(ClaimedTwice())
  {
    var a := ReachInherited();
    i := |a.steps|;
    ReachableInv(a.states, a.steps, i);
    AsksAgain();
    t := Turn(a, Off(Inherited()), 40, At(Acquire(3, KEYBOARD), 50));
    assert t.states[i] == a.states[i] && t.states[i - 1] == a.states[i - 1] && t.steps[i - 1] == a.steps[i - 1];
  }

  lemma ReachInheritedSwept(late: Instant) returns (t: Trace, i: nat)
    requires 50 <= late
    ensures IsRun(t.states, t.steps) && |t.steps| == i + 2 && 0 < i
    ensures t.states[i - 1] == Off(ClaimedTwice()) && forall k | i <= k <= i + 2 :: t.states[k] == Off(Inherited())
    ensures t.steps[i - 1] == At(Release(1, KEYBOARD), 40)
    ensures t.steps[i] == At(Acquire(3, KEYBOARD), 50) && t.steps[i + 1] == At(Expire, late)
  {
    var a: Trace;
    a, i := ReachAskedAgain();
    SweepsNothing(Off(Inherited()), late);
    t := Turn(a, Off(Inherited()), 50, At(Expire, late));
    assert t.states[i - 1] == a.states[i - 1] && t.states[i] == a.states[i] && t.states[i + 1] == a.states[i + 1];
    assert t.steps[i - 1] == a.steps[i - 1] && t.steps[i] == a.steps[i];
  }

  /** Client 3, on its display, waits with the earliest claim for what client 2 holds
      without one; and so does client 1, which has none either. */
  ghost predicate LeftWaiting(s: State) {
    && ClaimHeldUp(s, KEYBOARD, 3, 2) && !Armed(s, KEYBOARD) && HoldsDisplay(s, 3) && !HoldsDisplay(s, 2)
    && WaitsIn(s, KEYBOARD, 1) && !HoldsDisplay(s, 1)
  }

  lemma InheritedIsLeftWaiting()
    ensures LeftWaiting(Off(Inherited())) && OwnedBy(Off(ClaimedTwice()), KEYBOARD, 1)
    ensures !HoldsDisplay(Off(ClaimedTwice()), 2)
  {
    SeatOfThree(Inherited());
    SeatOfThree(ClaimedTwice());
    WaiterIsQueued(Inherited().waiters, Waiter(1, false));
    assert Claims(Inherited().waiters)[0] == Waiter(3, true);
  }

  /** A seat claims the keyboard and leaves its display, another seat claims it too, and
      the helper lets go. The first claim is served although its client has no display
      any more; the second is left over from the helper's tenure, so the new holder is
      not asked: neither asking again nor a sweep, however late, changes anything. The
      helper, which never had a display, waits as well. Nothing is ever suspended. */
  lemma ClaimIsInherited(late: Instant) returns (t: Trace, i: nat)
    requires 50 <= late
    ensures IsRun(t.states, t.steps) && |t.steps| == i + 2 && 0 < i
    ensures OwnedBy(t.states[i - 1], KEYBOARD, 1) && !HoldsDisplay(t.states[i - 1], 2)
    ensures LeftWaiting(t.states[i]) && forall k | i <= k <= i + 2 :: t.states[k] == t.states[i]
    ensures t.steps[i].event == Acquire(3, KEYBOARD) && t.steps[i + 1] == At(Expire, late)
    ensures Deliverable(EnvOn(t.states[i + 1], t.steps[i + 1], KEYBOARD), 3)
  {
    t, i := ReachInheritedSwept(late);
    InheritedIsLeftWaiting();
    assert t.states[i + 1].registered == {1, 2, 3};
  }
}
