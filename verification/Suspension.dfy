/** A device that is unplugged: its holder keeps the resource until it is back. */
module Suspension {
  import opened Types
  import opened Policies
  import opened Queues
  import opened Slots
  import opened Machine
  import opened Turns
  import opened Handoff
  import opened Preemption

  /** The device behind `r` is away and its registered holder `h` is left alone. */
  ghost predicate Away(s: State, r: Resource, h: ClientId) {
    && OwnedBy(s, r, h) && h in s.registered
    && s.slots[r].suspended && s.slots[r].revokeDeadline.None?
  }

  /** The holder gives the resource up itself, or gives up or loses a display. */
  ghost predicate Disturbs(s: State, st: Step, r: Resource, h: ClientId) {
    st.event == Release(h, r) || st.event == Disconnected(h) || SeatLosses(s, st, h) > 0
  }

  lemma SuspendBegins(s: State, st: Step, s': State, r: Resource, h: ClientId)
    requires Inv(s) && s' == Apply(s, st) && st.event == Suspend(r) && OwnedBy(s, r, h) && h in s.registered
    ensures Away(s', r, h) && Sent(s, st, r) == []
  {
  }

  lemma AwayEffect(s: State, st: Step, r: Resource, h: ClientId)
    requires Away(s, r, h) && st.event != Resume(r) && !Disturbs(s, st, r, h)
    ensures var own := OwnEffect(s, st, r);
      own.sent == [] && own.slot.owner == Some(h) && own.slot.suspended && own.slot.revokeDeadline.None?
  {
  }

  lemma AwayStep(s: State, st: Step, s': State, r: Resource, h: ClientId)
    requires s' == Apply(s, st) && Away(s, r, h)
    requires st.event != Resume(r) && !Disturbs(s, st, r, h)
    ensures Away(s', r, h) && Sent(s, st, r) == []
  {
    AwayEffect(s, st, r, h);
    SeatLostLaw(s, st, r);
  }

  lemma ResumeEnds(s: State, st: Step, s': State, r: Resource, h: ClientId)
    requires Inv(s) && s' == Apply(s, st) && Away(s, r, h) && st.event == Resume(r)
    ensures OwnedBy(s', r, h) && !s'.slots[r].suspended && Sent(s, st, r) == [Grant(h)]
  {
  }

  lemma AwayRunStep(states: seq<State>, steps: seq<Step>, k: nat, r: Resource, h: ClientId)
    requires IsRun(states, steps) && k < |steps| && Away(states[k], r, h)
    requires steps[k].event != Resume(r) && !Disturbs(states[k], steps[k], r, h)
    ensures Away(states[k + 1], r, h) && Sent(states[k], steps[k], r) == []
  {
    AwayStep(states[k], steps[k], states[k + 1], r, h);
  }

  lemma {:induction false} AwayPersists(states: seq<State>, i: nat, j: nat, r: Resource, h: ClientId)
    requires i <= j < |states| && Away(states[i], r, h)
    requires forall k | i <= k < j && Away(states[k], r, h) :: Away(states[k + 1], r, h)
    ensures forall k | i <= k <= j :: Away(states[k], r, h)
    decreases j
  {
    if i < j {
      var k := j - 1;
      AwayPersists(states, i, k, r, h);
      assert Away(states[k], r, h);
      assert Away(states[k + 1], r, h);
    }
  }

  ghost predicate Undisturbed(states: seq<State>, steps: seq<Step>, r: Resource, h: ClientId, i: nat, j: nat)
    requires |states| == |steps| + 1 && j <= |steps|
  {
    forall k | i <= k < j :: steps[k].event != Resume(r) && !Disturbs(states[k], steps[k], r, h)
  }

  lemma AwayThroughout(states: seq<State>, steps: seq<Step>, i: nat, j: nat, r: Resource, h: ClientId)
    requires IsRun(states, steps) && i <= j < |states| && Away(states[i], r, h)
    requires Undisturbed(states, steps, r, h, i, j)
    ensures forall k | i <= k <= j :: Away(states[k], r, h)
    ensures forall k | i <= k < j :: Sent(states[k], steps[k], r) == []
  {
    forall k | i <= k < j && Away(states[k], r, h) ensures Away(states[k + 1], r, h) {
      AwayRunStep(states, steps, k, r, h);
    }
    AwayPersists(states, i, j, r, h);
    forall k | i <= k < j ensures Sent(states[k], steps[k], r) == [] {
      AwayRunStep(states, steps, k, r, h);
    }
  }

  /** Suspension stability. Between Suspend(r) and the next Resume(r), if the
      registered holder does not give up `r` or a display, it stays the holder, no
      Grant or Revoke for `r` is pushed to anyone, and the Resume pushes exactly one
      Grant, to that holder. */
  lemma SuspensionStability(states: seq<State>, steps: seq<Step>, i: nat, j: nat, r: Resource, h: ClientId)
    requires IsRun(states, steps) && i < j < |steps|
    requires steps[i].event == Suspend(r) && OwnedBy(states[i], r, h) && h in states[i].registered
    requires steps[j].event == Resume(r) && Undisturbed(states, steps, r, h, i + 1, j)
    ensures forall k | i < k <= j :: Away(states[k], r, h)
    ensures Sent(states[i], steps[i], r) == [] && forall k | i < k < j :: Sent(states[k], steps[k], r) == []
    ensures Sent(states[j], steps[j], r) == [Grant(h)]
    ensures OwnedBy(states[j + 1], r, h) && !states[j + 1].slots[r].suspended
  {
    SuspendRunStep(states, steps, i, r, h);
    AwayThroughout(states, steps, i + 1, j, r, h);
    ResumeRunStep(states, steps, j, r, h);
  }

  lemma SuspendRunStep(states: seq<State>, steps: seq<Step>, i: nat, r: Resource, h: ClientId)
    requires IsRun(states, steps) && i < |steps| && steps[i].event == Suspend(r)
    requires OwnedBy(states[i], r, h) && h in states[i].registered
    ensures Away(states[i + 1], r, h) && Sent(states[i], steps[i], r) == []
  {
    ReachableInv(states, steps, i);
    SuspendBegins(states[i], steps[i], states[i + 1], r, h);
  }

  lemma ResumeRunStep(states: seq<State>, steps: seq<Step>, j: nat, r: Resource, h: ClientId)
    requires IsRun(states, steps) && j < |steps| && steps[j].event == Resume(r) && Away(states[j], r, h)
    ensures Sent(states[j], steps[j], r) == [Grant(h)]
    ensures OwnedBy(states[j + 1], r, h) && !states[j + 1].slots[r].suspended
  {
    ReachableInv(states, steps, j);
    ResumeEnds(states[j], steps[j], states[j + 1], r, h);
  }

  /** Suspending a resource marks it, drops a pending revoke and changes nothing else. */
  lemma SuspendOnlyMarks(s: State, st: Step, r: Resource)
    requires r in s.slots && st.event == Suspend(r)
    ensures Apply(s, st).slots[r] == s.slots[r].(suspended := true, revokeDeadline := None)
    ensures Sent(s, st, r) == [] && forall q | q in s.slots && q != r :: Apply(s, st).slots[q] == s.slots[q]
  {
    TouchesOne(s, st, r);
  }

  /** Resuming a suspended resource hands it to its registered holder again and frees one
      whose holder is gone; its queue and a revoke armed meanwhile stay. Resuming one that
      is not suspended does nothing. */
  lemma ResumeHandsBack(s: State, st: Step, r: Resource)
    requires r in s.slots && st.event == Resume(r)
    ensures var slot, after := s.slots[r], Apply(s, st).slots[r];
      && after == slot.(owner := after.owner, suspended := false)
      && (if slot.suspended && slot.owner.Some? && slot.owner.value !in s.registered then after.owner.None?
          else after.owner == slot.owner)
      && (if slot.suspended && slot.owner.Some? && slot.owner.value in s.registered
          then Sent(s, st, r) == [Grant(slot.owner.value)] else Sent(s, st, r) == [])
    ensures forall q | q in s.slots && q != r :: Apply(s, st).slots[q] == s.slots[q]
  {
    TouchesOne(s, st, r);
  }

  // ---- A suspended slot can be taken all the same

  /** Who is served when the holder vacates: somebody who was queued, if anyone of
      them can be reached. */
  lemma VacatedQueueWinner(s: State, st: Step, r: Resource, h: ClientId)
    requires Inv(s) && OwnedBy(s, r, h) && s.slots[r].suspended && FreedQueue(s, st, r).Some?
    ensures var slot, f, env := s.slots[r], Freed(s, st, r), EnvOn(s, st, r);
      var first := Winner(ServiceOrder(slot.policy, slot.waiters), env);
      && (first.Some? ==> Winner(ServiceOrder(f.policy, f.waiters), env) == first)
      && (first.None? ==> Winner(ServiceOrder(f.policy, f.waiters), env) in {None, Some(h)})
  {
    var slot, env := s.slots[r], EnvOn(s, st, r);
    assert SlotInv(r, slot, s.registered);
    if st.event == Disconnected(h) {
      KeepAll(slot.waiters, {h});
    } else if FreedQueue(s, st, r).value != slot.waiters {
      RequeueIsServedLast(slot.policy, slot.waiters, Waiter(h, false));
      WinnerOfConcat(ServiceOrder(slot.policy, slot.waiters), [Waiter(h, false)], env);
    }
  }

  lemma QueueWinner(r: Resource, policy: Policy, ws: seq<Waiter>, env: Env)
    requires QueueInv(r, policy, ws)
    ensures Winner(ServiceOrder(policy, ws), env).Some? <==> SomebodyReachable(ws, env)
    ensures Winner(ServiceOrder(policy, ws), env).Some? ==> Winner(ServiceOrder(policy, ws), env).value in Clients(ws)
  {
    WinnerIsPopped(ServiceOrder(policy, ws), env);
    ServiceOrderClients(policy, ws);
    PartitionClients(ws);
  }

  lemma FreedOwner(s: State, st: Step, r: Resource)
    requires Inv(s) && r in s.slots && FreedQueue(s, st, r).Some?
    ensures Apply(s, st).slots[r].owner ==
            Winner(ServiceOrder(s.slots[r].policy, FreedQueue(s, st, r).value), EnvOn(s, st, r))
  {
    SeatLostLaw(s, st, r);
    FreedIsServed(s, st, r);
    GrantNextIsServe(Freed(s, st, r), EnvOn(s, st, r));
  }

  lemma VacatedWinner(s: State, st: Step, r: Resource, h: ClientId)
    requires Inv(s) && OwnedBy(s, r, h) && FreedQueue(s, st, r).Some? && s.slots[r].suspended
    ensures (exists c :: c != h && OwnedBy(Apply(s, st), r, c)) <==>
            SomebodyReachable(s.slots[r].waiters, EnvOn(s, st, r))
  {
    var slot, env := s.slots[r], EnvOn(s, st, r);
    assert SlotInv(r, slot, s.registered);
    FreedOwner(s, st, r);
    VacatedQueueWinner(s, st, r, h);
    QueueWinner(r, slot.policy, slot.waiters, env);
    var first := Winner(ServiceOrder(slot.policy, slot.waiters), env);
    if first.Some? {
      assert first.value != h && OwnedBy(Apply(s, st), r, first.value);
    }
  }

  /** The source says that nothing else can take a suspended resource. Exactly when
      that fails: the holder releases it, disconnects, or is reclaimed, and somebody
      queued for it can be reached. That client is then granted a device that is
      not there. */
  lemma SuspendedIsTakenIff(s: State, st: Step, r: Resource, h: ClientId)
    requires Inv(s) && OwnedBy(s, r, h) && s.slots[r].suspended
    ensures (exists c :: c != h && OwnedBy(Apply(s, st), r, c)) <==>
            Vacates(s, st, r, h) && SomebodyReachable(s.slots[r].waiters, EnvOn(s, st, r))
  {
    VacatesIsFreed(s, st, r, h);
    if FreedQueue(s, st, r).Some? {
      VacatedWinner(s, st, r, h);
    } else {
      assert SlotInv(r, s.slots[r], s.registered);
      SeatLostLaw(s, st, r);
      UnfreedLaw(s, st, r);
    }
  }
}
