/** One resource's slot and what each command does to it. Every function here
    takes the slot and returns the slot it becomes, together with the control
    messages pushed for that resource, in order. */
module Slots {
  import opened Types
  import opened Policies
  import opened Queues

  /** How long a revoked owner may stay silent: five seconds. */
  const REVOKE_TIMEOUT: nat := 5_000

  datatype Slot = Slot(
    policy: Policy,
    owner: Option<ClientId>,
    waiters: seq<Waiter>,
    revokeDeadline: Option<Instant>,
    suspended: bool)

  /** What a handler can see besides the slot: the clock, the clients with a
      control channel, and the clients whose channel would accept a message for
      this resource (a connection task may be gone already). */
  datatype Env = Env(now: Instant, registered: set<ClientId>, live: set<ClientId>)

  datatype Push = Revoke(to: ClientId) | Grant(to: ClientId)

  datatype Effect = Effect(slot: Slot, sent: seq<Push>)

  datatype Denial = NotRegistered | AlreadyOwned | DeviceAway | SeatOnly | Owned

  datatype Outcome = Granted | Queued | Denied(reason: Denial)

  datatype Acquired = Acquired(effect: Effect, outcome: Outcome)

  function NewSlot(policy: Policy): Slot {
    Slot(policy, None, [], None, false)
  }

  function StateOf(slot: Slot): SlotState {
    match (slot.owner, slot.revokeDeadline)
    case (None, _) => Free
    case (Some(_), None) => SlotState.Granted
    case (Some(_), Some(_)) => Revoking
  }

  predicate Deliverable(env: Env, c: ClientId) {
    c in env.registered && c in env.live
  }

  // ---- Serving the queue

  /** The index of the first seat claim, or the queue's length. */
  function FirstClaim(ws: seq<Waiter>): (i: nat)
    ensures i <= |ws|
  {
    if ws == [] || ws[0].seatClaim then 0 else 1 + FirstClaim(ws[1..])
  }

  function PopSeatClaim(ws: seq<Waiter>): Option<(Waiter, seq<Waiter>)> {
    var i := FirstClaim(ws);
    if i == |ws| then None else Some((ws[i], ws[..i] + ws[i + 1..]))
  }

  function PopNext(policy: Policy, ws: seq<Waiter>): (p: Option<(Waiter, seq<Waiter>)>)
    ensures p.Some? ==> |p.value.1| < |ws|
  {
    match PopSeatClaim(ws)
    case Some(popped) => Some(popped)
    case None => PopWaiter(policy, ws)
  }

  /** Pop until a Grant is delivered or there is nobody left to pop. */
  function GrantNext(slot: Slot, env: Env): Effect
    decreases |slot.waiters|
  {
    match PopNext(slot.policy, slot.waiters)
    case None => Effect(slot, [])
    case Some((w, rest)) =>
      if Deliverable(env, w.client)
      then Effect(slot.(owner := Some(w.client), waiters := rest), [Grant(w.client)])
      else GrantNext(slot.(waiters := rest), env)
  }

  /** The first client of an order that can be reached. */
  function Winner(order: seq<Waiter>, env: Env): Option<ClientId> {
    if order == [] then None
    else if Deliverable(env, order[0].client) then Some(order[0].client)
    else Winner(order[1..], env)
  }

  /** Everybody ahead of the winner, and the winner. */
  function Popped(order: seq<Waiter>, env: Env): seq<Waiter> {
    if order == [] then []
    else if Deliverable(env, order[0].client) then [order[0]]
    else [order[0]] + Popped(order[1..], env)
  }

  /** The clients that one call of GrantNext takes out of a queue. */
  function Served(slot: Slot, env: Env): set<ClientId> {
    Clients(Popped(ServiceOrder(slot.policy, slot.waiters), env))
  }

  /** The reference: the first reachable client in service order wins, and the
      clients ahead of it leave the queue with it. */
  function Serve(slot: Slot, env: Env): Effect {
    var rest := slot.(waiters := Keep(slot.waiters, Served(slot, env)));
    match Winner(ServiceOrder(slot.policy, slot.waiters), env)
    case Some(c) => Effect(rest.(owner := Some(c)), [Grant(c)])
    case None => Effect(rest, [])
  }

  // ---- The commands, per slot

  function ForceReclaim(slot: Slot, env: Env): Effect {
    GrantNext(slot.(owner := None, revokeDeadline := None), env)
  }

  function ReleaseOne(slot: Slot, c: ClientId, env: Env): Effect {
    if slot.owner != Some(c) then Effect(slot, [])
    else
      var waiters :=
        if slot.revokeDeadline.Some? && slot.waiters != []
        then RequeueWaiter(slot.policy, slot.waiters, Waiter(c, false))
        else slot.waiters;
      GrantNext(slot.(owner := None, revokeDeadline := None, waiters := waiters), env)
  }

  function DisconnectOne(slot: Slot, c: ClientId, env: Env): Effect {
    var left := slot.(waiters := Keep(slot.waiters, {c}));
    if slot.owner == Some(c) then ForceReclaim(left, env) else Effect(left, [])
  }

  /** A new waiter; the first one starts the revoke of the owner. */
  function JoinOne(slot: Slot, c: ClientId, claim: bool, env: Env): Effect {
    if IsQueued(slot.waiters, c) then Effect(slot, [])
    else
      var joined := slot.(waiters := slot.waiters + [Waiter(c, claim)]);
      if slot.revokeDeadline.Some? || slot.owner.None? then Effect(joined, [])
      else if slot.owner.value in env.registered then
        Effect(joined.(revokeDeadline := Some(env.now + REVOKE_TIMEOUT)), [Revoke(slot.owner.value)])
      else GrantNext(joined.(owner := None), env)
  }

  predicate SeatSteal(r: Resource, slot: Slot, requesterSeat: bool, holderSeat: bool) {
    r.Input? && requesterSeat && slot.owner.Some? && !holderSeat
  }

  function AcquireOne(r: Resource, slot: Slot, c: ClientId, requesterSeat: bool, holderSeat: bool, env: Env): Acquired {
    if slot.owner == Some(c) then Acquired(Effect(slot, []), Denied(AlreadyOwned))
    else if slot.suspended then Acquired(Effect(slot, []), Denied(DeviceAway))
    else if r.Input? && !requesterSeat && slot.owner.Some? then Acquired(Effect(slot, []), Denied(SeatOnly))
    else
      var steal := SeatSteal(r, slot, requesterSeat, holderSeat);
      var decision := if steal then RevokeAndQueue else Decide(slot.policy, StateOf(slot));
      match decision
      case GrantNow => Acquired(Effect(slot.(owner := Some(c)), []), Outcome.Granted)
      case Refuse => Acquired(Effect(slot, []), Denied(Owned))
      case _ => Acquired(JoinOne(slot, c, steal, env), Queued)
  }

  function SuspendOne(slot: Slot): Slot {
    slot.(suspended := true, revokeDeadline := None)
  }

  function ResumeOne(slot: Slot, env: Env): Effect {
    if !slot.suspended then Effect(slot, [])
    else
      var back := slot.(suspended := false);
      match slot.owner
      case None => Effect(back, [])
      case Some(o) =>
        if o in env.registered then Effect(back, [Grant(o)]) else Effect(back.(owner := None), [])
  }

  function Repeat(p: Push, n: nat): seq<Push> {
    if n == 0 then [] else [p] + Repeat(p, n - 1)
  }

  /** The owner lost `losses` displays: it is asked for this input once for each. */
  function SeatLost(slot: Slot, losses: nat, env: Env): Effect {
    if losses > 0 && slot.owner.Some? && slot.owner.value in env.registered
    then Effect(slot.(revokeDeadline := Some(env.now + REVOKE_TIMEOUT)), Repeat(Revoke(slot.owner.value), losses))
    else Effect(slot, [])
  }

  predicate Expired(slot: Slot, now: Instant) {
    slot.revokeDeadline.Some? && slot.revokeDeadline.value <= now
  }

  function SweepOne(slot: Slot, env: Env): Effect {
    if Expired(slot, env.now) then ForceReclaim(slot, env) else Effect(slot, [])
  }

  // ---- GrantNext serves in service order

  lemma {:induction false} FirstClaimSplits(ws: seq<Waiter>)
    ensures FirstClaim(ws) < |ws| ==> Claims(ws) != [] && Claims(ws)[0] == ws[FirstClaim(ws)]
    ensures FirstClaim(ws) == |ws| ==> Claims(ws) == []
  {
    if ws != [] {
      FirstClaimSplits(ws[1..]);
    }
  }

  lemma {:induction false} ReverseHead(ws: seq<Waiter>)
    requires ws != []
    ensures Reverse(ws) != [] && Reverse(ws)[0] == ws[|ws| - 1]
  {
    if |ws| > 1 {
      ReverseHead(ws[1..]);
    }
  }

  lemma PopClaimSplits(ws: seq<Waiter>) returns (a: seq<Waiter>, b: seq<Waiter>)
    requires FirstClaim(ws) < |ws|
    ensures PopSeatClaim(ws).Some?
    ensures var (w, rest) := PopSeatClaim(ws).value;
      ws == a + [w] + b && rest == a + b && Claims(ws) != [] && w == Claims(ws)[0]
  {
    var i := FirstClaim(ws);
    a, b := ws[..i], ws[i + 1..];
    FirstClaimSplits(ws);
  }

  lemma PopPolicySplits(policy: Policy, ws: seq<Waiter>) returns (a: seq<Waiter>, b: seq<Waiter>)
    requires policy != FirstOwner && ws != [] && FirstClaim(ws) == |ws|
    ensures PopWaiter(policy, ws).Some?
    ensures var (w, rest) := PopWaiter(policy, ws).value;
      ws == a + [w] + b && rest == a + b && ServiceOrder(policy, ws) != [] && w == ServiceOrder(policy, ws)[0]
  {
    FirstClaimSplits(ws);
    NoClaims(ws);
    if policy == FairQueue {
      a, b := [], ws[1..];
    } else {
      a, b := ws[..|ws| - 1], [];
      ReverseHead(ws);
    }
  }

  /** One pop takes the head of the service order out of the queue. */
  lemma PopNextSplits(policy: Policy, ws: seq<Waiter>) returns (a: seq<Waiter>, b: seq<Waiter>)
    requires PopNext(policy, ws).Some?
    ensures var (w, rest) := PopNext(policy, ws).value;
      ws == a + [w] + b && rest == a + b && ServiceOrder(policy, ws) != [] && w == ServiceOrder(policy, ws)[0]
  {
    if FirstClaim(ws) < |ws| {
      a, b := PopClaimSplits(ws);
    } else {
      a, b := PopPolicySplits(policy, ws);
    }
  }

  lemma NothingToPop(policy: Policy, ws: seq<Waiter>)
    requires PopNext(policy, ws).None?
    ensures ServiceOrder(policy, ws) == []
  {
    FirstClaimSplits(ws);
  }

  lemma ServedHeadLeavesTail(policy: Policy, ws: seq<Waiter>)
    requires Distinct(ws) && ServiceOrder(policy, ws) != []
    ensures var order := ServiceOrder(policy, ws); ServiceOrder(policy, Keep(ws, {order[0].client})) == order[1..]
  {
    var order := ServiceOrder(policy, ws);
    ServiceOrderKeep(policy, ws, {order[0].client});
    ServiceOrderClients(policy, ws);
    KeepAll(order[1..], {order[0].client});
  }

  /** One pop takes the head of the service order and leaves the rest of it. */
  lemma PopNextIsHead(policy: Policy, ws: seq<Waiter>)
    requires Distinct(ws)
    ensures PopNext(policy, ws).None? <==> ServiceOrder(policy, ws) == []
    ensures PopNext(policy, ws).Some? ==>
              var (w, rest) := PopNext(policy, ws).value;
              && w == ServiceOrder(policy, ws)[0]
              && rest == Keep(ws, {w.client})
              && ServiceOrder(policy, rest) == ServiceOrder(policy, ws)[1..]
  {
    if PopNext(policy, ws).None? {
      NothingToPop(policy, ws);
    } else {
      var a, b := PopNextSplits(policy, ws);
      KeepRemove(a, PopNext(policy, ws).value.0, b);
      ServedHeadLeavesTail(policy, ws);
    }
  }

  /** The popping loop of the engine is the reference: for every queue without
      duplicates, every policy and every pattern of dead channels. */
  lemma {:induction false} GrantNextIsServe(slot: Slot, env: Env)
    requires Distinct(slot.waiters)
    ensures GrantNext(slot, env) == Serve(slot, env)
    decreases |slot.waiters|
  {
    var order := ServiceOrder(slot.policy, slot.waiters);
    PopNextIsHead(slot.policy, slot.waiters);
    match PopNext(slot.policy, slot.waiters)
    case None => KeepAll(slot.waiters, {});
    case Some((w, rest)) =>
      if Deliverable(env, w.client) {
        SingleWaiter(w);
      } else {
        KeepDistinct(slot.waiters, {w.client});
        var next := slot.(waiters := rest);
        GrantNextIsServe(next, env);
        assert Popped(order, env)[1..] == Popped(order[1..], env);
        KeepTwice(slot.waiters, {w.client}, Served(next, env));
      }
  }

  /** Everybody behind the winner. */
  function Unpopped(order: seq<Waiter>, env: Env): seq<Waiter> {
    if order == [] then []
    else if Deliverable(env, order[0].client) then order[1..]
    else Unpopped(order[1..], env)
  }

  lemma {:induction false} PoppedSplits(order: seq<Waiter>, env: Env)
    ensures order == Popped(order, env) + Unpopped(order, env)
  {
    if order != [] && !Deliverable(env, order[0].client) {
      PoppedSplits(order[1..], env);
      assert order == [order[0]] + (Popped(order[1..], env) + Unpopped(order[1..], env));
    }
  }

  lemma PoppedIsPrefix(order: seq<Waiter>, env: Env)
    requires Distinct(order)
    ensures order == Popped(order, env) + Keep(order, Clients(Popped(order, env)))
    ensures Clients(Popped(order, env)) <= Clients(order)
  {
    var p, u := Popped(order, env), Unpopped(order, env);
    PoppedSplits(order, env);
    DistinctConcat(p, u);
    ClientsConcat(p, u);
    KeepConcat(p, u, Clients(p));
    KeepNone(p, Clients(p));
    KeepAll(u, Clients(p));
  }

  /** Conservation: what one serving call pops and what it leaves are exactly the
      queue it found. The popped are a prefix of the service order, and the rest
      keeps both its queue order and its service order. */
  lemma GrantNextConserves(slot: Slot, env: Env)
    requires Distinct(slot.waiters)
    ensures var order, after := ServiceOrder(slot.policy, slot.waiters), GrantNext(slot, env).slot.waiters;
      && order == Popped(order, env) + ServiceOrder(slot.policy, after)
      && after == Keep(slot.waiters, Clients(Popped(order, env)))
      && Clients(slot.waiters) == Clients(Popped(order, env)) + Clients(after)
      && Clients(Popped(order, env)) !! Clients(after)
  {
    var order := ServiceOrder(slot.policy, slot.waiters);
    GrantNextIsServe(slot, env);
    ServiceOrderClients(slot.policy, slot.waiters);
    PartitionClients(slot.waiters);
    PoppedIsPrefix(order, env);
    ServiceOrderKeep(slot.policy, slot.waiters, Served(slot, env));
    KeepClients(slot.waiters, Served(slot, env));
  }

  lemma {:induction false} WinnerIsPopped(order: seq<Waiter>, env: Env)
    ensures match Winner(order, env)
      case Some(w) =>
        && w in Clients(Popped(order, env)) && w in Clients(order) && Deliverable(env, w)
        && (forall c | c in Clients(Popped(order, env)) :: c == w || !Deliverable(env, c))
      case None =>
        Popped(order, env) == order && (forall c | c in Clients(order) :: !Deliverable(env, c))
  {
    if order != [] {
      if Deliverable(env, order[0].client) {
        SingleWaiter(order[0]);
      } else {
        WinnerIsPopped(order[1..], env);
        assert Popped(order, env)[1..] == Popped(order[1..], env);
      }
    }
  }

  /** Who wins: at most one Grant, to a reachable client of the queue; every other
      client that leaves could not be reached; and if nobody wins, nobody who may be
      served is left. */
  lemma GrantNextWinner(slot: Slot, env: Env)
    requires Distinct(slot.waiters) && slot.owner.None?
    ensures var e, gone := GrantNext(slot, env), Served(slot, env);
      && e.slot == slot.(owner := e.slot.owner, waiters := Keep(slot.waiters, gone))
      && gone <= Clients(slot.waiters)
      && (forall c | c in gone :: e.slot.owner == Some(c) || !Deliverable(env, c))
      && (match e.slot.owner
          case None => e.sent == [] && (slot.policy != FirstOwner || Others(slot.waiters) == [] ==>
            e.slot.waiters == [])
          case Some(w) => w in gone && Deliverable(env, w) && e.sent == [Grant(w)])
  {
    var order := ServiceOrder(slot.policy, slot.waiters);
    GrantNextIsServe(slot, env);
    WinnerIsPopped(order, env);
    ServiceOrderClients(slot.policy, slot.waiters);
    PartitionClients(slot.waiters);
    PoppedIsPrefix(order, env);
    if Winner(order, env).None? && (slot.policy != FirstOwner || Others(slot.waiters) == []) {
      KeepNone(slot.waiters, Served(slot, env));
    }
  }
}
