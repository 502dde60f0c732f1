/** A DRM card: the server holds the master and leases the card's objects, one lease
    at a time, to whichever client owns it. Every ioctl may fail in any call. */
module Drm {
  import opened Types

  type LeaseId = nat

  /** A kernel lease. Ids may be used again once a lease is gone; the serial number
      tells the leases of one run apart. */
  datatype Lease = Lease(id: LeaseId, serial: nat)

  datatype DeviceState = Locked | Leased(lease: Lease)

  /** What the kernel answers during one call. */
  datatype Io = Io(revokeFails: bool, probeFails: bool, createFails: bool, id: LeaseId, dupFails: bool)

  /** The kernel's leases over the objects of one card, and how many there have been. */
  datatype KernelState = KernelState(live: set<Lease>, created: nat)

  /** The kernel never leases an object twice. */
  function Created(k: KernelState, io: Io): (KernelState, Option<Lease>) {
    if io.createFails || k.live != {} then (k, None)
    else
      var lease := Lease(io.id, k.created);
      (KernelState(k.live + {lease}, k.created + 1), Some(lease))
  }

  function Revoked(k: KernelState, id: LeaseId, io: Io): (KernelState, bool) {
    if io.revokeFails then (k, false) else (k.(live := set l | l in k.live && l.id != id), true)
  }

  // ---- The card as the server drives it

  datatype Card = Card(state: DeviceState, kernel: KernelState)

  function RevokeCard(c: Card, io: Io): Card {
    match c.state
    case Locked => c
    case Leased(lease) =>
      var (kernel, ok) := Revoked(c.kernel, lease.id, io);
      Card(if ok then Locked else c.state, kernel)
  }

  /** Revoke what is leased, lease afresh, hand out a duplicate of the lease fd. */
  function GrantCard(c: Card, io: Io): (Card, Option<Lease>) {
    var freed := RevokeCard(c, io);
    if freed.state.Leased? || io.probeFails then (freed, None)
    else
      var (kernel, lease) := Created(freed.kernel, io);
      match lease
      case None => (Card(Locked, kernel), None)
      case Some(l) => (Card(Leased(l), kernel), if io.dupFails then None else Some(l))
  }

  class Kernel {
    var state: KernelState

    constructor ()
      ensures state == KernelState({}, 0)
    {
      state := KernelState({}, 0);
    }

    method CreateLease(io: Io) returns (lease: Option<Lease>)
      modifies this
      ensures (state, lease) == Created(old(state), io)
    {
      var (after, made) := Created(state, io);
      state := after;
      return made;
    }

    method RevokeLease(id: LeaseId, io: Io) returns (ok: bool)
      modifies this
      ensures (state, ok) == Revoked(old(state), id, io)
    {
      var (after, done) := Revoked(state, id, io);
      state := after;
      return done;
    }
  }

  /** The state is taken out for the length of a transition and always put back. */
  class DrmDevice {
    var state: Option<DeviceState>
    const kernel: Kernel

    ghost predicate Valid()
      reads this, kernel
    {
      state.Some?
    }

    ghost function View(): Card
      requires Valid()
      reads this, kernel
    {
      Card(state.value, kernel.state)
    }

    constructor (kernel: Kernel)
      requires kernel.state.live == {}
      ensures this.kernel == kernel && Valid() && View() == Card(Locked, kernel.state)
    {
      state := Some(Locked);
      this.kernel := kernel;
    }

    method GrantLease(io: Io) returns (fd: Option<Lease>)
      requires Valid()
      modifies this, kernel
      ensures Valid() && (View(), fd) == GrantCard(old(View()), io)
    {
      var current := state.value;
      state := None;
      if current.Leased? {
        var ok := kernel.RevokeLease(current.lease.id, io);
        if !ok {
          state := Some(current);
          return None;
        }
      }
      if io.probeFails {
        state := Some(Locked);
        return None;
      }
      var lease := kernel.CreateLease(io);
      match lease {
        case None =>
          state := Some(Locked);
          return None;
        case Some(l) =>
          state := Some(Leased(l));
          return if io.dupFails then None else Some(l);
      }
    }

    method RevokeLease(io: Io)
      requires Valid()
      modifies this, kernel
      ensures Valid() && View() == RevokeCard(old(View()), io)
    {
      var current := state.value;
      state := None;
      if current.Leased? {
        var ok := kernel.RevokeLease(current.lease.id, io);
        if ok {
          current := Locked;
        }
      }
      state := Some(current);
    }
  }

  // ---- Runs

  datatype Op = Grant(io: Io) | Revoke(io: Io)

  function Do(c: Card, op: Op): Card {
    match op
    case Grant(io) => GrantCard(c, io).0
    case Revoke(io) => RevokeCard(c, io)
  }

  /** The lease a call hands to a client. */
  function Handed(c: Card, op: Op): Option<Lease> {
    match op
    case Grant(io) => GrantCard(c, io).1
    case Revoke(_) => None
  }

  ghost predicate IsCardRun(cards: seq<Card>, ops: seq<Op>) {
    && |cards| == |ops| + 1 && cards[0].state == Locked && cards[0].kernel.live == {}
    && forall i | 0 <= i < |ops| :: cards[i + 1] == Do(cards[i], ops[i])
  }

  /** The card is never lost and never leased twice: the kernel's live leases are
      exactly the one the server knows of, if any. */
  ghost predicate InStep(c: Card) {
    && c.kernel.live == (if c.state.Leased? then {c.state.lease} else {})
    && forall l | l in c.kernel.live :: l.serial < c.kernel.created
  }

  lemma DoInStep(c: Card, op: Op)
    requires InStep(c)
    ensures InStep(Do(c, op))
    ensures c.kernel.created <= Do(c, op).kernel.created
    ensures forall l | l in Do(c, op).kernel.live :: l in c.kernel.live || l.serial >= c.kernel.created
    ensures Handed(c, op).Some? ==>
      Do(c, op).kernel.live == {Handed(c, op).value} && Handed(c, op).value.serial >= c.kernel.created
  {
  }

  lemma {:induction false} CardInStep(cards: seq<Card>, ops: seq<Op>, i: nat)
    requires IsCardRun(cards, ops) && i < |cards|
    ensures InStep(cards[i])
  {
    if i > 0 {
      CardInStep(cards, ops, i - 1);
      DoInStep(cards[i - 1], ops[i - 1]);
    }
  }

  /** A lease that was made and is dead stays dead. */
  lemma {:induction false} DeadStaysDead(cards: seq<Card>, ops: seq<Op>, i: nat, j: nat, l: Lease)
    requires IsCardRun(cards, ops) && i <= j < |cards|
    requires l.serial < cards[i].kernel.created && l !in cards[i].kernel.live
    ensures l.serial < cards[j].kernel.created && l !in cards[j].kernel.live
  {
    if i < j {
      DeadStaysDead(cards, ops, i, j - 1, l);
      CardInStep(cards, ops, j - 1);
      DoInStep(cards[j - 1], ops[j - 1]);
    }
  }

  /** A grant kills every lease handed out before it, for good: of all the fds the
      clients of a card were ever given, only the last can still be live. */
  lemma GrantSupersedes(cards: seq<Card>, ops: seq<Op>, i: nat, j: nat, k: nat)
    requires IsCardRun(cards, ops) && i < j < |ops| && j < k < |cards|
    requires Handed(cards[i], ops[i]).Some? && Handed(cards[j], ops[j]).Some?
    ensures Handed(cards[i], ops[i]).value !in cards[k].kernel.live
    ensures Handed(cards[j], ops[j]).value in cards[j + 1].kernel.live
  {
    var l := Handed(cards[i], ops[i]).value;
    CardInStep(cards, ops, i);
    DoInStep(cards[i], ops[i]);
    CardInStep(cards, ops, i + 1);
    CardInStep(cards, ops, j);
    DoInStep(cards[j], ops[j]);
    CreatedGrows(cards, ops, i + 1, j);
    assert l in cards[i + 1].kernel.live;
    DeadStaysDead(cards, ops, j + 1, k, l);
  }

  lemma {:induction false} CreatedGrows(cards: seq<Card>, ops: seq<Op>, i: nat, j: nat)
    requires IsCardRun(cards, ops) && i <= j < |cards|
    ensures cards[i].kernel.created <= cards[j].kernel.created
  {
    if i < j {
      CreatedGrows(cards, ops, i, j - 1);
      CardInStep(cards, ops, j - 1);
      DoInStep(cards[j - 1], ops[j - 1]);
    }
  }

  /** After a revoke no fd handed out earlier is live, exactly when there was nothing
      to revoke or the ioctl succeeded; otherwise the card is as it was, so that the
      revoke can be tried again. */
  lemma RevokeKillsIff(c: Card, io: Io)
    requires InStep(c)
    ensures RevokeCard(c, io).kernel.live == {} <==> c.state.Locked? || !io.revokeFails
    ensures RevokeCard(c, io).kernel.live != {} ==> RevokeCard(c, io) == c
  {
  }

  /** What a Grant call leaves behind, handed out or not: nothing has changed if there is
      a lease that cannot be revoked; otherwise every earlier lease is dead, and the card
      is leased afresh exactly if the probe and the lease succeed, also when the fd
      cannot be duplicated. */
  lemma GrantLeaves(c: Card, io: Io)
    requires InStep(c)
    ensures var after := GrantCard(c, io).0;
      if c.state.Leased? && io.revokeFails then after == c
      else
        && after.kernel.live !! c.kernel.live
        && (after.state.Leased? <==> !io.probeFails && !io.createFails)
        && after.kernel.created == c.kernel.created + (if after.state.Leased? then 1 else 0)
        && (after.state.Leased? ==> after.state.lease == Lease(io.id, c.kernel.created))
  {
  }

  /** Nothing to revoke, or a revoke that succeeds. */
  predicate Frees(c: Card, io: Io) {
    c.state.Locked? || !io.revokeFails
  }

  /** Over runs: after any call that could revoke, Grant or Revoke, whether it succeeds or
      not, every lease handed out before it is dead, and stays dead. */
  lemma CallKillsEarlier(cards: seq<Card>, ops: seq<Op>, i: nat, j: nat, k: nat)
    requires IsCardRun(cards, ops) && i < j < |ops| && j < k < |cards|
    requires Handed(cards[i], ops[i]).Some? && Frees(cards[j], ops[j].io)
    ensures Handed(cards[i], ops[i]).value !in cards[k].kernel.live
  {
    var l := Handed(cards[i], ops[i]).value;
    CardInStep(cards, ops, i);
    DoInStep(cards[i], ops[i]);
    CardInStep(cards, ops, i + 1);
    CreatedGrows(cards, ops, i + 1, j);
    CardInStep(cards, ops, j);
    CardInStep(cards, ops, j + 1);
    DoInStep(cards[j], ops[j]);
    match ops[j] {
      case Grant(io) => GrantLeaves(cards[j], io);
      case Revoke(io) => RevokeKillsIff(cards[j], io);
    }
    assert l in cards[i + 1].kernel.live;
    DeadStaysDead(cards, ops, j + 1, k, l);
  }

  /** A call that cannot revoke hands nothing out and leaves the card as it was. */
  lemma StuckCallChangesNothing(c: Card, op: Op)
    requires InStep(c) && !Frees(c, op.io)
    ensures Do(c, op) == c && Handed(c, op).None?
  {
  }

  /** A grant hands out an fd exactly when nothing of its own fails: an earlier lease
      never stands in the way unless it cannot be revoked. */
  lemma GrantSucceedsIff(c: Card, io: Io)
    requires InStep(c)
    ensures GrantCard(c, io).1.Some? <==>
      !(c.state.Leased? && io.revokeFails) && !io.probeFails && !io.createFails && !io.dupFails
  {
  }
}
