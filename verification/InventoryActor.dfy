/** The inventory as it runs: three shared structures changed in place, one device at
    a time. Every method is proved to do what the transitions on values do. */
module InventoryActor {
  import opened Types
  import opened Policies
  import Machine
  import opened Inventory
  import opened InventoryLaws

  class AdvertisedResources {
    var list: seq<Resource>

    constructor (resources: seq<Resource>)
      ensures list == resources
    {
      list := resources;
    }

    method Insert(r: Resource)
      modifies this
      ensures list == Listed(old(list), r)
    {
      if r !in list {
        list := list + [r];
      }
    }

    method Remove(r: Resource)
      modifies this
      ensures list == Unlisted(old(list), r)
    {
      var kept := [];
      for i := 0 to |list|
        invariant list == old(list)
        invariant kept + Unlisted(list[i..], r) == Unlisted(list, r)
      {
        assert list[i..][1..] == list[i + 1..];
        if list[i] != r {
          kept := kept + [list[i]];
        }
      }
      list := kept;
    }
  }

  /** The mailbox of the policy engine: commands are only queued. */
  class PolicyEngine {
    var mail: seq<Mail>

    constructor ()
      ensures mail == []
    {
      mail := [];
    }

    method Send(m: Mail)
      modifies this
      ensures mail == old(mail) + [m]
    {
      mail := mail + [m];
    }
  }

  method ScanFreeIndex(inputs: map<Path, HeldInput>, kind: InputClass) returns (r: Option<Index>)
    ensures r == FreeIndex(inputs, kind)
  {
    var i := 0;
    while i < 256
      invariant 0 <= i <= 256
      invariant FreeIndexFrom(inputs, kind, i) == FreeIndex(inputs, kind)
    {
      if IsFree(inputs, kind, i) {
        return Some(i);
      }
      i := i + 1;
    }
    return None;
  }

  /** One entry per resource makes the lowest peer unique. */
  lemma LowestPeerUnique(inputs: map<Path, HeldInput>, kind: InputClass, w: World, p: Path, q: Path)
    requires OneEntryPerResource(inputs) && IsLowestPeer(inputs, kind, w, p) && IsLowestPeer(inputs, kind, w, q)
    ensures p == q
  {
    assert inputs[p].resource == inputs[q].resource;
  }

  /** A lowest peer, or the finding that there is no peer at all. */
  method FindSuspendedPeer(inputs: map<Path, HeldInput>, kind: InputClass, w: World) returns (peer: Option<Path>)
    ensures peer.Some? ==> IsLowestPeer(inputs, kind, w, peer.value)
    ensures peer.None? ==> forall p :: !IsPeer(inputs, kind, w, p)
    ensures OneEntryPerResource(inputs) ==> peer == SuspendedPeer(inputs, kind, w)
  {
    peer := None;
    var todo := inputs.Keys;
    while todo != {}
      invariant todo <= inputs.Keys
      invariant peer.None? ==> forall p | p in inputs && p !in todo :: !IsPeer(inputs, kind, w, p)
      invariant peer.Some? ==> IsPeer(inputs, kind, w, peer.value)
      invariant peer.Some? ==> forall p | p in inputs && p !in todo && IsPeer(inputs, kind, w, p) ::
        inputs[peer.value].resource.input.index <= inputs[p].resource.input.index
    {
      var p :| p in todo;
      if IsPeer(inputs, kind, w, p) &&
         (peer.None? || inputs[p].resource.input.index < inputs[peer.value].resource.input.index) {
        peer := Some(p);
      }
      todo := todo - {p};
    }
    if peer.Some? && OneEntryPerResource(inputs) {
      assert IsLowestPeer(inputs, kind, w, peer.value);
      LowestPeerUnique(inputs, kind, w, peer.value, SuspendedPeer(inputs, kind, w).value);
    }
  }

  datatype Problem =
    | InIndexTwice(resource: Resource)
    | GoneWithFd(resource: Resource)
    | GoneAdvertised(resource: Resource)
    | LiveWithoutFd(resource: Resource)
    | LiveUnadvertised(resource: Resource)
    | AdvertisedUnheld(resource: Resource)
    | FdUnadvertised(resource: Resource)

  /** What is wrong with one entry, whatever the others are. */
  ghost predicate IsWrongWith(st: Store, held: HeldInput, x: Problem) {
    && x.resource == held.resource
    && match x
       case GoneWithFd(r) => held.gone && r in st.fds
       case GoneAdvertised(r) => held.gone && r in st.advertised
       case LiveWithoutFd(r) => !held.gone && r !in st.fds
       case LiveUnadvertised(r) => !held.gone && r !in st.advertised
       case _ => false
  }

  method CheckEntry(st: Store, held: HeldInput) returns (problems: seq<Problem>)
    ensures forall x :: x in problems <==> IsWrongWith(st, held, x)
  {
    problems := [];
    if held.gone {
      if held.resource in st.fds {
        problems := problems + [GoneWithFd(held.resource)];
      }
      if held.resource in st.advertised {
        problems := problems + [GoneAdvertised(held.resource)];
      }
    } else {
      if held.resource !in st.fds {
        problems := problems + [LiveWithoutFd(held.resource)];
      }
      if held.resource !in st.advertised {
        problems := problems + [LiveUnadvertised(held.resource)];
      }
    }
  }

  ghost predicate IsTwiceIn(st: Store, some: set<Path>, r: Resource) {
    exists p, q | p in some && q in some && p in st.inputs && q in st.inputs && p != q ::
      st.inputs[p].resource == r == st.inputs[q].resource
  }

  ghost predicate IsWrongIn(st: Store, some: set<Path>, x: Problem) {
    || (x.InIndexTwice? && IsTwiceIn(st, some, x.resource))
    || exists p | p in some && p in st.inputs :: IsWrongWith(st, st.inputs[p], x)
  }

  lemma OneEntryMore(st: Store, some: set<Path>, p: Path, x: Problem)
    requires some <= st.inputs.Keys && p in st.inputs && p !in some
    ensures IsWrongIn(st, some + {p}, x) <==>
      || IsWrongIn(st, some, x) || IsWrongWith(st, st.inputs[p], x)
      || (x == InIndexTwice(st.inputs[p].resource) && exists q | q in some :: st.inputs[q].resource == x.resource)
  {
    var more := some + {p};
    if x == InIndexTwice(st.inputs[p].resource) && exists q | q in some :: st.inputs[q].resource == x.resource {
      var q :| q in some && st.inputs[q].resource == x.resource;
      assert p in more && q in more && p != q && st.inputs[p].resource == x.resource == st.inputs[q].resource;
    }
    assert p in more && forall q | q in some :: q in more;
  }

  /** The entries, in any order: every problem of an entry, and every name that two of
      them share. */
  method CheckEntries(st: Store) returns (problems: seq<Problem>, seen: set<Resource>)
    ensures seen == Names(st.inputs)
    ensures forall x :: x in problems <==> IsWrongIn(st, st.inputs.Keys, x)
  {
    problems, seen := [], {};
    var todo := st.inputs.Keys;
    ghost var done: set<Path> := {};
    while todo != {}
      invariant todo !! done && todo + done == st.inputs.Keys
      invariant seen == set p | p in done :: st.inputs[p].resource
      invariant forall x :: x in problems <==> IsWrongIn(st, done, x)
    {
      var p :| p in todo;
      var held := st.inputs[p];
      ghost var before := problems;
      if held.resource in seen {
        problems := problems + [InIndexTwice(held.resource)];
      }
      var more := CheckEntry(st, held);
      problems := problems + more;
      forall x ensures x in problems <==> IsWrongIn(st, done + {p}, x) {
        OneEntryMore(st, done, p, x);
        assert x in before <==> IsWrongIn(st, done, x);
      }
      seen := seen + {held.resource};
      todo, done := todo - {p}, done + {p};
    }
    assert done == st.inputs.Keys;
  }

  method CheckList(st: Store, seen: set<Resource>) returns (problems: seq<Problem>)
    ensures forall x :: x in problems <==>
      x.AdvertisedUnheld? && x.resource in st.advertised && x.resource.Input? && x.resource !in seen
  {
    problems := [];
    for i := 0 to |st.advertised|
      invariant forall x :: x in problems <==>
        x.AdvertisedUnheld? && x.resource in st.advertised[..i] && x.resource.Input? && x.resource !in seen
    {
      assert st.advertised[..i + 1] == st.advertised[..i] + [st.advertised[i]];
      if st.advertised[i].Input? && st.advertised[i] !in seen {
        problems := problems + [AdvertisedUnheld(st.advertised[i])];
      }
    }
    assert st.advertised[..|st.advertised|] == st.advertised;
  }

  method CheckFds(st: Store) returns (problems: seq<Problem>)
    ensures forall x :: x in problems <==>
      x.FdUnadvertised? && x.resource in st.fds && x.resource.Input? && x.resource !in st.advertised
  {
    problems := [];
    var todo := st.fds.Keys;
    while todo != {}
      invariant todo <= st.fds.Keys
      invariant forall x :: x in problems <==>
        && x.FdUnadvertised? && x.resource in st.fds && x.resource !in todo
        && x.resource.Input? && x.resource !in st.advertised
    {
      var r :| r in todo;
      if r.Input? && r !in st.advertised {
        problems := problems + [FdUnadvertised(r)];
      }
      todo := todo - {r};
    }
  }

  /** A rule is broken at a resource. */
  ghost predicate IsViolated(st: Store, x: Problem) {
    match x
    case AdvertisedUnheld(r) => r in st.advertised && r.Input? && r !in Names(st.inputs)
    case FdUnadvertised(r) => r in st.fds && r.Input? && r !in st.advertised
    case _ => IsWrongIn(st, st.inputs.Keys, x)
  }

  lemma RulesIff(st: Store)
    ensures Rules(st) <==> forall x :: !IsViolated(st, x)
  {
    if !Rules(st) {
      var x := SomeViolation(st);
    } else {
      forall x ensures !IsViolated(st, x) {
      }
    }
  }

  lemma SomeViolation(st: Store) returns (x: Problem)
    requires !Rules(st)
    ensures IsViolated(st, x)
  {
    if !OneEntryPerResource(st.inputs) {
      var p, q :| p in st.inputs && q in st.inputs && p != q && st.inputs[p].resource == st.inputs[q].resource;
      x := InIndexTwice(st.inputs[p].resource);
      assert p in st.inputs.Keys && q in st.inputs.Keys;
    } else if !LiveIsOffered(st) {
      var p :| p in st.inputs && !st.inputs[p].gone &&
        !(st.inputs[p].resource in st.fds && st.inputs[p].resource in st.advertised);
      var r := st.inputs[p].resource;
      x := if r !in st.fds then LiveWithoutFd(r) else LiveUnadvertised(r);
      assert p in st.inputs.Keys && IsWrongWith(st, st.inputs[p], x);
    } else if !GoneIsNotOffered(st) {
      var p :| p in st.inputs && st.inputs[p].gone &&
        !(st.inputs[p].resource !in st.fds && st.inputs[p].resource !in st.advertised);
      var r := st.inputs[p].resource;
      x := if r in st.fds then GoneWithFd(r) else GoneAdvertised(r);
      assert p in st.inputs.Keys && IsWrongWith(st, st.inputs[p], x);
    } else if r :| r in st.advertised && r.Input? && r !in Names(st.inputs) {
      x := AdvertisedUnheld(r);
    } else {
      var r :| r in st.fds && r.Input? && r !in st.advertised;
      x := FdUnadvertised(r);
    }
  }

  /** The checker reports exactly what is wrong, and so nothing exactly when all four
      rules hold. */
  method CheckConsistency(st: Store) returns (problems: seq<Problem>)
    ensures forall x :: x in problems <==> IsViolated(st, x)
    ensures problems == [] <==> Rules(st)
  {
    var entries, seen := CheckEntries(st);
    var list := CheckList(st, seen);
    var fds := CheckFds(st);
    problems := entries + list + fds;
    RulesIff(st);
    forall x ensures x in problems <==> IsViolated(st, x) {
    }
    if problems != [] {
      assert problems[0] in problems;
    }
  }

  lemma OneMore(st: Store, policy: Policy, probes: seq<Probe>, worlds: seq<World>, i: nat)
    requires i < |probes| == |worlds|
    ensures var before := ReconcileAll(st, policy, probes[..i], worlds[..i]);
      var one := ReconcileOne(before.0, policy, probes[i], worlds[i]);
      ReconcileAll(st, policy, probes[..i + 1], worlds[..i + 1]) == (one.0, before.1 || !one.1)
  {
    assert probes[..i + 1][..i] == probes[..i] && worlds[..i + 1][..i] == worlds[..i];
  }

  function LetGoAt(st: Store, present: set<Path>, w: World, p: Path): Store {
    if Vanished(st, present, w, p) then SuspendInput(st, p, st.inputs[p]) else st
  }

  lemma OneMoreVanished(st: Store, present: set<Path>, w: World, order: seq<Path>, p: Path)
    ensures SuspendVanished(st, present, w, order + [p]) ==
            LetGoAt(SuspendVanished(st, present, w, order), present, w, p)
  {
    assert (order + [p])[..|order|] == order;
  }

  class LiveInventory {
    var fds: map<Resource, Fd>
    var inputs: map<Path, HeldInput>

    constructor (fds: map<Resource, Fd>)
      ensures this.fds == fds && inputs == map[]
    {
      this.fds, inputs := fds, map[];
    }

    ghost function StoreOf(advertised: AdvertisedResources, engine: PolicyEngine): Store
      reads this, advertised, engine
    {
      Store(fds, inputs, advertised.list, engine.mail)
    }

    method PushList(advertised: AdvertisedResources, engine: PolicyEngine)
      modifies engine
      ensures engine.mail == old(engine.mail) + [Advertise(advertised.list)]
    {
      engine.Send(Advertise(advertised.list));
    }

    method Reopen(path: Path, r: Resource, w: World) returns (ok: bool)
      modifies this
      ensures forall a: AdvertisedResources, e: PolicyEngine | old(allocated(a)) && old(allocated(e)) ::
        (StoreOf(a, e), ok) == ReopenInput(old(StoreOf(a, e)), path, r, w)
    {
      if path !in w.opens {
        return false;
      }
      var o := w.opens[path];
      fds := fds[r := o.fd];
      inputs := inputs[path := Entry(r, o)];
      return true;
    }

    method Adopt(
      advertised: AdvertisedResources, engine: PolicyEngine, policy: Policy, path: Path, kind: InputClass, w: World)
      returns (ok: bool)
      modifies this, advertised, engine
      ensures (StoreOf(advertised, engine), ok) == AdoptInput(old(StoreOf(advertised, engine)), policy, path, kind, w)
    {
      var i := ScanFreeIndex(inputs, kind);
      if i.None? || path !in w.opens {
        return false;
      }
      var r, o := NameOf(kind, i.value), w.opens[path];
      fds := fds[r := o.fd];
      inputs := inputs[path := Entry(r, o)];
      advertised.Insert(r);
      engine.Send(Command(Machine.Offer(r, policy)));
      PushList(advertised, engine);
      return true;
    }

    method Suspend(advertised: AdvertisedResources, engine: PolicyEngine, path: Path, held: HeldInput)
      modifies this, advertised, engine
      ensures StoreOf(advertised, engine) == SuspendInput(old(StoreOf(advertised, engine)), path, held)
    {
      advertised.Remove(held.resource);
      engine.Send(Command(Machine.Suspend(held.resource)));
      fds := fds - {held.resource};
      inputs := inputs[path := held.(gone := true)];
      PushList(advertised, engine);
    }

    method Resume(
      advertised: AdvertisedResources, engine: PolicyEngine, from: Path, path: Path, held: HeldInput, w: World)
      returns (ok: bool)
      modifies this, advertised, engine
      ensures (StoreOf(advertised, engine), ok) == ResumeInput(old(StoreOf(advertised, engine)), from, path, held, w)
    {
      if path !in w.opens {
        return false;
      }
      var r, o := held.resource, w.opens[path];
      fds := fds[r := o.fd];
      if from != path {
        inputs := inputs - {from};
      }
      inputs := inputs[path := Entry(r, o)];
      advertised.Insert(r);
      engine.Send(Command(Machine.Resume(r)));
      PushList(advertised, engine);
      return true;
    }

    method ParkEntry(path: Path)
      modifies this
      ensures fds == old(fds)
      ensures forall st: Store | st.inputs == old(inputs) :: Park(st, path) == st.(inputs := inputs)
    {
      if path in inputs {
        var held := inputs[path];
        inputs := inputs - {path};
        inputs := inputs[Placeholder(held.resource) := held];
      }
    }

    /** Register the device that took over the node of a suspended entry. */
    method ParkAndAdopt(
      advertised: AdvertisedResources, engine: PolicyEngine, policy: Policy, path: Path, kind: InputClass, w: World)
      returns (ok: bool)
      modifies this, advertised, engine
      ensures (StoreOf(advertised, engine), ok) ==
        AdoptInput(Park(old(StoreOf(advertised, engine)), path), policy, path, kind, w)
    {
      ParkEntry(path);
      ok := Adopt(advertised, engine, policy, path, kind, w);
    }

    /** One probed device. */
    method Visit(advertised: AdvertisedResources, engine: PolicyEngine, policy: Policy, probe: Probe, w: World)
      returns (taken: bool)
      requires Consistent(StoreOf(advertised, engine))
      modifies this, advertised, engine
      ensures (StoreOf(advertised, engine), taken) == ReconcileOne(old(StoreOf(advertised, engine)), policy, probe, w)
    {
      var path := Node(probe.name);
      if path in inputs {
        taken := VisitHeld(advertised, engine, policy, probe, w, inputs[path]);
        return;
      }
      var peer := FindSuspendedPeer(inputs, probe.kind, w);
      match peer {
        case Some(from) =>
          taken := Resume(advertised, engine, from, path, inputs[from], w);
        case None =>
          taken := Adopt(advertised, engine, policy, path, probe.kind, w);
      }
    }

    /** ... whose node has an entry. */
    method VisitHeld(
      advertised: AdvertisedResources, engine: PolicyEngine, policy: Policy, probe: Probe, w: World, held: HeldInput)
      returns (taken: bool)
      requires Node(probe.name) in inputs && inputs[Node(probe.name)] == held
      modifies this, advertised, engine
      ensures (StoreOf(advertised, engine), taken) == ReconcileOne(old(StoreOf(advertised, engine)), policy, probe, w)
    {
      var path, kind := Node(probe.name), probe.kind;
      if path in w.inodes && w.inodes[path] == held.inode {
        taken := true;
      } else if held.gone && MayResume(held, kind) {
        taken := Resume(advertised, engine, path, path, held, w);
      } else if held.gone {
        taken := ParkAndAdopt(advertised, engine, policy, path, kind, w);
      } else if SameDevice(path, held, w) || DeviceExists(held, w) {
        taken := Reopen(path, held.resource, w);
      } else if MayResume(held, kind) {
        taken := Resume(advertised, engine, path, path, held, w);
      } else {
        Suspend(advertised, engine, path, held);
        taken := ParkAndAdopt(advertised, engine, policy, path, kind, w);
      }
    }

    /** One pass: visit every probed device, then suspend the ones that have gone,
        iterating over a snapshot of the index in an arbitrary order. */
    method Reconcile(advertised: AdvertisedResources, engine: PolicyEngine, policy: Policy,
                     probes: seq<Probe>, worlds: seq<World>, last: World)
      returns (retry: bool, ghost order: seq<Path>)
      requires |worlds| == |probes| && Consistent(StoreOf(advertised, engine))
      modifies this, advertised, engine
      ensures (StoreOf(advertised, engine), retry) ==
        Pass(old(StoreOf(advertised, engine)), policy, probes, worlds, order, last)
      ensures Consistent(StoreOf(advertised, engine))
      ensures forall p | p in inputs :: p in order
    {
      retry := VisitAll(advertised, engine, policy, probes, worlds);
      order := LetGo(advertised, engine, Present(probes), last);
    }

    method VisitAll(
      advertised: AdvertisedResources, engine: PolicyEngine, policy: Policy, probes: seq<Probe>, worlds: seq<World>)
      returns (retry: bool)
      requires |worlds| == |probes| && Consistent(StoreOf(advertised, engine))
      modifies this, advertised, engine
      ensures (StoreOf(advertised, engine), retry) ==
        ReconcileAll(old(StoreOf(advertised, engine)), policy, probes, worlds)
      ensures Consistent(StoreOf(advertised, engine))
    {
      ghost var st := StoreOf(advertised, engine);
      retry := false;
      for i := 0 to |probes|
        invariant (StoreOf(advertised, engine), retry) == ReconcileAll(st, policy, probes[..i], worlds[..i])
        invariant Consistent(StoreOf(advertised, engine))
      {
        OneMore(st, policy, probes, worlds, i);
        ReconcileOneKeeps(StoreOf(advertised, engine), policy, probes[i], worlds[i]);
        var taken := Visit(advertised, engine, policy, probes[i], worlds[i]);
        if !taken {
          retry := true;
        }
      }
      assert probes[..|probes|] == probes && worlds[..|worlds|] == worlds;
    }

    method LetGo(advertised: AdvertisedResources, engine: PolicyEngine, present: set<Path>, w: World)
      returns (ghost order: seq<Path>)
      requires Consistent(StoreOf(advertised, engine))
      modifies this, advertised, engine
      ensures StoreOf(advertised, engine) == SuspendVanished(old(StoreOf(advertised, engine)), present, w, order)
      ensures Consistent(StoreOf(advertised, engine))
      ensures forall p | p in inputs :: p in order
    {
      ghost var st := StoreOf(advertised, engine);
      var snapshot := inputs;
      var todo := snapshot.Keys;
      order := [];
      while todo != {}
        invariant todo <= snapshot.Keys == inputs.Keys
        invariant forall p | p in todo :: inputs[p] == snapshot[p]
        invariant forall p | p in snapshot && p !in todo :: p in order
        invariant StoreOf(advertised, engine) == SuspendVanished(st, present, w, order)
      {
        var p :| p in todo;
        OneMoreVanished(st, present, w, order, p);
        LetGoOne(advertised, engine, present, w, p, snapshot[p]);
        order := order + [p];
        todo := todo - {p};
      }
      SuspendVanishedKeeps(st, present, w, order);
    }

    method LetGoOne(
      advertised: AdvertisedResources, engine: PolicyEngine, present: set<Path>, w: World, p: Path, held: HeldInput)
      requires p in inputs && inputs[p] == held
      modifies this, advertised, engine
      ensures StoreOf(advertised, engine) == LetGoAt(old(StoreOf(advertised, engine)), present, w, p)
      ensures inputs.Keys == old(inputs.Keys)
      ensures forall q | q in inputs && q != p :: inputs[q] == old(inputs)[q]
    {
      if !held.gone && p !in present && !DeviceExists(held, w) {
        Suspend(advertised, engine, p, held);
      }
    }
  }
}
