/** What visiting one device does to the inventory, in terms of what is at its node and
    what the file system answers: whether it is taken, under which name, what is lost. */
module Visits {
  import opened Types
  import opened Policies
  import opened Inventory
  import opened InventoryLaws
  import opened Replug
  import opened Repeats

  /** The sysfs device of the entry is behind the node, or exists somewhere. */
  ghost predicate StillThere(held: HeldInput, path: Path, w: World) {
    && held.device.Some?
    && ((path in w.sysfs && w.sysfs[path] == held.device.value) || held.device.value in w.devices)
  }

  /** The node's entry keeps its name: it is of the device's class, or live with its own
      device still there. */
  ghost predicate KeepsName(st: Store, probe: Probe, w: World) {
    var path := Node(probe.name);
    && path in st.inputs
    && (|| IsOfClass(st.inputs[path].resource, probe.kind)
        || (!st.inputs[path].gone && StillThere(st.inputs[path], path, w)))
  }

  /** The node's entry loses its device: it is live, its device is gone, and a device of
      another class has taken the node. */
  ghost predicate IsDisplaced(st: Store, probe: Probe, w: World) {
    var path := Node(probe.name);
    path in st.inputs && !Settled(st, path, w) && !st.inputs[path].gone && !KeepsName(st, probe, w)
  }

  /** The entry at `p` waits for a device of the class, and its node is gone. */
  ghost predicate Awaits(st: Store, kind: InputClass, w: World, p: Path) {
    p in st.inputs && st.inputs[p].gone && IsOfClass(st.inputs[p].resource, kind) && p !in w.inodes
  }

  ghost predicate IsAwaited(st: Store, probe: Probe, w: World) {
    Node(probe.name) !in st.inputs && exists p :: Awaits(st, probe.kind, w, p)
  }

  ghost predicate IsLowestAwaiting(st: Store, kind: InputClass, w: World, r: Resource) {
    && (exists p :: Awaits(st, kind, w, p) && st.inputs[p].resource == r)
    && r.Input?
    && forall p | Awaits(st, kind, w, p) :: r.input.index <= st.inputs[p].resource.input.index
  }

  // ---- The three ways

  lemma AwaitingIsPeer(st: Store, probe: Probe, w: World)
    ensures (exists p :: Awaits(st, probe.kind, w, p)) <==> SuspendedPeer(st.inputs, probe.kind, w).Some?
    ensures var peer := SuspendedPeer(st.inputs, probe.kind, w);
      peer.Some? ==> peer.value in st.inputs && IsLowestAwaiting(st, probe.kind, w, st.inputs[peer.value].resource)
  {
    if p :| Awaits(st, probe.kind, w, p) {
      assert IsPeer(st.inputs, probe.kind, w, p);
      LowestPeerExists(st.inputs, probe.kind, w, p);
    }
    var peer := SuspendedPeer(st.inputs, probe.kind, w);
    if peer.Some? {
      assert Awaits(st, probe.kind, w, peer.value);
      forall p | Awaits(st, probe.kind, w, p)
        ensures st.inputs[peer.value].resource.input.index <= st.inputs[p].resource.input.index
      {
        assert IsPeer(st.inputs, probe.kind, w, p);
      }
    }
  }

  lemma AwaitedWay(st: Store, policy: Policy, probe: Probe, w: World) returns (from: Path)
    requires IsAwaited(st, probe, w)
    ensures from in st.inputs && IsLowestAwaiting(st, probe.kind, w, st.inputs[from].resource)
    ensures ReconcileOne(st, policy, probe, w) == ResumeInput(st, from, Node(probe.name), st.inputs[from], w)
    ensures st.inputs[from].gone
  {
    AwaitingIsPeer(st, probe, w);
    from := SuspendedPeer(st.inputs, probe.kind, w).value;
  }

  /** The store a newcomer is adopted into: its node has been cleared. */
  ghost function Cleared(st: Store, path: Path): Store {
    if path !in st.inputs then st
    else if st.inputs[path].gone then Park(st, path)
    else Park(SuspendInput(st, path, st.inputs[path]), path)
  }

  lemma KeptWay(st: Store, policy: Policy, probe: Probe, w: World)
    requires KeepsName(st, probe, w) && !Settled(st, Node(probe.name), w)
    ensures var path := Node(probe.name);
      var held := st.inputs[path];
      ReconcileOne(st, policy, probe, w) ==
      if !held.gone && StillThere(held, path, w) then ReopenInput(st, path, held.resource, w)
      else ResumeInput(st, path, path, held, w)
  {
  }

  lemma NewcomerWay(st: Store, policy: Policy, probe: Probe, w: World)
    requires !KeepsName(st, probe, w) && !Settled(st, Node(probe.name), w) && !IsAwaited(st, probe, w)
    ensures var path := Node(probe.name);
      ReconcileOne(st, policy, probe, w) == AdoptInput(Cleared(st, path), policy, path, probe.kind, w)
  {
    AwaitingIsPeer(st, probe, w);
  }

  // ---- What the ways do

  /** The name that clearing a node suspends. */
  ghost function Dropped(st: Store, path: Path): set<Resource> {
    if path in st.inputs && !st.inputs[path].gone then {st.inputs[path].resource} else {}
  }

  lemma ClearedKeeps(st: Store, path: Path)
    requires Consistent(st) && path.Node?
    ensures var c, lost := Cleared(st, path), Dropped(st, path);
      && Consistent(c) && path !in c.inputs && Names(c.inputs) == Names(st.inputs)
      && GoneNames(c.inputs) == GoneNames(st.inputs) + lost && c.fds == st.fds - lost
  {
    assert st.fds - {} == st.fds;
    if path in st.inputs {
      if st.inputs[path].gone {
        ParkKeeps(st, path);
      } else {
        SuspendKeeps(st, path);
        UpdateNames(st.inputs, path, st.inputs[path].(gone := true));
        ParkKeeps(SuspendInput(st, path, st.inputs[path]), path);
      }
    }
  }

  lemma AdoptEffect(st: Store, policy: Policy, path: Path, kind: InputClass, w: World) returns (r: Resource)
    requires Consistent(st) && path.Node? && path !in st.inputs && AdoptInput(st, policy, path, kind, w).1
    ensures var st' := AdoptInput(st, policy, path, kind, w).0;
      && TakenAs(st', path, w, r) && GoneNames(st'.inputs) == GoneNames(st.inputs)
      && st'.fds == st.fds[r := w.opens[path].fd]
    ensures r !in Names(st.inputs) && exists i: Index :: IsLeastFree(st.inputs, kind, i) && r == NameOf(kind, i)
  {
    AdoptionIsLeast(st, policy, path, kind, w);
    var i: Index :| IsLeastFree(st.inputs, kind, i) &&
      AdoptInput(st, policy, path, kind, w).0.inputs[path] == Entry(NameOf(kind, i), w.opens[path]);
    r := NameOf(kind, i);
    assert r !in Names(st.inputs);
    UpdateNames(st.inputs, path, Entry(r, w.opens[path]));
    assert GoneNames(st.inputs) <= Names(st.inputs);
  }

  lemma ResumeEffect(st: Store, from: Path, path: Path, w: World)
    requires Consistent(st) && from in st.inputs && path.Node? && (path == from || path !in st.inputs)
    requires path in w.opens
    ensures var r, st' := st.inputs[from].resource, ResumeInput(st, from, path, st.inputs[from], w).0;
      && TakenAs(st', path, w, r) && GoneNames(st'.inputs) == GoneNames(st.inputs) - {r}
      && st'.fds == st.fds[r := w.opens[path].fd]
  {
    var r := st.inputs[from].resource;
    if path == from {
      UpdateNames(st.inputs, path, Entry(r, w.opens[path]));
    } else {
      var left := st.inputs - {from};
      assert forall p | p in left :: left[p] == st.inputs[p];
      RemoveNames(st.inputs, from);
      UpdateNames(left, path, Entry(r, w.opens[path]));
    }
  }

  lemma ReopenEffect(st: Store, path: Path, w: World)
    requires Consistent(st) && path in st.inputs && !st.inputs[path].gone && path in w.opens
    ensures var r := st.inputs[path].resource;
      var st' := ReopenInput(st, path, r, w).0;
      && TakenAs(st', path, w, r) && GoneNames(st'.inputs) == GoneNames(st.inputs)
      && st'.fds == st.fds[r := w.opens[path].fd]
  {
    var r := st.inputs[path].resource;
    UpdateNames(st.inputs, path, Entry(r, w.opens[path]));
    LiveNameIsNotSuspended(st, path);
  }

  // ---- Whether it is taken

  /** A device is taken exactly if its node is as it was, or it opens and there is a name
      for it: the one of the node's entry, one that awaits such a device, or a free one. */
  lemma TakenIff(st: Store, policy: Policy, probe: Probe, w: World)
    requires Consistent(st)
    ensures ReconcileOne(st, policy, probe, w).1 <==>
      || Settled(st, Node(probe.name), w)
      || (&& Node(probe.name) in w.opens
          && (KeepsName(st, probe, w) || IsAwaited(st, probe, w) || !Full(st.inputs, probe.kind)))
  {
    var path := Node(probe.name);
    if Settled(st, path, w) {
      assert ReconcileOne(st, policy, probe, w) == (st, true);
    } else if KeepsName(st, probe, w) {
      KeptWay(st, policy, probe, w);
    } else if IsAwaited(st, probe, w) {
      var from := AwaitedWay(st, policy, probe, w);
    } else {
      NewcomerWay(st, policy, probe, w);
      ClearedKeeps(st, path);
      FullHasNoFreeIndex(Cleared(st, path).inputs, probe.kind);
    }
  }

  ghost predicate IsTakenInTurn(st: Store, policy: Policy, probes: seq<Probe>, worlds: seq<World>, i: nat)
    requires i < |probes| == |worlds|
  {
    ReconcileOne(ReconcileAll(st, policy, probes[..i], worlds[..i]).0, policy, probes[i], worlds[i]).1
  }

  lemma RetryStep(st: Store, policy: Policy, probes: seq<Probe>, worlds: seq<World>, n: nat)
    requires n < |probes| == |worlds|
    ensures ReconcileAll(st, policy, probes[..n + 1], worlds[..n + 1]).1 ==
      (ReconcileAll(st, policy, probes[..n], worlds[..n]).1 || !IsTakenInTurn(st, policy, probes, worlds, n))
  {
    assert probes[..n + 1][..n] == probes[..n] && worlds[..n + 1][..n] == worlds[..n];
  }

  lemma {:induction false} SomeFailed(retries: seq<bool>, taken: seq<bool>, n: nat)
    requires |retries| == |taken| + 1 && n <= |taken| && !retries[0]
    requires forall k | 0 <= k < |taken| :: retries[k + 1] == (retries[k] || !taken[k])
    ensures retries[n] <==> exists i | 0 <= i < n :: !taken[i]
  {
    if n > 0 {
      var k := n - 1;
      SomeFailed(retries, taken, k);
      assert retries[k + 1] == (retries[k] || !taken[k]);
    }
  }

  /** A pass asks for a retry exactly if some device could not be taken in its turn, each
      device being visited after all those found before it. */
  lemma RetryIff(st: Store, policy: Policy, probes: seq<Probe>, worlds: seq<World>)
    requires |worlds| == |probes|
    ensures ReconcileAll(st, policy, probes, worlds).1 <==>
      exists i: nat | i < |probes| :: !IsTakenInTurn(st, policy, probes, worlds, i)
  {
    var n := |probes|;
    var retries := seq(n + 1, k requires 0 <= k <= n => ReconcileAll(st, policy, probes[..k], worlds[..k]).1);
    var taken := seq(n, i requires 0 <= i < n => IsTakenInTurn(st, policy, probes, worlds, i));
    forall k | 0 <= k < n ensures retries[k + 1] == (retries[k] || !taken[k]) {
      RetryStep(st, policy, probes, worlds, k);
    }
    SomeFailed(retries, taken, n);
    assert probes[..n] == probes && worlds[..n] == worlds;
    assert retries[n] == ReconcileAll(st, policy, probes, worlds).1;
    assert (exists i | 0 <= i < n :: !taken[i]) <==>
      exists i: nat | i < n :: !IsTakenInTurn(st, policy, probes, worlds, i) by {
      forall i: nat | i < n ensures taken[i] == IsTakenInTurn(st, policy, probes, worlds, i) {
      }
    }
  }

  // ---- Under which name

  /** The name a visit takes a device under, and the name alone. */
  ghost predicate IsRightName(st: Store, probe: Probe, w: World, r: Resource) {
    if KeepsName(st, probe, w) then r == st.inputs[Node(probe.name)].resource
    else if IsAwaited(st, probe, w) then IsLowestAwaiting(st, probe.kind, w, r)
    else exists i: Index :: IsLeastFree(st.inputs, probe.kind, i) && r == NameOf(probe.kind, i)
  }

  /** What a visit that takes a device leaves: the device under the right name, which is
      live; the entry that lost its device is gone; every other name is as it was, and so
      is every other fd. */
  ghost predicate IsTaken(st: Store, st': Store, probe: Probe, w: World, r: Resource) {
    var path := Node(probe.name);
    var lost := if IsDisplaced(st, probe, w) then {st.inputs[path].resource} else {};
    && IsRightName(st, probe, w, r) && TakenAs(st', path, w, r)
    && GoneNames(st'.inputs) == GoneNames(st.inputs) - {r} + lost
    && st'.fds == (st.fds - lost)[r := w.opens[path].fd]
  }

  lemma KeptTakes(st: Store, policy: Policy, probe: Probe, w: World)
    requires Consistent(st) && KeepsName(st, probe, w) && !Settled(st, Node(probe.name), w)
    requires ReconcileOne(st, policy, probe, w).1
    ensures IsTaken(st, ReconcileOne(st, policy, probe, w).0, probe, w, st.inputs[Node(probe.name)].resource)
  {
    var path := Node(probe.name);
    KeptWay(st, policy, probe, w);
    assert st.fds - {} == st.fds;
    if !st.inputs[path].gone && StillThere(st.inputs[path], path, w) {
      ReopenEffect(st, path, w);
      LiveNameIsNotSuspended(st, path);
    } else {
      ResumeEffect(st, path, path, w);
    }
  }

  lemma AwaitedTakes(st: Store, policy: Policy, probe: Probe, w: World) returns (r: Resource)
    requires Consistent(st) && IsAwaited(st, probe, w) && ReconcileOne(st, policy, probe, w).1
    ensures IsTaken(st, ReconcileOne(st, policy, probe, w).0, probe, w, r)
  {
    var from := AwaitedWay(st, policy, probe, w);
    r := st.inputs[from].resource;
    assert st.fds - {} == st.fds;
    ResumeEffect(st, from, Node(probe.name), w);
  }

  lemma LeastFreeByNames(a: map<Path, HeldInput>, b: map<Path, HeldInput>, kind: InputClass, i: Index)
    requires Names(a) == Names(b) && IsLeastFree(a, kind, i)
    ensures IsLeastFree(b, kind, i)
  {
  }

  lemma AdoptOnto(
    st: Store, cleared: Store, policy: Policy, path: Path, kind: InputClass, w: World, lost: set<Resource>)
    returns (r: Resource)
    requires Consistent(cleared) && path.Node? && path !in cleared.inputs
    requires Names(cleared.inputs) == Names(st.inputs) && AdoptInput(cleared, policy, path, kind, w).1
    requires GoneNames(cleared.inputs) == GoneNames(st.inputs) + lost && cleared.fds == st.fds - lost
    ensures var st' := AdoptInput(cleared, policy, path, kind, w).0;
      && TakenAs(st', path, w, r) && GoneNames(st'.inputs) == GoneNames(st.inputs) - {r} + lost
      && st'.fds == (st.fds - lost)[r := w.opens[path].fd]
    ensures exists i: Index :: IsLeastFree(st.inputs, kind, i) && r == NameOf(kind, i)
  {
    r := AdoptEffect(cleared, policy, path, kind, w);
    var i: Index :| IsLeastFree(cleared.inputs, kind, i) && r == NameOf(kind, i);
    LeastFreeByNames(cleared.inputs, st.inputs, kind, i);
    assert GoneNames(st.inputs) <= Names(st.inputs);
  }

  lemma NewcomerTakes(st: Store, policy: Policy, probe: Probe, w: World) returns (r: Resource)
    requires Consistent(st) && !KeepsName(st, probe, w) && !IsAwaited(st, probe, w)
    requires !Settled(st, Node(probe.name), w) && ReconcileOne(st, policy, probe, w).1
    ensures IsTaken(st, ReconcileOne(st, policy, probe, w).0, probe, w, r)
  {
    var path := Node(probe.name);
    NewcomerWay(st, policy, probe, w);
    ClearedKeeps(st, path);
    r := AdoptOnto(st, Cleared(st, path), policy, path, probe.kind, w, Dropped(st, path));
  }

  /** A visit that takes a device whose node has changed does so under the one right name:
      that of the node's entry if this is of the class or its own device is still there,
      else the lowest name that awaits such a device, else the least free one. The fd
      under that name is the one just opened, and nothing else is lost but the entry of
      another class that a device has displaced. */
  lemma TakenUnderTheRightName(st: Store, policy: Policy, probe: Probe, w: World) returns (r: Resource)
    requires Consistent(st) && ReconcileOne(st, policy, probe, w).1 && !Settled(st, Node(probe.name), w)
    ensures IsTaken(st, ReconcileOne(st, policy, probe, w).0, probe, w, r)
  {
    if KeepsName(st, probe, w) {
      r := st.inputs[Node(probe.name)].resource;
      KeptTakes(st, policy, probe, w);
    } else if IsAwaited(st, probe, w) {
      r := AwaitedTakes(st, policy, probe, w);
    } else {
      r := NewcomerTakes(st, policy, probe, w);
    }
  }

  /** A device replaced by one of its own class, seen or not seen in between: its holder
      keeps the name, the name is live, and no live name is lost. */
  lemma ReplacedKeepsName(st: Store, policy: Policy, probe: Probe, w: World)
    requires Consistent(st) && ReconcileOne(st, policy, probe, w).1 && !Settled(st, Node(probe.name), w)
    requires Node(probe.name) in st.inputs && IsOfClass(st.inputs[Node(probe.name)].resource, probe.kind)
    ensures var st', path := ReconcileOne(st, policy, probe, w).0, Node(probe.name);
      TakenAs(st', path, w, st.inputs[path].resource) && GoneNames(st'.inputs) <= GoneNames(st.inputs)
  {
    KeptTakes(st, policy, probe, w);
  }

  // ---- What a visit that takes nothing leaves

  /** A visit that cannot take its device changes nothing, except that an entry of another
      class without its device makes room on the node, live or not. */
  lemma NotTakenLeaves(st: Store, policy: Policy, probe: Probe, w: World)
    requires Consistent(st) && !ReconcileOne(st, policy, probe, w).1
    ensures var st', path := ReconcileOne(st, policy, probe, w).0, Node(probe.name);
      var lost := if IsDisplaced(st, probe, w) then {st.inputs[path].resource} else {};
      && (path in st'.inputs <==> KeepsName(st, probe, w))
      && (path !in st.inputs || KeepsName(st, probe, w) ==> st' == st)
      && GoneNames(st'.inputs) == GoneNames(st.inputs) + lost && st'.fds == st.fds - lost
      && Names(st'.inputs) == Names(st.inputs)
  {
    var path := Node(probe.name);
    assert st.fds - {} == st.fds;
    if KeepsName(st, probe, w) {
      KeptWay(st, policy, probe, w);
    } else if IsAwaited(st, probe, w) {
      var from := AwaitedWay(st, policy, probe, w);
    } else {
      NewcomerWay(st, policy, probe, w);
      ClearedKeeps(st, path);
    }
  }

  // ---- A node that is re-created

  /** A node re-created for a device that is still there is re-opened in silence: the
      same name, no message, no change to the list or to any other entry. */
  lemma ReopenIsSilent(st: Store, policy: Policy, probe: Probe, w: World)
    requires var path := Node(probe.name);
      path in st.inputs && !st.inputs[path].gone && !Settled(st, path, w) && StillThere(st.inputs[path], path, w)
    ensures var st' := ReconcileOne(st, policy, probe, w).0;
      && st'.mail == st.mail && st'.advertised == st.advertised
      && forall p | p != Node(probe.name) :: EntryAt(st', p) == EntryAt(st, p)
  {
    KeptWay(st, policy, probe, w);
  }

  /** In particular when the visit before took the device: its identity is remembered. */
  lemma RecreatedNodeKeepsName(st: Store, policy: Policy, probe: Probe, w: World, w': World)
    returns (r: Resource)
    requires Consistent(st) && ReconcileOne(st, policy, probe, w).1 && !Settled(st, Node(probe.name), w)
    requires var path, after := Node(probe.name), ReconcileOne(st, policy, probe, w).0;
      && path in w.opens && w.opens[path].device.Some? && path in w'.opens && !Settled(after, path, w')
      && path in w'.sysfs && w'.sysfs[path] == w.opens[path].device.value
    ensures var after := ReconcileOne(st, policy, probe, w).0;
      var again := ReconcileOne(after, policy, probe, w').0;
      && TakenAs(after, Node(probe.name), w, r) && TakenAs(again, Node(probe.name), w', r)
      && again.mail == after.mail && again.advertised == after.advertised
  {
    var path, after := Node(probe.name), ReconcileOne(st, policy, probe, w).0;
    r := TakenUnderTheRightName(st, policy, probe, w);
    ReconcileOneKeeps(st, policy, probe, w);
    KeptWay(after, policy, probe, w');
    ReopenEffect(after, path, w');
  }

  // ---- Devices that are gone

  /** A pass suspends, of the entries its visits leave, exactly the live ones whose node
      was not probed and whose sysfs device does not exist. */
  lemma PassSuspendsIff(
    st: Store, policy: Policy, probes: seq<Probe>, worlds: seq<World>, order: seq<Path>, last: World, p: Path)
    requires |worlds| == |probes|
    requires var swept := ReconcileAll(st, policy, probes, worlds).0;
      p in swept.inputs && Covers(order, swept.inputs)
    ensures var swept := ReconcileAll(st, policy, probes, worlds).0;
      var st' := Pass(st, policy, probes, worlds, order, last).0;
      && p in st'.inputs && st'.inputs[p] == swept.inputs[p].(gone := st'.inputs[p].gone)
      && (st'.inputs[p].gone <==>
            || swept.inputs[p].gone
            || (&& (forall i | 0 <= i < |probes| :: p != Node(probes[i].name))
                && (swept.inputs[p].device.None? || swept.inputs[p].device.value !in last.devices)))
  {
    VanishedOnce(ReconcileAll(st, policy, probes, worlds).0, Present(probes), last, order);
    assert p in Present(probes) <==> exists i :: 0 <= i < |probes| && p == Node(probes[i].name);
  }
}
