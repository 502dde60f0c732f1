/** What one pass settles, that a second pass over the same devices changes nothing,
    and how names follow devices that come back. */
module Replug {
  import opened Types
  import opened Policies
  import Machine
  import opened Inventory
  import opened InventoryLaws

  /** The file system holds still for the pass: what opens at a path is the inode at
      that path (checked by every open), and every probed node exists. */
  ghost predicate Frozen(w: World) {
    forall p | p in w.opens :: p in w.inodes && w.opens[p].inode == w.inodes[p]
  }

  ghost predicate Probed(probes: seq<Probe>, w: World) {
    && (forall i | 0 <= i < |probes| :: Node(probes[i].name) in w.inodes)
    && (forall i, j | 0 <= i < j < |probes| :: probes[i].name != probes[j].name)
  }

  function Still(w: World, n: nat): (worlds: seq<World>)
    ensures |worlds| == n && forall i | 0 <= i < n :: worlds[i] == w
  {
    seq(n, i => w)
  }

  function EntryAt(st: Store, p: Path): Option<HeldInput> {
    if p in st.inputs then Some(st.inputs[p]) else None
  }

  /** The index entry of a node is the node as it is now. */
  predicate Settled(st: Store, p: Path, w: World) {
    p in st.inputs && p in w.inodes && w.inodes[p] == st.inputs[p].inode
  }

  /** An entry that a visit of its device leaves alone, whatever else is in the store:
      settled, or impossible to open now. */
  predicate Quiet(e: Option<HeldInput>, probe: Probe, w: World) {
    var path := Node(probe.name);
    match e
    case None => path !in w.opens
    case Some(h) =>
      || (path in w.inodes && w.inodes[path] == h.inode)
      || (path !in w.opens && (MayResume(h, probe.kind) || (!h.gone && (SameDevice(path, h, w) || DeviceExists(h, w)))))
  }

  lemma QuietIsLeftAlone(st: Store, policy: Policy, probe: Probe, w: World)
    requires Quiet(EntryAt(st, Node(probe.name)), probe, w)
    ensures ReconcileOne(st, policy, probe, w) == (st, Settled(st, Node(probe.name), w))
  {
  }

  /** A visit that takes the device settles its node. */
  lemma TakenIsSettled(st: Store, policy: Policy, probe: Probe, w: World)
    requires Frozen(w) && ReconcileOne(st, policy, probe, w).1
    ensures Settled(ReconcileOne(st, policy, probe, w).0, Node(probe.name), w)
  {
  }

  /** A visit of a device that will not open leaves an entry that stays put. */
  lemma UnopenedIsQuiet(st: Store, policy: Policy, probe: Probe, w: World)
    requires Node(probe.name) !in w.opens
    ensures Quiet(EntryAt(ReconcileOne(st, policy, probe, w).0, Node(probe.name)), probe, w)
  {
  }

  lemma AdoptTouches(st: Store, policy: Policy, path: Path, kind: InputClass, w: World, p: Path)
    requires p != path
    ensures EntryAt(AdoptInput(st, policy, path, kind, w).0, p) == EntryAt(st, p)
  {
  }

  lemma ResumeTouches(st: Store, from: Path, path: Path, held: HeldInput, w: World, p: Path)
    requires p != path && p != from
    ensures EntryAt(ResumeInput(st, from, path, held, w).0, p) == EntryAt(st, p)
  {
  }

  lemma ParkTouches(st: Store, path: Path, p: Path)
    requires p.Node? && p != path
    ensures EntryAt(Park(st, path), p) == EntryAt(st, p)
  {
  }

  /** A visit touches no other node that exists. */
  lemma OthersUntouched(st: Store, policy: Policy, probe: Probe, w: World, p: Path)
    requires p.Node? && p in w.inodes && p != Node(probe.name)
    ensures EntryAt(ReconcileOne(st, policy, probe, w).0, p) == EntryAt(st, p)
  {
    var path, kind := Node(probe.name), probe.kind;
    if path !in st.inputs {
      match SuspendedPeer(st.inputs, kind, w)
      case Some(from) => ResumeTouches(st, from, path, st.inputs[from], w, p);
      case None => AdoptTouches(st, policy, path, kind, w, p);
    } else if path in w.inodes && w.inodes[path] == st.inputs[path].inode {
      assert ReconcileOne(st, policy, probe, w).0 == st;
    } else if MayResume(st.inputs[path], kind) && (st.inputs[path].gone || !KeepsNode(st, path, w)) {
      ResumeTouches(st, path, path, st.inputs[path], w, p);
    } else if st.inputs[path].gone {
      ParkTouches(st, path, p);
      AdoptTouches(Park(st, path), policy, path, kind, w, p);
    } else if !KeepsNode(st, path, w) {
      var suspended := SuspendInput(st, path, st.inputs[path]);
      assert EntryAt(suspended, p) == EntryAt(st, p);
      ParkTouches(suspended, path, p);
      AdoptTouches(Park(suspended, path), policy, path, kind, w, p);
    }
  }

  // ---- The first loop

  ghost predicate AllSettled(st: Store, probes: seq<Probe>, w: World) {
    forall i | 0 <= i < |probes| :: Settled(st, Node(probes[i].name), w)
  }

  /** Whatever could be opened has been taken. */
  ghost predicate OpenableSettled(st: Store, probes: seq<Probe>, w: World) {
    forall i | 0 <= i < |probes| && Node(probes[i].name) in w.opens :: Settled(st, Node(probes[i].name), w)
  }

  ghost predicate AllQuiet(st: Store, probes: seq<Probe>, w: World) {
    forall i | 0 <= i < |probes| :: Quiet(EntryAt(st, Node(probes[i].name)), probes[i], w)
  }

  ghost function Loop(st: Store, policy: Policy, probes: seq<Probe>, w: World): (Store, bool) {
    ReconcileAll(st, policy, probes, Still(w, |probes|))
  }

  lemma LoopUnfolds(st: Store, policy: Policy, probes: seq<Probe>, w: World)
    requires probes != []
    ensures var n := |probes| - 1;
      var before := Loop(st, policy, probes[..n], w);
      var last := ReconcileOne(before.0, policy, probes[n], w);
      Loop(st, policy, probes, w) == (last.0, before.1 || !last.1)
  {
    var n := |probes| - 1;
    assert Still(w, |probes|)[..n] == Still(w, n);
  }

  lemma ProbedPrefix(probes: seq<Probe>, w: World, n: nat)
    requires Probed(probes, w) && n <= |probes|
    ensures Probed(probes[..n], w)
  {
  }

  lemma {:induction false} LoopQuiet(st: Store, policy: Policy, probes: seq<Probe>, w: World)
    requires Probed(probes, w) && OpenableSettled(Loop(st, policy, probes, w).0, probes, w)
    ensures AllQuiet(Loop(st, policy, probes, w).0, probes, w)
  {
    if probes != [] {
      var n := |probes| - 1;
      var before, after := Loop(st, policy, probes[..n], w).0, Loop(st, policy, probes, w).0;
      LoopUnfolds(st, policy, probes, w);
      ProbedPrefix(probes, w, n);
      forall i | 0 <= i < n ensures EntryAt(after, Node(probes[i].name)) == EntryAt(before, Node(probes[i].name)) {
        OthersUntouched(before, policy, probes[n], w, Node(probes[i].name));
      }
      forall i | 0 <= i < n && Node(probes[..n][i].name) in w.opens
        ensures Settled(before, Node(probes[..n][i].name), w)
      {
        assert Settled(after, Node(probes[i].name), w);
      }
      LoopQuiet(st, policy, probes[..n], w);
      if Node(probes[n].name) !in w.opens {
        UnopenedIsQuiet(before, policy, probes[n], w);
      }
      forall i | 0 <= i < |probes| ensures Quiet(EntryAt(after, Node(probes[i].name)), probes[i], w) {
        if i < n {
          assert Quiet(EntryAt(before, Node(probes[..n][i].name)), probes[..n][i], w);
        }
      }
    }
  }

  lemma {:induction false} NoRetrySettles(st: Store, policy: Policy, probes: seq<Probe>, w: World)
    requires Frozen(w) && Probed(probes, w) && !Loop(st, policy, probes, w).1
    ensures AllSettled(Loop(st, policy, probes, w).0, probes, w)
  {
    if probes != [] {
      var n := |probes| - 1;
      var before, after := Loop(st, policy, probes[..n], w).0, Loop(st, policy, probes, w).0;
      LoopUnfolds(st, policy, probes, w);
      ProbedPrefix(probes, w, n);
      NoRetrySettles(st, policy, probes[..n], w);
      TakenIsSettled(before, policy, probes[n], w);
      forall i | 0 <= i < |probes| ensures Settled(after, Node(probes[i].name), w) {
        if i < n {
          assert Settled(before, Node(probes[..n][i].name), w);
          OthersUntouched(before, policy, probes[n], w, Node(probes[i].name));
        }
      }
    }
  }

  lemma {:induction false} QuietLoop(st: Store, policy: Policy, probes: seq<Probe>, w: World)
    requires AllQuiet(st, probes, w)
    ensures Loop(st, policy, probes, w) == (st, !AllSettled(st, probes, w))
  {
    if probes != [] {
      var n := |probes| - 1;
      forall i | 0 <= i < n ensures Quiet(EntryAt(st, Node(probes[..n][i].name)), probes[..n][i], w) {
        assert Quiet(EntryAt(st, Node(probes[i].name)), probes[i], w);
      }
      QuietLoop(st, policy, probes[..n], w);
      LoopUnfolds(st, policy, probes, w);
      QuietIsLeftAlone(st, policy, probes[n], w);
      assert AllSettled(st, probes, w) <==> AllSettled(st, probes[..n], w) && Settled(st, Node(probes[n].name), w) by {
        if AllSettled(st, probes[..n], w) && Settled(st, Node(probes[n].name), w) {
          forall i | 0 <= i < |probes| ensures Settled(st, Node(probes[i].name), w) {
            if i < n {
              assert Settled(st, Node(probes[..n][i].name), w);
            }
          }
        }
      }
    }
  }

  // ---- The second loop

  lemma {:induction false} VanishedOnce(st: Store, present: set<Path>, w: World, order: seq<Path>)
    ensures var after := SuspendVanished(st, present, w, order);
      && after.inputs.Keys == st.inputs.Keys
      && (forall p | p in st.inputs ::
            after.inputs[p] ==
            if Vanished(st, present, w, p) && p in order then st.inputs[p].(gone := true) else st.inputs[p])
  {
    if order != [] {
      var n := |order| - 1;
      VanishedOnce(st, present, w, order[..n]);
      assert order == order[..n] + [order[n]];
    }
  }

  lemma {:induction false} NothingVanished(st: Store, present: set<Path>, w: World, order: seq<Path>)
    requires forall p | p in st.inputs :: !Vanished(st, present, w, p)
    ensures SuspendVanished(st, present, w, order) == st
  {
    if order != [] {
      NothingVanished(st, present, w, order[..|order| - 1]);
    }
  }

  // ---- Idempotence

  ghost predicate Covers(order: seq<Path>, inputs: map<Path, HeldInput>) {
    forall p | p in inputs :: p in order
  }

  ghost function StillPass(st: Store, policy: Policy, probes: seq<Probe>, w: World, order: seq<Path>): (Store, bool) {
    Pass(st, policy, probes, Still(w, |probes|), order, w)
  }

  lemma PresentEntriesKept(st: Store, probes: seq<Probe>, w: World, order: seq<Path>, i: nat)
    requires i < |probes|
    ensures EntryAt(SuspendVanished(st, Present(probes), w, order), Node(probes[i].name)) ==
      EntryAt(st, Node(probes[i].name))
  {
    VanishedOnce(st, Present(probes), w, order);
    assert Node(probes[i].name) in Present(probes);
  }

  /** A pass is idempotent. If the devices hold still and everything that could be
      opened was taken, a second pass, iterating in any order, changes nothing in the
      fd table, the index or the advertised list, sends no mail, and asks for a retry
      exactly if some device could not be opened. */
  lemma PassIdempotent(st: Store, policy: Policy, probes: seq<Probe>, w: World, order: seq<Path>, order': seq<Path>)
    requires Probed(probes, w) && Covers(order, Loop(st, policy, probes, w).0.inputs)
    requires OpenableSettled(StillPass(st, policy, probes, w, order).0, probes, w)
    ensures var st' := StillPass(st, policy, probes, w, order).0;
      StillPass(st', policy, probes, w, order') == (st', !AllSettled(st', probes, w))
  {
    var swept := Loop(st, policy, probes, w).0;
    var st' := StillPass(st, policy, probes, w, order).0;
    forall i | 0 <= i < |probes| ensures EntryAt(st', Node(probes[i].name)) == EntryAt(swept, Node(probes[i].name)) {
      PresentEntriesKept(swept, probes, w, order, i);
    }
    forall i | 0 <= i < |probes| && Node(probes[i].name) in w.opens ensures Settled(swept, Node(probes[i].name), w) {
      assert Settled(st', Node(probes[i].name), w);
    }
    LoopQuiet(st, policy, probes, w);
    forall i | 0 <= i < |probes| ensures Quiet(EntryAt(st', Node(probes[i].name)), probes[i], w) {
      assert Quiet(EntryAt(swept, Node(probes[i].name)), probes[i], w);
    }
    QuietLoop(st', policy, probes, w);
    VanishedOnce(swept, Present(probes), w, order);
    NothingVanished(st', Present(probes), w, order');
  }

  /** In particular after a pass that asks for no retry: the second pass does nothing
      at all, and asks for none either. */
  lemma QuietAfterNoRetry(st: Store, policy: Policy, probes: seq<Probe>, w: World, order: seq<Path>, order': seq<Path>)
    requires Frozen(w) && Probed(probes, w) && Covers(order, Loop(st, policy, probes, w).0.inputs)
    requires !StillPass(st, policy, probes, w, order).1
    ensures var st' := StillPass(st, policy, probes, w, order).0;
      AllSettled(st', probes, w) && StillPass(st', policy, probes, w, order') == (st', false)
  {
    var swept := Loop(st, policy, probes, w).0;
    var st' := StillPass(st, policy, probes, w, order).0;
    NoRetrySettles(st, policy, probes, w);
    forall i | 0 <= i < |probes| ensures Settled(st', Node(probes[i].name), w) {
      assert Settled(swept, Node(probes[i].name), w);
      PresentEntriesKept(swept, probes, w, order, i);
    }
    PassIdempotent(st, policy, probes, w, order, order');
  }

  // ---- Names and classes

  /** Adoption gives a device the least name of its class that nobody holds. It fails
      only if the node will not open or all 256 names of the class are held. */
  lemma AdoptionIsLeast(st: Store, policy: Policy, path: Path, kind: InputClass, w: World)
    ensures var (st', taken) := AdoptInput(st, policy, path, kind, w);
      if taken then
        && path in w.opens && path in st'.inputs
        && (exists i: Index ::
              IsLeastFree(st.inputs, kind, i) && st'.inputs[path] == Entry(NameOf(kind, i), w.opens[path]))
      else
        st' == st && (path !in w.opens || forall i: Index :: NameOf(kind, i) in Names(st.inputs))
  {
    var i := FreeIndex(st.inputs, kind);
    if i.None? {
      forall j: Index ensures NameOf(kind, j) in Names(st.inputs) {
        assert !IsFree(st.inputs, kind, j);
      }
    } else {
      forall j: Index | j < i.value ensures NameOf(kind, j) in Names(st.inputs) {
        assert !IsFree(st.inputs, kind, j);
      }
      assert IsLeastFree(st.inputs, kind, i.value);
    }
  }

  ghost predicate IsLeastFree(inputs: map<Path, HeldInput>, kind: InputClass, i: Index) {
    && NameOf(kind, i) !in Names(inputs)
    && forall j: Index | j < i :: NameOf(kind, j) in Names(inputs)
  }

  /** The node is taken by a device of another class while the device the entry was
      opened for still exists: the one case where no class is compared. */
  predicate ReopenedAcrossClasses(st: Store, probe: Probe, w: World) {
    var path := Node(probe.name);
    path in st.inputs && !st.inputs[path].gone && KeepsNode(st, path, w) && !MayResume(st.inputs[path], probe.kind)
  }

  /** The device at a node is registered as resource `r`, live, with the fd just opened. */
  ghost predicate TakenAs(st: Store, path: Path, w: World, r: Resource) {
    && path in w.opens && path in st.inputs
    && st.inputs[path] == HeldInput(r, w.opens[path].inode, w.opens[path].device, false)
    && r in st.fds && st.fds[r] == w.opens[path].fd
  }

  lemma AdoptTakes(st: Store, policy: Policy, path: Path, kind: InputClass, w: World) returns (r: Resource)
    requires AdoptInput(st, policy, path, kind, w).1
    ensures TakenAs(AdoptInput(st, policy, path, kind, w).0, path, w, r) && IsOfClass(r, kind)
    ensures r !in Names(st.inputs)
  {
    r := NameOf(kind, FreeIndex(st.inputs, kind).value);
  }

  lemma ResumeTakes(st: Store, from: Path, path: Path, held: HeldInput, w: World)
    requires ResumeInput(st, from, path, held, w).1
    ensures TakenAs(ResumeInput(st, from, path, held, w).0, path, w, held.resource)
  {
  }

  /** A visit that takes a device registers the fd just opened under one name, live; and
      that name is of the device's class exactly unless the entry was re-opened across
      classes. */
  lemma TakenUnderItsClassIff(st: Store, policy: Policy, probe: Probe, w: World) returns (r: Resource)
    requires ReconcileOne(st, policy, probe, w).1 && !Settled(st, Node(probe.name), w)
    ensures TakenAs(ReconcileOne(st, policy, probe, w).0, Node(probe.name), w, r)
    ensures IsOfClass(r, probe.kind) <==> !ReopenedAcrossClasses(st, probe, w)
  {
    var path, kind := Node(probe.name), probe.kind;
    if path !in st.inputs {
      match SuspendedPeer(st.inputs, kind, w) {
        case Some(from) =>
          r := st.inputs[from].resource;
          ResumeTakes(st, from, path, st.inputs[from], w);
        case None =>
          r := AdoptTakes(st, policy, path, kind, w);
      }
    } else if MayResume(st.inputs[path], kind) && (st.inputs[path].gone || !KeepsNode(st, path, w)) {
      r := st.inputs[path].resource;
      ResumeTakes(st, path, path, st.inputs[path], w);
    } else if st.inputs[path].gone {
      r := AdoptTakes(Park(st, path), policy, path, kind, w);
    } else if KeepsNode(st, path, w) {
      r := st.inputs[path].resource;
      assert ReconcileOne(st, policy, probe, w) == ReopenInput(st, path, r, w);
    } else {
      r := AdoptTakes(Park(SuspendInput(st, path, st.inputs[path]), path), policy, path, kind, w);
    }
  }

  /** A keyboard's node re-appears as a mouse while the keyboard is still in sysfs: the
      keyboard's name now grants the mouse. */
  lemma KeyboardNameOnAMouse()
    ensures var path, k := Node("event3"), Input(Keyboard(0));
      var held := HeldInput(k, Inode(1, 1), Some("input3"), false);
      var w := World(map[path := Inode(1, 2)], map[path := "input9"], {"input3", "input9"},
                     map[path := Opened(7, Inode(1, 2), Some("input9"))]);
      var st := Store(map[k := 5], map[path := held], [k], []);
      var st' := ReconcileOne(st, FairQueue, Probe("event3", MouseClass), w).0;
      && Consistent(st) && Frozen(w)
      && st'.inputs[path].resource == k && st'.fds[k] == 7
      && !IsOfClass(k, MouseClass)
  {
    var path, k := Node("event3"), Input(Keyboard(0));
    var st := Store(map[k := 5], map[path := HeldInput(k, Inode(1, 1), Some("input3"), false)], [k], []);
    NamesHas(st.inputs, path);
  }

  /** A device that is back at the node of its suspended resource, of its class, and
      opens: the resource is live again exactly if the node is a new inode. A node
      that kept its inode is passed over and stays suspended. */
  lemma ReturnResumesIff(st: Store, policy: Policy, probe: Probe, w: World)
    requires var path := Node(probe.name);
      path in st.inputs && st.inputs[path].gone && MayResume(st.inputs[path], probe.kind) && path in w.opens
    ensures var path, st' := Node(probe.name), ReconcileOne(st, policy, probe, w).0;
      && path in st'.inputs && st'.inputs[path].resource == st.inputs[path].resource
      && (!st'.inputs[path].gone <==> !Settled(st, path, w))
  {
  }

  /** A mouse without a sysfs identity, before and after one pass that did not see it. */
  function Mouse3(gone: bool): Store {
    var m := Input(Mouse(0));
    var inputs := map[Node("event3") := HeldInput(m, Inode(1, 1), None, gone)];
    if gone then Store(map[], inputs, [], [Command(Machine.Suspend(m)), Advertise([])])
    else Store(map[m := 5], inputs, [m], [])
  }

  const MOUSE_BACK := World(
    map[Node("event3") := Inode(1, 1)], map[], {}, map[Node("event3") := Opened(7, Inode(1, 1), None)])

  lemma MouseSuspended()
    ensures SuspendInput(Mouse3(false), Node("event3"), Mouse3(false).inputs[Node("event3")]) == Mouse3(true)
  {
    var m := Input(Mouse(0));
    assert Unlisted([m], m) == [];
    assert map[m := 5] - {m} == map[];
  }

  lemma MouseIsConsistent()
    ensures Consistent(Mouse3(false))
  {
    NamesHas(Mouse3(false).inputs, Node("event3"));
  }

  lemma MissedOnce()
    ensures Pass(Mouse3(false), FairQueue, [], [], [Node("event3")], MOUSE_BACK) == (Mouse3(true), false)
  {
    var p, st := Node("event3"), Mouse3(false);
    assert [p][..0] == [];
    assert SuspendVanished(st, {}, MOUSE_BACK, []) == st;
    assert Vanished(st, {}, MOUSE_BACK, p);
    assert Present([]) == {};
    MouseSuspended();
  }

  /** A mouse whose node is missed by one pass is suspended. The node is there again in
      the next pass, unchanged, of its class, and would open: no pass, in whatever order,
      takes it back, and none asks for a retry. */
  lemma MouseIsForgotten(order: seq<Path>)
    ensures var st := Pass(Mouse3(false), FairQueue, [], [], [Node("event3")], MOUSE_BACK).0;
      && Consistent(Mouse3(false)) && st.inputs[Node("event3")].gone
      && StillPass(st, FairQueue, [Probe("event3", MouseClass)], MOUSE_BACK, order) == (st, false)
  {
    var st, probes := Mouse3(true), [Probe("event3", MouseClass)];
    MissedOnce();
    MouseIsConsistent();
    forall i | 0 <= i < |probes|
      ensures Quiet(EntryAt(st, Node(probes[i].name)), probes[i], MOUSE_BACK) &&
        Settled(st, Node(probes[i].name), MOUSE_BACK)
    {
    }
    QuietLoop(st, FairQueue, probes, MOUSE_BACK);
    NothingVanished(st, Present(probes), MOUSE_BACK, order);
  }

  // ---- A device that is back on another node

  lemma {:induction false} LowestPeerExists(inputs: map<Path, HeldInput>, kind: InputClass, w: World, p: Path)
    requires IsPeer(inputs, kind, w, p)
    ensures SuspendedPeer(inputs, kind, w).Some?
    decreases inputs[p].resource.input.index
  {
    if !IsLowestPeer(inputs, kind, w, p) {
      var q :| q in inputs && IsPeer(inputs, kind, w, q) &&
        inputs[q].resource.input.index < inputs[p].resource.input.index;
      LowestPeerExists(inputs, kind, w, q);
    }
  }

  /** The device took over a name whose device was gone. */
  ghost predicate TakesSuspended(st: Store, st': Store, path: Path, w: World) {
    exists r :: r in GoneNames(st.inputs) && TakenAs(st', path, w, r)
  }

  lemma NewNameIsNotSuspended(st: Store, st': Store, path: Path, w: World, r: Resource)
    requires TakenAs(st', path, w, r) && r !in GoneNames(st.inputs)
    ensures !TakesSuspended(st, st', path, w)
  {
  }

  lemma LiveNameIsNotSuspended(st: Store, path: Path)
    requires Consistent(st) && path in st.inputs && !st.inputs[path].gone
    ensures st.inputs[path].resource !in GoneNames(st.inputs)
  {
  }

  lemma AdoptedNameIsNew(st: Store, policy: Policy, path: Path, kind: InputClass, w: World)
    requires Consistent(st) && path.Node? && path in st.inputs && st.inputs[path].gone
    requires AdoptInput(Park(st, path), policy, path, kind, w).1
    ensures !TakesSuspended(st, AdoptInput(Park(st, path), policy, path, kind, w).0, path, w)
  {
    var r := AdoptTakes(Park(st, path), policy, path, kind, w);
    ParkNames(st, path);
    assert GoneNames(st.inputs) <= Names(st.inputs);
    NewNameIsNotSuspended(st, AdoptInput(Park(st, path), policy, path, kind, w).0, path, w, r);
  }

  lemma SuspendedNameIsNotNew(st: Store, policy: Policy, path: Path, kind: InputClass, w: World)
    requires Consistent(st) && path.Node? && path in st.inputs && !st.inputs[path].gone
    requires var gone := SuspendInput(st, path, st.inputs[path]); AdoptInput(Park(gone, path), policy, path, kind, w).1
    ensures var gone := SuspendInput(st, path, st.inputs[path]);
      !TakesSuspended(st, AdoptInput(Park(gone, path), policy, path, kind, w).0, path, w)
  {
    var gone := SuspendInput(st, path, st.inputs[path]);
    var st' := AdoptInput(Park(gone, path), policy, path, kind, w).0;
    var r := AdoptTakes(Park(gone, path), policy, path, kind, w);
    SuspendKeeps(st, path);
    ParkNames(gone, path);
    UpdateNames(st.inputs, path, st.inputs[path].(gone := true));
    assert GoneNames(st.inputs) <= Names(st.inputs);
    NewNameIsNotSuspended(st, st', path, w, r);
  }

  /** The entry of the node waits for a device of this class itself. */
  predicate WaitsHere(st: Store, probe: Probe) {
    var path := Node(probe.name);
    path in st.inputs && st.inputs[path].gone && MayResume(st.inputs[path], probe.kind)
  }

  /** A device is taken while a resource of its class is suspended, its node gone. The
      source says that such a device resumes the name on whatever node it comes back.
      It takes over a suspended name exactly if its node carries no entry, or a
      suspended one of its own class: a node that carries an entry of another class, or
      a live one, is not looked at for that. */
  lemma ReturnsOnAnotherNodeIff(st: Store, policy: Policy, probe: Probe, w: World, peer: Path)
    requires Consistent(st) && IsPeer(st.inputs, probe.kind, w, peer)
    requires ReconcileOne(st, policy, probe, w).1 && !Settled(st, Node(probe.name), w)
    ensures TakesSuspended(st, ReconcileOne(st, policy, probe, w).0, Node(probe.name), w) <==>
            Node(probe.name) !in st.inputs || WaitsHere(st, probe)
  {
    var path, kind, st' := Node(probe.name), probe.kind, ReconcileOne(st, policy, probe, w).0;
    if path !in st.inputs {
      LowestPeerExists(st.inputs, kind, w, peer);
      var from := SuspendedPeer(st.inputs, kind, w).value;
      ResumeTakes(st, from, path, st.inputs[from], w);
      assert st.inputs[from].resource in GoneNames(st.inputs);
    } else if MayResume(st.inputs[path], kind) && (st.inputs[path].gone || !KeepsNode(st, path, w)) {
      ResumeTakes(st, path, path, st.inputs[path], w);
      if st.inputs[path].gone {
        assert st.inputs[path].resource in GoneNames(st.inputs);
      } else {
        LiveNameIsNotSuspended(st, path);
        NewNameIsNotSuspended(st, st', path, w, st.inputs[path].resource);
      }
    } else if st.inputs[path].gone {
      AdoptedNameIsNew(st, policy, path, kind, w);
    } else if KeepsNode(st, path, w) {
      assert ReconcileOne(st, policy, probe, w) == ReopenInput(st, path, st.inputs[path].resource, w);
      LiveNameIsNotSuspended(st, path);
      NewNameIsNotSuspended(st, st', path, w, st.inputs[path].resource);
    } else {
      SuspendedNameIsNotNew(st, policy, path, kind, w);
    }
  }

  /** A mouse and a keyboard, both unplugged. */
  function BothAway(): Store {
    Store(map[], map[Node("event3") := HeldInput(Input(Mouse(0)), Inode(1, 3), None, true),
                     Node("event5") := HeldInput(Input(Keyboard(0)), Inode(1, 5), None, true)], [], [])
  }

  const MOUSE_AT_5 := World(
    map[Node("event5") := Inode(1, 6)], map[], {}, map[Node("event5") := Opened(7, Inode(1, 6), None)])

  lemma SecondMouseIsFree()
    ensures FreeIndex(Park(BothAway(), Node("event5")).inputs, MouseClass) == Some(1)
  {
    var inputs := Park(BothAway(), Node("event5")).inputs;
    assert inputs[Node("event3")].resource == Input(Mouse(0));
    assert !IsFree(inputs, MouseClass, 0) && IsFree(inputs, MouseClass, 1);
    assert FreeIndexFrom(inputs, MouseClass, 1) == Some(1);
  }

  lemma BothAwayIsConsistent()
    ensures Consistent(BothAway())
  {
  }

  lemma FirstMouseIsPeer()
    ensures IsLowestPeer(BothAway().inputs, MouseClass, MOUSE_AT_5, Node("event3"))
  {
  }

  lemma MouseIsAdopted()
    ensures ReconcileOne(BothAway(), FairQueue, Probe("event5", MouseClass), MOUSE_AT_5) ==
      AdoptInput(Park(BothAway(), Node("event5")), FairQueue, Node("event5"), MouseClass, MOUSE_AT_5)
  {
  }

  /** A mouse and a keyboard are unplugged, and a mouse appears on the keyboard's node:
      it becomes a second mouse, and the name of the first stays suspended although the
      mouse is the device it waits for. */
  lemma MouseGetsANewName()
    ensures Consistent(BothAway()) && IsLowestPeer(BothAway().inputs, MouseClass, MOUSE_AT_5, Node("event3"))
    ensures var (st, taken) := ReconcileOne(BothAway(), FairQueue, Probe("event5", MouseClass), MOUSE_AT_5);
      && taken && TakenAs(st, Node("event5"), MOUSE_AT_5, Input(Mouse(1)))
      && EntryAt(st, Node("event3")) == EntryAt(BothAway(), Node("event3"))
  {
    BothAwayIsConsistent();
    FirstMouseIsPeer();
    MouseIsAdopted();
    SecondMouseIsFree();
    AdoptTouches(Park(BothAway(), Node("event5")), FairQueue, Node("event5"), MouseClass, MOUSE_AT_5, Node("event3"));
    ParkTouches(BothAway(), Node("event5"), Node("event3"));
  }
}
