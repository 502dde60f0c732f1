/** Exactly when a second pass over devices that hold still changes something. */
module Repeats {
  import opened Types
  import opened Policies
  import opened Inventory
  import opened InventoryLaws
  import opened Replug

  /** Every name of the class is held. */
  ghost predicate Full(inputs: map<Path, HeldInput>, kind: InputClass) {
    forall i: Index :: NameOf(kind, i) in Names(inputs)
  }

  lemma FullHasNoFreeIndex(inputs: map<Path, HeldInput>, kind: InputClass)
    ensures FreeIndex(inputs, kind).None? <==> Full(inputs, kind)
  {
    if FreeIndex(inputs, kind).None? {
      forall i: Index ensures NameOf(kind, i) in Names(inputs) {
        assert !IsFree(inputs, kind, i);
      }
    } else {
      assert NameOf(kind, FreeIndex(inputs, kind).value) !in Names(inputs);
    }
  }

  /** A device that would open and has no entry, because every name of its class was
      held when it was looked at. */
  ghost predicate Unplaced(st: Store, probe: Probe, w: World) {
    Node(probe.name) in w.opens && Node(probe.name) !in st.inputs && Full(st.inputs, probe.kind)
  }

  /** What a pass leaves of a device: it will be left alone, or it is unplaced. */
  ghost predicate Visited(st: Store, probe: Probe, w: World) {
    Quiet(EntryAt(st, Node(probe.name)), probe, w) || Unplaced(st, probe, w)
  }

  ghost predicate AllVisited(st: Store, probes: seq<Probe>, w: World) {
    forall i | 0 <= i < |probes| :: Visited(st, probes[i], w)
  }

  // ---- The first pass

  lemma AdoptFails(st: Store, policy: Policy, probe: Probe, w: World)
    requires Node(probe.name) in w.opens && Node(probe.name) !in st.inputs
    requires !AdoptInput(st, policy, Node(probe.name), probe.kind, w).1
    ensures AdoptInput(st, policy, Node(probe.name), probe.kind, w).0 == st && Unplaced(st, probe, w)
  {
    FullHasNoFreeIndex(st.inputs, probe.kind);
  }

  lemma ParkLeavesNode(st: Store, path: Path)
    requires path.Node?
    ensures path !in Park(st, path).inputs
  {
  }

  /** A visit takes the device, or finds that it does not open, or cannot name it. */
  lemma VisitPlaces(st: Store, policy: Policy, probe: Probe, w: World)
    requires Frozen(w)
    ensures Visited(ReconcileOne(st, policy, probe, w).0, probe, w)
  {
    var path, kind := Node(probe.name), probe.kind;
    if path !in w.opens {
      UnopenedIsQuiet(st, policy, probe, w);
    } else if ReconcileOne(st, policy, probe, w).1 {
      TakenIsSettled(st, policy, probe, w);
    } else if path !in st.inputs {
      AdoptFails(st, policy, probe, w);
    } else if st.inputs[path].gone {
      ParkLeavesNode(st, path);
      AdoptFails(Park(st, path), policy, probe, w);
    } else {
      var suspended := SuspendInput(st, path, st.inputs[path]);
      ParkLeavesNode(suspended, path);
      AdoptFails(Park(suspended, path), policy, probe, w);
    }
  }

  lemma VisitKeepsNames(st: Store, policy: Policy, probe: Probe, w: World)
    requires Consistent(st)
    ensures Names(st.inputs) <= Names(ReconcileOne(st, policy, probe, w).0.inputs)
  {
    var st' := ReconcileOne(st, policy, probe, w).0;
    ReconcileOneTold(st, policy, probe, w);
    var more :| st'.mail == st.mail + more && Tells(ViewOf(st.inputs), more, ViewOf(st'.inputs));
    ReadingNeverForgets(ViewOf(st.inputs), more);
  }

  /** Visiting one device leaves the others visited. */
  lemma OthersStayVisited(st: Store, policy: Policy, probe: Probe, w: World, other: Probe)
    requires Consistent(st) && Visited(st, other, w)
    requires other.name != probe.name && Node(other.name) in w.inodes
    ensures Visited(ReconcileOne(st, policy, probe, w).0, other, w)
  {
    OthersUntouched(st, policy, probe, w, Node(other.name));
    VisitKeepsNames(st, policy, probe, w);
  }

  lemma {:induction false} LoopVisits(st: Store, policy: Policy, probes: seq<Probe>, w: World)
    requires Consistent(st) && Frozen(w) && Probed(probes, w)
    ensures AllVisited(Loop(st, policy, probes, w).0, probes, w)
  {
    if probes != [] {
      var n := |probes| - 1;
      var before, after := Loop(st, policy, probes[..n], w).0, Loop(st, policy, probes, w).0;
      LoopUnfolds(st, policy, probes, w);
      ProbedPrefix(probes, w, n);
      LoopVisits(st, policy, probes[..n], w);
      ReconcileAllKeeps(st, policy, probes[..n], Still(w, n));
      VisitPlaces(before, policy, probes[n], w);
      forall i | 0 <= i < |probes| ensures Visited(after, probes[i], w) {
        if i < n {
          assert Visited(before, probes[..n][i], w);
          OthersStayVisited(before, policy, probes[n], w, probes[i]);
        }
      }
    }
  }

  lemma SuspendingKeepsNames(st: Store, present: set<Path>, w: World, order: seq<Path>)
    ensures Names(st.inputs) <= Names(SuspendVanished(st, present, w, order).inputs)
  {
    var after := SuspendVanished(st, present, w, order);
    VanishedOnce(st, present, w, order);
    forall r | r in Names(st.inputs) ensures r in Names(after.inputs) {
      var p :| p in st.inputs && st.inputs[p].resource == r;
      assert after.inputs[p].resource == r;
    }
  }

  lemma PassVisits(st: Store, policy: Policy, probes: seq<Probe>, w: World, order: seq<Path>)
    requires Consistent(st) && Frozen(w) && Probed(probes, w)
    ensures AllVisited(StillPass(st, policy, probes, w, order).0, probes, w)
  {
    var swept, st' := Loop(st, policy, probes, w).0, StillPass(st, policy, probes, w, order).0;
    LoopVisits(st, policy, probes, w);
    SuspendingKeepsNames(swept, Present(probes), w, order);
    forall i | 0 <= i < |probes| ensures Visited(st', probes[i], w) {
      assert Visited(swept, probes[i], w);
      PresentEntriesKept(swept, probes, w, order, i);
    }
  }

  // ---- The second pass

  /** An unplaced device finds a suspended resource of its class to take over. */
  ghost predicate FindsPeer(st: Store, probe: Probe, w: World) {
    Unplaced(st, probe, w) && exists p :: IsPeer(st.inputs, probe.kind, w, p)
  }

  lemma VisitAgain(st: Store, policy: Policy, probe: Probe, w: World)
    requires Visited(st, probe, w)
    ensures if FindsPeer(st, probe, w)
      then |ReconcileOne(st, policy, probe, w).0.mail| > |st.mail|
      else ReconcileOne(st, policy, probe, w) == (st, Settled(st, Node(probe.name), w))
  {
    if Quiet(EntryAt(st, Node(probe.name)), probe, w) {
      QuietIsLeftAlone(st, policy, probe, w);
    } else if FindsPeer(st, probe, w) {
      var p :| IsPeer(st.inputs, probe.kind, w, p);
      LowestPeerExists(st.inputs, probe.kind, w, p);
    } else {
      FullHasNoFreeIndex(st.inputs, probe.kind);
    }
  }

  lemma MailOnlyGrows(st: Store, policy: Policy, probe: Probe, w: World)
    ensures |ReconcileOne(st, policy, probe, w).0.mail| >= |st.mail|
  {
    ReconcileOneInforms(st, policy, probe, w);
  }

  ghost predicate NobodyFindsPeer(st: Store, probes: seq<Probe>, w: World) {
    forall i | 0 <= i < |probes| :: !FindsPeer(st, probes[i], w)
  }

  lemma {:induction false} LoopAgain(st: Store, policy: Policy, probes: seq<Probe>, w: World)
    requires AllVisited(st, probes, w)
    ensures if NobodyFindsPeer(st, probes, w) then Loop(st, policy, probes, w) == (st, !AllSettled(st, probes, w))
      else |Loop(st, policy, probes, w).0.mail| > |st.mail|
  {
    if probes != [] {
      var n := |probes| - 1;
      var init := probes[..n];
      forall i | 0 <= i < n ensures Visited(st, init[i], w) {
        assert Visited(st, probes[i], w);
      }
      LoopAgain(st, policy, init, w);
      LoopUnfolds(st, policy, probes, w);
      LastOfAll(st, probes, w);
      VisitAgain(st, policy, probes[n], w);
      MailOnlyGrows(Loop(st, policy, init, w).0, policy, probes[n], w);
    }
  }

  lemma LastOfAll(st: Store, probes: seq<Probe>, w: World)
    requires probes != []
    ensures var n := |probes| - 1;
      && (NobodyFindsPeer(st, probes, w) <==> NobodyFindsPeer(st, probes[..n], w) && !FindsPeer(st, probes[n], w))
      && (AllSettled(st, probes, w) <==> AllSettled(st, probes[..n], w) && Settled(st, Node(probes[n].name), w))
  {
    var n := |probes| - 1;
    forall i | 0 <= i < n
      ensures FindsPeer(st, probes[i], w) == FindsPeer(st, probes[..n][i], w)
      ensures Settled(st, Node(probes[i].name), w) == Settled(st, Node(probes[..n][i].name), w)
    {
    }
  }

  lemma {:induction false} SuspendingGrowsMail(st: Store, present: set<Path>, w: World, order: seq<Path>)
    ensures |SuspendVanished(st, present, w, order).mail| >= |st.mail|
  {
    SuspendVanishedInforms(st, present, w, order);
  }

  lemma SecondPassChanges(
    st: Store, policy: Policy, probes: seq<Probe>, w: World, order: seq<Path>, order': seq<Path>)
    requires Consistent(st) && Frozen(w) && Probed(probes, w)
    requires !NobodyFindsPeer(StillPass(st, policy, probes, w, order).0, probes, w)
    ensures var st' := StillPass(st, policy, probes, w, order).0;
      StillPass(st', policy, probes, w, order').0 != st'
  {
    var st' := StillPass(st, policy, probes, w, order).0;
    PassVisits(st, policy, probes, w, order);
    LoopAgain(st', policy, probes, w);
    SuspendingGrowsMail(Loop(st', policy, probes, w).0, Present(probes), w, order');
  }

  /** The source says that a pass is idempotent. Exactly when it is: a second pass over
      devices that hold still, in whatever order, changes nothing unless a device that
      found every name of its class held, and so has no entry, now finds a suspended
      resource of that class whose node is gone. If it changes nothing it sends nothing,
      and asks for a retry exactly if some device is not settled. */
  lemma PassIdempotentIff(
    st: Store, policy: Policy, probes: seq<Probe>, w: World, order: seq<Path>, order': seq<Path>)
    requires Consistent(st) && Frozen(w) && Probed(probes, w) && Covers(order, Loop(st, policy, probes, w).0.inputs)
    ensures var st' := StillPass(st, policy, probes, w, order).0;
      var again := StillPass(st', policy, probes, w, order');
      && (again.0 == st' <==> NobodyFindsPeer(st', probes, w))
      && (again.0 == st' ==> again.1 == !AllSettled(st', probes, w))
  {
    var swept, st' := Loop(st, policy, probes, w).0, StillPass(st, policy, probes, w, order).0;
    if NobodyFindsPeer(st', probes, w) {
      PassVisits(st, policy, probes, w, order);
      LoopAgain(st', policy, probes, w);
      VanishedOnce(swept, Present(probes), w, order);
      NothingVanished(st', Present(probes), w, order');
    } else {
      SecondPassChanges(st, policy, probes, w, order, order');
    }
  }

  // ---- A crowd

  /** All 256 mice unplugged and parked. */
  function ParkedMice(): map<Path, HeldInput> {
    map i | 0 <= i < 256 :: Placeholder(Input(Mouse(i))) := HeldInput(Input(Mouse(i)), Inode(0, 0), None, true)
  }

  const AWAY := HeldInput(Input(Keyboard(0)), Inode(1, 5), None, true)

  /** ... and a keyboard, unplugged from the node at which a mouse now appears. */
  function Crowd(): Store {
    Store(map[], ParkedMice()[Node("event5") := AWAY], [], [])
  }

  const NEW_MOUSE := Probe("event5", MouseClass)

  lemma CrowdIsConsistent()
    ensures Consistent(Crowd()) && Frozen(MOUSE_AT_5) && Probed([NEW_MOUSE], MOUSE_AT_5)
  {
  }

  lemma CrowdIsFull()
    ensures Full(Park(Crowd(), Node("event5")).inputs, MouseClass)
  {
    var inputs := Park(Crowd(), Node("event5")).inputs;
    forall i: Index ensures NameOf(MouseClass, i) in Names(inputs) {
      var p := Placeholder(Input(Mouse(i)));
      assert p in ParkedMice() && inputs[p].resource == NameOf(MouseClass, i);
    }
  }

  /** The keyboard makes room on the node, but there is no name left for the mouse. */
  lemma MouseIsCrowdedOut()
    ensures ReconcileOne(Crowd(), FairQueue, NEW_MOUSE, MOUSE_AT_5) == (Park(Crowd(), Node("event5")), false)
  {
    CrowdIsFull();
    FullHasNoFreeIndex(Park(Crowd(), Node("event5")).inputs, MouseClass);
  }

  lemma CrowdedPass(order: seq<Path>)
    ensures StillPass(Crowd(), FairQueue, [NEW_MOUSE], MOUSE_AT_5, order) == (Park(Crowd(), Node("event5")), true)
  {
    var probes := [NEW_MOUSE];
    LoopUnfolds(Crowd(), FairQueue, probes, MOUSE_AT_5);
    assert probes[..0] == [];
    MouseIsCrowdedOut();
    NothingVanished(Park(Crowd(), Node("event5")), Present(probes), MOUSE_AT_5, order);
  }

  lemma MouseFindsPeer()
    ensures FindsPeer(Park(Crowd(), Node("event5")), NEW_MOUSE, MOUSE_AT_5)
  {
    var inputs, p := Park(Crowd(), Node("event5")).inputs, Placeholder(Input(Mouse(0)));
    CrowdIsFull();
    assert p in ParkedMice() && inputs[p] == ParkedMice()[p];
    assert IsPeer(inputs, MouseClass, MOUSE_AT_5, p);
  }

  /** The first pass finds no name for the mouse; the second finds no entry at its node
      any more and resumes one of the suspended mice. The devices have not moved. */
  lemma SecondPassResumes(order: seq<Path>, order': seq<Path>)
    ensures var st := StillPass(Crowd(), FairQueue, [NEW_MOUSE], MOUSE_AT_5, order).0;
      Consistent(Crowd()) && StillPass(st, FairQueue, [NEW_MOUSE], MOUSE_AT_5, order').0 != st
  {
    var probes := [NEW_MOUSE];
    CrowdIsConsistent();
    CrowdedPass(order);
    MouseFindsPeer();
    assert FindsPeer(Park(Crowd(), Node("event5")), probes[0], MOUSE_AT_5);
    SecondPassChanges(Crowd(), FairQueue, probes, MOUSE_AT_5, order, order');
  }
}
