/** The consistency rules hold after every pass, and the mail a pass sends is exactly
    what it did to the index. */
module InventoryLaws {
  import opened Types
  import opened Policies
  import Machine
  import opened Inventory

  // ---- Each transition keeps the rules

  lemma NamesHas(inputs: map<Path, HeldInput>, p: Path)
    requires p in inputs
    ensures inputs[p].resource in Names(inputs)
  {
  }

  lemma UnusedIsNotOffered(st: Store, r: Resource)
    requires Consistent(st) && r.Input? && r !in Names(st.inputs)
    ensures r !in st.fds && r !in st.advertised
  {
  }

  lemma AdoptKeeps(st: Store, policy: Policy, path: Path, kind: InputClass, w: World)
    requires Consistent(st) && path.Node? && path !in st.inputs
    ensures Consistent(AdoptInput(st, policy, path, kind, w).0)
  {
    var st' := AdoptInput(st, policy, path, kind, w).0;
    var i := FreeIndex(st.inputs, kind);
    if i.Some? && path in w.opens {
      var r := NameOf(kind, i.value);
      UnusedIsNotOffered(st, r);
      forall q | q in st'.advertised && q.Input? ensures q in Names(st'.inputs) {
        if q == r {
          assert st'.inputs[path].resource == r;
        } else {
          var p :| p in st.inputs && st.inputs[p].resource == q;
          assert st'.inputs[p].resource == q;
        }
      }
    }
  }

  lemma SuspendKeeps(st: Store, path: Path)
    requires Consistent(st) && path in st.inputs
    ensures Consistent(SuspendInput(st, path, st.inputs[path]))
  {
    var st' := SuspendInput(st, path, st.inputs[path]);
    forall q | q in st'.advertised && q.Input? ensures q in Names(st'.inputs) {
      var p :| p in st.inputs && st.inputs[p].resource == q;
      assert st'.inputs[p].resource == q;
    }
  }

  lemma ResumeKeeps(st: Store, from: Path, path: Path, w: World)
    requires Consistent(st) && from in st.inputs && path.Node? && (path == from || path !in st.inputs)
    ensures Consistent(ResumeInput(st, from, path, st.inputs[from], w).0)
  {
    var st' := ResumeInput(st, from, path, st.inputs[from], w).0;
    if path in w.opens {
      forall q | q in st'.advertised && q.Input? ensures q in Names(st'.inputs) {
        if q == st.inputs[from].resource {
          assert st'.inputs[path].resource == q;
        } else {
          var p :| p in st.inputs && st.inputs[p].resource == q;
          assert st'.inputs[p].resource == q;
        }
      }
    }
  }

  lemma ReopenKeeps(st: Store, path: Path, w: World)
    requires Consistent(st) && path in st.inputs && !st.inputs[path].gone
    ensures Consistent(ReopenInput(st, path, st.inputs[path].resource, w).0)
  {
    var st' := ReopenInput(st, path, st.inputs[path].resource, w).0;
    forall q | q in st'.advertised && q.Input? ensures q in Names(st'.inputs) {
      var p :| p in st.inputs && st.inputs[p].resource == q;
      assert st'.inputs[p].resource == q;
    }
  }

  /** Parking an entry moves it to a key nobody uses. */
  lemma ParkMoves(st: Store, path: Path)
    requires Consistent(st) && path.Node? && path in st.inputs
    ensures var key, parked := Placeholder(st.inputs[path].resource), Park(st, path).inputs;
      && key !in st.inputs && parked.Keys == st.inputs.Keys - {path} + {key}
      && parked[key] == st.inputs[path]
      && forall p | p in st.inputs && p != path :: parked[p] == st.inputs[p]
  {
  }

  /** Parking frees the node and never overwrites another entry. */
  lemma ParkKeeps(st: Store, path: Path)
    requires Consistent(st) && path.Node? && path in st.inputs && st.inputs[path].gone
    ensures Consistent(Park(st, path)) && path !in Park(st, path).inputs
    ensures Placeholder(st.inputs[path].resource) !in st.inputs
    ensures Names(Park(st, path).inputs) == Names(st.inputs) && GoneNames(Park(st, path).inputs) == GoneNames(st.inputs)
  {
    ParkMoves(st, path);
    ParkNames(st, path);
  }

  lemma ParkNames(st: Store, path: Path)
    requires Consistent(st) && path.Node? && path in st.inputs
    ensures Names(Park(st, path).inputs) == Names(st.inputs) && GoneNames(Park(st, path).inputs) == GoneNames(st.inputs)
  {
    var key, parked := Placeholder(st.inputs[path].resource), Park(st, path).inputs;
    ParkMoves(st, path);
    forall q | q in Names(st.inputs) ensures q in Names(parked) {
      var p :| p in st.inputs && st.inputs[p].resource == q;
      assert q == parked[if p == path then key else p].resource;
    }
    forall q | q in GoneNames(st.inputs) ensures q in GoneNames(parked) {
      var p :| p in st.inputs && st.inputs[p].gone && st.inputs[p].resource == q;
      assert q == parked[if p == path then key else p].resource;
    }
  }

  // ---- A whole pass keeps the rules

  lemma ReconcileOneKeeps(st: Store, policy: Policy, probe: Probe, w: World)
    requires Consistent(st)
    ensures Consistent(ReconcileOne(st, policy, probe, w).0)
  {
    var path, kind := Node(probe.name), probe.kind;
    if path !in st.inputs {
      match SuspendedPeer(st.inputs, kind, w)
      case Some(from) => ResumeKeeps(st, from, path, w);
      case None => AdoptKeeps(st, policy, path, kind, w);
    } else if path in w.inodes && w.inodes[path] == st.inputs[path].inode {
      assert ReconcileOne(st, policy, probe, w).0 == st;
    } else if MayResume(st.inputs[path], kind) && (st.inputs[path].gone || !KeepsNode(st, path, w)) {
      ResumeKeeps(st, path, path, w);
    } else if st.inputs[path].gone {
      ParkAdoptKeeps(st, policy, path, kind, w);
    } else if KeepsNode(st, path, w) {
      ReopenKeeps(st, path, w);
    } else {
      SuspendKeeps(st, path);
      ParkAdoptKeeps(SuspendInput(st, path, st.inputs[path]), policy, path, kind, w);
    }
  }

  /** The device behind the entry is still there, on this node or elsewhere. */
  predicate KeepsNode(st: Store, path: Path, w: World)
    requires path in st.inputs
  {
    SameDevice(path, st.inputs[path], w) || DeviceExists(st.inputs[path], w)
  }

  lemma ParkAdoptKeeps(st: Store, policy: Policy, path: Path, kind: InputClass, w: World)
    requires Consistent(st) && path.Node? && path in st.inputs && st.inputs[path].gone
    ensures Consistent(AdoptInput(Park(st, path), policy, path, kind, w).0)
  {
    ParkKeeps(st, path);
    AdoptKeeps(Park(st, path), policy, path, kind, w);
  }

  lemma {:induction false} ReconcileAllKeeps(st: Store, policy: Policy, probes: seq<Probe>, worlds: seq<World>)
    requires Consistent(st) && |worlds| == |probes|
    ensures Consistent(ReconcileAll(st, policy, probes, worlds).0)
  {
    if probes != [] {
      var n := |probes| - 1;
      ReconcileAllKeeps(st, policy, probes[..n], worlds[..n]);
      ReconcileOneKeeps(ReconcileAll(st, policy, probes[..n], worlds[..n]).0, policy, probes[n], worlds[n]);
    }
  }

  lemma {:induction false} SuspendVanishedKeeps(st: Store, present: set<Path>, w: World, order: seq<Path>)
    requires Consistent(st)
    ensures Consistent(SuspendVanished(st, present, w, order))
  {
    if order != [] {
      var n := |order| - 1;
      SuspendVanishedKeeps(st, present, w, order[..n]);
      var before := SuspendVanished(st, present, w, order[..n]);
      if Vanished(before, present, w, order[n]) {
        SuspendKeeps(before, order[n]);
      }
    }
  }

  /** A pass over any devices, in any world that may change at every step, with any
      pattern of failing opens and any iteration order, keeps all four rules. */
  lemma PassKeepsRules(st: Store, policy: Policy, probes: seq<Probe>, worlds: seq<World>, order: seq<Path>, last: World)
    requires Consistent(st) && |worlds| == |probes|
    ensures Consistent(Pass(st, policy, probes, worlds, order, last).0)
  {
    ReconcileAllKeeps(st, policy, probes, worlds);
    SuspendVanishedKeeps(ReconcileAll(st, policy, probes, worlds).0, Present(probes), last, order);
  }

  // ---- What the engine is told

  /** The input slots a reader of the mail would have: which exist, which are away. */
  datatype View = View(names: set<Resource>, away: set<Resource>)

  ghost function ViewOf(inputs: map<Path, HeldInput>): View {
    View(Names(inputs), GoneNames(inputs))
  }

  function Heard(v: View, e: Machine.Event): View {
    match e
    case Offer(r, _) => if r.Input? then v.(names := v.names + {r}) else v
    case Suspend(r) => if r in v.names then v.(away := v.away + {r}) else v
    case Resume(r) => v.(away := v.away - {r})
    case _ => v
  }

  function Read(v: View, mail: seq<Mail>): View {
    if mail == [] then v
    else
      var before := Read(v, mail[..|mail| - 1]);
      match mail[|mail| - 1]
      case Command(e) => Heard(before, e)
      case Advertise(_) => before
  }

  lemma {:induction false} ReadConcat(v: View, a: seq<Mail>, b: seq<Mail>)
    ensures Read(v, a + b) == Read(Read(v, a), b)
  {
    if b == [] {
      assert a + b == a;
    } else {
      ReadConcat(v, a, b[..|b| - 1]);
      assert (a + b)[..|a + b| - 1] == a + b[..|b| - 1];
    }
  }

  lemma ReadTwo(v: View, e: Machine.Event, list: seq<Resource>)
    ensures Read(v, [Command(e), Advertise(list)]) == Heard(v, e)
  {
    var one: seq<Mail> := [Command(e)];
    assert one[..|one| - 1] == [];
    assert Read(v, one) == Heard(v, e);
    assert [Command(e), Advertise(list)][..1] == one;
  }

  /** The inputs of a list are the names that are not away. */
  ghost predicate Offers(list: seq<Resource>, v: View) {
    forall r: Resource | r.Input? :: r in list <==> r in v.names && r !in v.away
  }

  /** Every list in the mail is what its reader knows by then. */
  ghost predicate Honest(v: View, mail: seq<Mail>) {
    mail == [] ||
    (var n := |mail| - 1;
     Honest(v, mail[..n]) && (mail[n].Advertise? ==> Offers(mail[n].available, Read(v, mail[..n]))))
  }

  lemma {:induction false} HonestConcat(v: View, a: seq<Mail>, b: seq<Mail>)
    ensures Honest(v, a + b) <==> Honest(v, a) && Honest(Read(v, a), b)
  {
    if b == [] {
      assert a + b == a;
    } else {
      var n := |b| - 1;
      HonestConcat(v, a, b[..n]);
      ReadConcat(v, a, b[..n]);
      assert (a + b)[..|a + b| - 1] == a + b[..n];
    }
  }

  lemma HonestTwo(v: View, e: Machine.Event, list: seq<Resource>)
    requires Offers(list, Heard(v, e))
    ensures Honest(v, [Command(e), Advertise(list)])
  {
    var one: seq<Mail> := [Command(e)];
    assert one[..0] == [];
    assert [Command(e), Advertise(list)][..1] == one;
  }

  lemma AdvertisedIsOffered(st: Store)
    requires Consistent(st)
    ensures Offers(st.advertised, ViewOf(st.inputs))
  {
    forall r: Resource | r.Input? ensures r in st.advertised <==> r in Names(st.inputs) && r !in GoneNames(st.inputs) {
      if r in Names(st.inputs) {
        var p :| p in st.inputs && st.inputs[p].resource == r;
        assert st.inputs[p].gone <==> r in GoneNames(st.inputs);
      }
    }
  }

  /** From `st` to `st'` the mail grew by some messages, whoever reads them goes from
      the old index to the new one, and every list among them is true by then. */
  ghost predicate Told(st: Store, st': Store) {
    exists more :: st'.mail == st.mail + more && Tells(ViewOf(st.inputs), more, ViewOf(st'.inputs))
  }

  ghost predicate Tells(v: View, mail: seq<Mail>, v': View) {
    Read(v, mail) == v' && Honest(v, mail)
  }

  lemma ToldNothing(st: Store, st': Store)
    requires st'.mail == st.mail && ViewOf(st.inputs) == ViewOf(st'.inputs)
    ensures Told(st, st')
  {
    assert st'.mail == st.mail + [] && Tells(ViewOf(st.inputs), [], ViewOf(st'.inputs));
  }

  lemma ToldOne(st: Store, st': Store, e: Machine.Event)
    requires st'.mail == st.mail + [Command(e)] + [Advertise(st'.advertised)] && Consistent(st')
    requires Heard(ViewOf(st.inputs), e) == ViewOf(st'.inputs)
    ensures Told(st, st')
  {
    var more := [Command(e), Advertise(st'.advertised)];
    ReadTwo(ViewOf(st.inputs), e, st'.advertised);
    AdvertisedIsOffered(st');
    HonestTwo(ViewOf(st.inputs), e, st'.advertised);
    assert st'.mail == st.mail + more && Tells(ViewOf(st.inputs), more, ViewOf(st'.inputs));
  }

  lemma ToldTrans(a: Store, b: Store, c: Store)
    requires Told(a, b) && Told(b, c)
    ensures Told(a, c)
  {
    var m1 :| b.mail == a.mail + m1 && Tells(ViewOf(a.inputs), m1, ViewOf(b.inputs));
    var m2 :| c.mail == b.mail + m2 && Tells(ViewOf(b.inputs), m2, ViewOf(c.inputs));
    ReadConcat(ViewOf(a.inputs), m1, m2);
    HonestConcat(ViewOf(a.inputs), m1, m2);
    assert c.mail == a.mail + (m1 + m2) && Tells(ViewOf(a.inputs), m1 + m2, ViewOf(c.inputs));
  }

  /** What an update at one path does to the names. */
  lemma UpdateNames(inputs: map<Path, HeldInput>, path: Path, held: HeldInput)
    requires OneEntryPerResource(inputs)
    requires forall p | p in inputs && p != path :: inputs[p].resource != held.resource
    ensures var inputs' := inputs[path := held];
      && (path in inputs && inputs[path].resource == held.resource ==> Names(inputs') == Names(inputs))
      && (path !in inputs ==> Names(inputs') == Names(inputs) + {held.resource})
      && (path !in inputs || inputs[path].resource == held.resource ==>
            GoneNames(inputs') ==
            if held.gone then GoneNames(inputs) + {held.resource} else GoneNames(inputs) - {held.resource})
  {
    var inputs' := inputs[path := held];
    assert inputs'[path] == held && forall p | p in inputs && p != path :: inputs'[p] == inputs[p];
    forall q | q in Names(inputs) && (path !in inputs || inputs[path].resource == held.resource)
      ensures q in Names(inputs')
    {
      var p :| p in inputs && inputs[p].resource == q;
      assert inputs'[p].resource == q;
    }
    forall q | q in GoneNames(inputs) && q != held.resource &&
      (path !in inputs || inputs[path].resource == held.resource)
      ensures q in GoneNames(inputs')
    {
      var p :| p in inputs && inputs[p].gone && inputs[p].resource == q;
      assert inputs'[p].resource == q && inputs'[p].gone;
    }
  }

  lemma AdoptTold(st: Store, policy: Policy, path: Path, kind: InputClass, w: World)
    requires Consistent(st) && path.Node? && path !in st.inputs
    ensures Told(st, AdoptInput(st, policy, path, kind, w).0)
  {
    var st' := AdoptInput(st, policy, path, kind, w).0;
    var i := FreeIndex(st.inputs, kind);
    if i.Some? && path in w.opens {
      var r := NameOf(kind, i.value);
      UpdateNames(st.inputs, path, Entry(r, w.opens[path]));
      assert r !in Names(st.inputs);
      assert GoneNames(st.inputs) <= Names(st.inputs);
      AdoptKeeps(st, policy, path, kind, w);
      ToldOne(st, st', Machine.Offer(r, policy));
    } else {
      ToldNothing(st, st');
    }
  }

  lemma SuspendTold(st: Store, path: Path)
    requires Consistent(st) && path in st.inputs
    ensures Told(st, SuspendInput(st, path, st.inputs[path]))
  {
    var held := st.inputs[path];
    UpdateNames(st.inputs, path, held.(gone := true));
    NamesHas(st.inputs, path);
    SuspendKeeps(st, path);
    ToldOne(st, SuspendInput(st, path, held), Machine.Suspend(held.resource));
  }

  lemma ReopenTold(st: Store, path: Path, w: World)
    requires Consistent(st) && path in st.inputs && !st.inputs[path].gone
    ensures Told(st, ReopenInput(st, path, st.inputs[path].resource, w).0)
  {
    var held := st.inputs[path];
    if path in w.opens {
      UpdateNames(st.inputs, path, Entry(held.resource, w.opens[path]));
      assert held.resource !in GoneNames(st.inputs);
    }
    ToldNothing(st, ReopenInput(st, path, held.resource, w).0);
  }

  lemma ResumeTold(st: Store, from: Path, path: Path, w: World)
    requires Consistent(st) && from in st.inputs && path.Node? && (path == from || path !in st.inputs)
    ensures Told(st, ResumeInput(st, from, path, st.inputs[from], w).0)
  {
    var held, st' := st.inputs[from], ResumeInput(st, from, path, st.inputs[from], w).0;
    if path in w.opens {
      if path == from {
        UpdateNames(st.inputs, path, Entry(held.resource, w.opens[path]));
      } else {
        var left := st.inputs - {from};
        assert forall p | p in left :: left[p] == st.inputs[p];
        RemoveNames(st.inputs, from);
        UpdateNames(left, path, Entry(held.resource, w.opens[path]));
        NamesHas(st.inputs, from);
      }
      ResumeKeeps(st, from, path, w);
      ToldOne(st, st', Machine.Resume(held.resource));
    } else {
      ToldNothing(st, st');
    }
  }

  lemma RemoveNames(inputs: map<Path, HeldInput>, path: Path)
    requires OneEntryPerResource(inputs) && path in inputs
    ensures Names(inputs - {path}) == Names(inputs) - {inputs[path].resource}
    ensures GoneNames(inputs - {path}) == GoneNames(inputs) - {inputs[path].resource}
  {
    var left := inputs - {path};
    assert forall p | p in left :: left[p] == inputs[p] && p in inputs && p != path;
    forall q | q in Names(inputs) && q != inputs[path].resource ensures q in Names(left) {
      var p :| p in inputs && inputs[p].resource == q;
      assert left[p].resource == q;
    }
    forall q | q in GoneNames(inputs) && q != inputs[path].resource ensures q in GoneNames(left) {
      var p :| p in inputs && inputs[p].gone && inputs[p].resource == q;
      assert left[p].resource == q;
    }
  }

  lemma ParkTold(st: Store, path: Path)
    requires Consistent(st) && path.Node? && path in st.inputs
    ensures Told(st, Park(st, path))
  {
    ParkNames(st, path);
    ToldNothing(st, Park(st, path));
  }

  lemma ReconcileOneTold(st: Store, policy: Policy, probe: Probe, w: World)
    requires Consistent(st)
    ensures Told(st, ReconcileOne(st, policy, probe, w).0)
  {
    var path, kind := Node(probe.name), probe.kind;
    ToldNothing(st, st);
    if path !in st.inputs {
      match SuspendedPeer(st.inputs, kind, w)
      case Some(from) => ResumeTold(st, from, path, w);
      case None => AdoptTold(st, policy, path, kind, w);
    } else if path in w.inodes && w.inodes[path] == st.inputs[path].inode {
      assert ReconcileOne(st, policy, probe, w).0 == st;
    } else if MayResume(st.inputs[path], kind) && (st.inputs[path].gone || !KeepsNode(st, path, w)) {
      ResumeTold(st, path, path, w);
    } else if st.inputs[path].gone {
      ParkAdoptTold(st, policy, path, kind, w);
    } else if KeepsNode(st, path, w) {
      ReopenTold(st, path, w);
    } else {
      var suspended := SuspendInput(st, path, st.inputs[path]);
      SuspendTold(st, path);
      SuspendKeeps(st, path);
      ParkAdoptTold(suspended, policy, path, kind, w);
      ToldTrans(st, suspended, AdoptInput(Park(suspended, path), policy, path, kind, w).0);
    }
  }

  lemma ParkAdoptTold(st: Store, policy: Policy, path: Path, kind: InputClass, w: World)
    requires Consistent(st) && path.Node? && path in st.inputs && st.inputs[path].gone
    ensures Told(st, AdoptInput(Park(st, path), policy, path, kind, w).0)
  {
    ParkTold(st, path);
    ParkKeeps(st, path);
    AdoptTold(Park(st, path), policy, path, kind, w);
    ToldTrans(st, Park(st, path), AdoptInput(Park(st, path), policy, path, kind, w).0);
  }

  lemma {:induction false} ReconcileAllTold(st: Store, policy: Policy, probes: seq<Probe>, worlds: seq<World>)
    requires Consistent(st) && |worlds| == |probes|
    ensures Told(st, ReconcileAll(st, policy, probes, worlds).0)
  {
    if probes == [] {
      ToldNothing(st, st);
    } else {
      var n := |probes| - 1;
      var before := ReconcileAll(st, policy, probes[..n], worlds[..n]).0;
      ReconcileAllTold(st, policy, probes[..n], worlds[..n]);
      ReconcileAllKeeps(st, policy, probes[..n], worlds[..n]);
      ReconcileOneTold(before, policy, probes[n], worlds[n]);
      ToldTrans(st, before, ReconcileAll(st, policy, probes, worlds).0);
    }
  }

  lemma {:induction false} SuspendVanishedTold(st: Store, present: set<Path>, w: World, order: seq<Path>)
    requires Consistent(st)
    ensures Told(st, SuspendVanished(st, present, w, order))
  {
    if order == [] {
      ToldNothing(st, st);
    } else {
      var n := |order| - 1;
      var before := SuspendVanished(st, present, w, order[..n]);
      SuspendVanishedTold(st, present, w, order[..n]);
      SuspendVanishedKeeps(st, present, w, order[..n]);
      if Vanished(before, present, w, order[n]) {
        SuspendTold(before, order[n]);
        ToldTrans(st, before, SuspendVanished(st, present, w, order));
      }
    }
  }

  /** Whoever reads the mail of a pass knows exactly which names the index then holds
      and which of them are away. */
  lemma PassTold(st: Store, policy: Policy, probes: seq<Probe>, worlds: seq<World>, order: seq<Path>, last: World)
    requires Consistent(st) && |worlds| == |probes|
    ensures Told(st, Pass(st, policy, probes, worlds, order, last).0)
  {
    var swept := ReconcileAll(st, policy, probes, worlds).0;
    ReconcileAllTold(st, policy, probes, worlds);
    ReconcileAllKeeps(st, policy, probes, worlds);
    SuspendVanishedTold(swept, Present(probes), last, order);
    ToldTrans(st, swept, Pass(st, policy, probes, worlds, order, last).0);
  }

  lemma {:induction false} ReadingNeverForgets(v: View, mail: seq<Mail>)
    ensures v.names <= Read(v, mail).names
  {
    if mail != [] {
      ReadingNeverForgets(v, mail[..|mail| - 1]);
    }
  }

  /** Claims are never lost: no pass removes a resource name from the index. */
  lemma PassKeepsNames(st: Store, policy: Policy, probes: seq<Probe>, worlds: seq<World>, order: seq<Path>, last: World)
    requires Consistent(st) && |worlds| == |probes|
    ensures Names(st.inputs) <= Names(Pass(st, policy, probes, worlds, order, last).0.inputs)
  {
    var st' := Pass(st, policy, probes, worlds, order, last).0;
    PassTold(st, policy, probes, worlds, order, last);
    var more :| st'.mail == st.mail + more && Tells(ViewOf(st.inputs), more, ViewOf(st'.inputs));
    ReadingNeverForgets(ViewOf(st.inputs), more);
  }

  // ---- What the clients are told

  /** From `st` to `st'` nothing was said and the list is the same, or the last word
      was the list as it is now. */
  ghost predicate Informed(st: Store, st': Store) {
    || (st'.mail == st.mail && st'.advertised == st.advertised)
    || (|st'.mail| > |st.mail| && st'.mail[|st'.mail| - 1] == Advertise(st'.advertised))
  }

  lemma InformedTrans(a: Store, b: Store, c: Store)
    requires Informed(a, b) && Informed(b, c)
    ensures Informed(a, c)
  {
  }

  lemma AdoptInforms(st: Store, policy: Policy, path: Path, kind: InputClass, w: World)
    ensures Informed(st, AdoptInput(st, policy, path, kind, w).0)
  {
  }

  lemma SuspendInforms(st: Store, path: Path, held: HeldInput)
    ensures Informed(st, SuspendInput(st, path, held))
  {
  }

  lemma ResumeInforms(st: Store, from: Path, path: Path, held: HeldInput, w: World)
    ensures Informed(st, ResumeInput(st, from, path, held, w).0)
  {
  }

  lemma ParkAdoptInforms(st: Store, policy: Policy, path: Path, kind: InputClass, w: World)
    ensures Informed(st, AdoptInput(Park(st, path), policy, path, kind, w).0)
  {
    AdoptInforms(Park(st, path), policy, path, kind, w);
    InformedTrans(st, Park(st, path), AdoptInput(Park(st, path), policy, path, kind, w).0);
  }

  lemma ReconcileOneInforms(st: Store, policy: Policy, probe: Probe, w: World)
    ensures Informed(st, ReconcileOne(st, policy, probe, w).0)
  {
    var path, kind := Node(probe.name), probe.kind;
    if path !in st.inputs {
      match SuspendedPeer(st.inputs, kind, w)
      case Some(from) => ResumeInforms(st, from, path, st.inputs[from], w);
      case None => AdoptInforms(st, policy, path, kind, w);
    } else if path in w.inodes && w.inodes[path] == st.inputs[path].inode {
      assert ReconcileOne(st, policy, probe, w).0 == st;
    } else if MayResume(st.inputs[path], kind) && (st.inputs[path].gone || !KeepsNode(st, path, w)) {
      ResumeInforms(st, path, path, st.inputs[path], w);
    } else if st.inputs[path].gone {
      ParkAdoptInforms(st, policy, path, kind, w);
    } else if !KeepsNode(st, path, w) {
      var suspended := SuspendInput(st, path, st.inputs[path]);
      SuspendInforms(st, path, st.inputs[path]);
      ParkAdoptInforms(suspended, policy, path, kind, w);
      InformedTrans(st, suspended, AdoptInput(Park(suspended, path), policy, path, kind, w).0);
    }
  }

  lemma {:induction false} ReconcileAllInforms(st: Store, policy: Policy, probes: seq<Probe>, worlds: seq<World>)
    requires |worlds| == |probes|
    ensures Informed(st, ReconcileAll(st, policy, probes, worlds).0)
  {
    if probes != [] {
      var n := |probes| - 1;
      var before := ReconcileAll(st, policy, probes[..n], worlds[..n]).0;
      ReconcileAllInforms(st, policy, probes[..n], worlds[..n]);
      ReconcileOneInforms(before, policy, probes[n], worlds[n]);
      InformedTrans(st, before, ReconcileAll(st, policy, probes, worlds).0);
    }
  }

  lemma {:induction false} SuspendVanishedInforms(st: Store, present: set<Path>, w: World, order: seq<Path>)
    ensures Informed(st, SuspendVanished(st, present, w, order))
  {
    if order != [] {
      var n := |order| - 1;
      var before := SuspendVanished(st, present, w, order[..n]);
      SuspendVanishedInforms(st, present, w, order[..n]);
      if Vanished(before, present, w, order[n]) {
        SuspendInforms(before, order[n], before.inputs[order[n]]);
        InformedTrans(st, before, SuspendVanished(st, present, w, order));
      }
    }
  }

  /** Every change is pushed: after a pass that changed the advertised list, the last
      message to the clients is the list as it is now. */
  lemma PassInforms(st: Store, policy: Policy, probes: seq<Probe>, worlds: seq<World>, order: seq<Path>, last: World)
    requires |worlds| == |probes|
    ensures Informed(st, Pass(st, policy, probes, worlds, order, last).0)
  {
    var swept := ReconcileAll(st, policy, probes, worlds).0;
    ReconcileAllInforms(st, policy, probes, worlds);
    SuspendVanishedInforms(swept, Present(probes), last, order);
    InformedTrans(st, swept, Pass(st, policy, probes, worlds, order, last).0);
  }
}
