/** What a pass says and in which order it lists what it offers: the policy of the
    devices it adopts, and the advertised list, whose order is the priority. */
module Lists {
  import opened Types
  import opened Policies
  import Machine
  import opened Inventory
  import opened InventoryLaws

  // ---- The list by itself

  predicate NoDuplicates(list: seq<Resource>) {
    list == [] || (list[0] !in list[1..] && NoDuplicates(list[1..]))
  }

  /** The entries of the list that are in `some`, in their order. */
  function Only(list: seq<Resource>, some: set<Resource>): seq<Resource> {
    if list == [] then []
    else if list[0] in some then [list[0]] + Only(list[1..], some)
    else Only(list[1..], some)
  }

  lemma {:induction false} AppendEffect(list: seq<Resource>, r: Resource, some: set<Resource>)
    requires r !in list
    ensures NoDuplicates(list) ==> NoDuplicates(list + [r])
    ensures r !in some ==> Only(list + [r], some) == Only(list, some)
  {
    if list == [] {
      assert list + [r] == [r] && [r][1..] == [];
    } else {
      assert (list + [r])[0] == list[0] && (list + [r])[1..] == list[1..] + [r];
      AppendEffect(list[1..], r, some);
    }
  }

  /** A resource that is offered goes to the end of the list, behind everything that was
      there, and is there once. */
  lemma OfferedLast(list: seq<Resource>, r: Resource, some: set<Resource>)
    ensures list <= Listed(list, r) && r in Listed(list, r)
    ensures r !in list ==> |Listed(list, r)| == |list| + 1 && Listed(list, r)[|list|] == r
    ensures r in list ==> Listed(list, r) == list
    ensures NoDuplicates(list) ==> NoDuplicates(Listed(list, r))
    ensures r !in some ==> Only(Listed(list, r), some) == Only(list, some)
  {
    if r !in list {
      AppendEffect(list, r, some);
    }
  }

  /** A resource that is taken off the list leaves the others in their order. */
  lemma {:induction false} TakenOff(list: seq<Resource>, r: Resource, some: set<Resource>)
    ensures r !in Unlisted(list, r)
    ensures NoDuplicates(list) ==> NoDuplicates(Unlisted(list, r))
    ensures r !in some ==> Only(Unlisted(list, r), some) == Only(list, some)
  {
    if list != [] {
      TakenOff(list[1..], r, some);
      if list[0] != r {
        assert Unlisted(list, r)[0] == list[0] && Unlisted(list, r)[1..] == Unlisted(list[1..], r);
      }
    }
  }

  // ---- What a pass sends

  /** The messages a pass may send: a list, a device gone or back, or a new device under
      the policy the pass was given. */
  predicate IsPassMail(m: Mail, policy: Policy) {
    match m
    case Advertise(_) => true
    case Command(e) => e.Suspend? || e.Resume? || (e.Offer? && e.policy == policy)
  }

  predicate Mentions(m: Mail, some: set<Resource>) {
    m.Command? && (m.event.Suspend? || m.event.Resume? || m.event.Offer?) && m.event.resource in some
  }

  /** From `st` to `st'` only pass mail was added, and the list has kept, unless the mail
      says otherwise, the order of the resources in `some`. */
  ghost predicate Tidy(st: Store, st': Store, policy: Policy, some: set<Resource>) {
    && st.mail <= st'.mail
    && (forall i | |st.mail| <= i < |st'.mail| :: IsPassMail(st'.mail[i], policy))
    && (NoDuplicates(st.advertised) ==> NoDuplicates(st'.advertised))
    && ((forall i | |st.mail| <= i < |st'.mail| :: !Mentions(st'.mail[i], some)) ==>
          Only(st'.advertised, some) == Only(st.advertised, some))
  }

  lemma TidyTrans(a: Store, b: Store, c: Store, policy: Policy, some: set<Resource>)
    requires Tidy(a, b, policy, some) && Tidy(b, c, policy, some)
    ensures Tidy(a, c, policy, some)
  {
    forall i | 0 <= i < |b.mail| ensures c.mail[i] == b.mail[i] {
    }
  }

  lemma AdoptTidy(st: Store, policy: Policy, path: Path, kind: InputClass, w: World, some: set<Resource>)
    ensures Tidy(st, AdoptInput(st, policy, path, kind, w).0, policy, some)
  {
    var i, st' := FreeIndex(st.inputs, kind), AdoptInput(st, policy, path, kind, w).0;
    if i.Some? && path in w.opens {
      OfferedLast(st.advertised, NameOf(kind, i.value), some);
      assert st'.mail[|st.mail|] == Command(Machine.Offer(NameOf(kind, i.value), policy));
    }
  }

  lemma SuspendTidy(st: Store, path: Path, held: HeldInput, policy: Policy, some: set<Resource>)
    ensures Tidy(st, SuspendInput(st, path, held), policy, some)
  {
    TakenOff(st.advertised, held.resource, some);
    assert SuspendInput(st, path, held).mail[|st.mail|] == Command(Machine.Suspend(held.resource));
  }

  lemma ResumeTidy(st: Store, from: Path, path: Path, held: HeldInput, w: World, policy: Policy, some: set<Resource>)
    ensures Tidy(st, ResumeInput(st, from, path, held, w).0, policy, some)
  {
    if path in w.opens {
      OfferedLast(st.advertised, held.resource, some);
      assert ResumeInput(st, from, path, held, w).0.mail[|st.mail|] == Command(Machine.Resume(held.resource));
    }
  }

  lemma ParkAdoptTidy(st: Store, policy: Policy, path: Path, kind: InputClass, w: World, some: set<Resource>)
    ensures Tidy(st, AdoptInput(Park(st, path), policy, path, kind, w).0, policy, some)
  {
    AdoptTidy(Park(st, path), policy, path, kind, w, some);
    TidyTrans(st, Park(st, path), AdoptInput(Park(st, path), policy, path, kind, w).0, policy, some);
  }

  lemma ReconcileOneTidy(st: Store, policy: Policy, probe: Probe, w: World, some: set<Resource>)
    ensures Tidy(st, ReconcileOne(st, policy, probe, w).0, policy, some)
  {
    var path, kind := Node(probe.name), probe.kind;
    if path !in st.inputs {
      match SuspendedPeer(st.inputs, kind, w)
      case Some(from) => ResumeTidy(st, from, path, st.inputs[from], w, policy, some);
      case None => AdoptTidy(st, policy, path, kind, w, some);
    } else if path in w.inodes && w.inodes[path] == st.inputs[path].inode {
      assert ReconcileOne(st, policy, probe, w).0 == st;
    } else if MayResume(st.inputs[path], kind) && (st.inputs[path].gone || !KeepsNode(st, path, w)) {
      ResumeTidy(st, path, path, st.inputs[path], w, policy, some);
    } else if st.inputs[path].gone {
      ParkAdoptTidy(st, policy, path, kind, w, some);
    } else if !KeepsNode(st, path, w) {
      var suspended := SuspendInput(st, path, st.inputs[path]);
      SuspendTidy(st, path, st.inputs[path], policy, some);
      ParkAdoptTidy(suspended, policy, path, kind, w, some);
      TidyTrans(st, suspended, AdoptInput(Park(suspended, path), policy, path, kind, w).0, policy, some);
    }
  }

  lemma {:induction false} ReconcileAllTidy(
    st: Store, policy: Policy, probes: seq<Probe>, worlds: seq<World>, some: set<Resource>)
    requires |worlds| == |probes|
    ensures Tidy(st, ReconcileAll(st, policy, probes, worlds).0, policy, some)
  {
    if probes != [] {
      var n := |probes| - 1;
      var before := ReconcileAll(st, policy, probes[..n], worlds[..n]).0;
      ReconcileAllTidy(st, policy, probes[..n], worlds[..n], some);
      ReconcileOneTidy(before, policy, probes[n], worlds[n], some);
      TidyTrans(st, before, ReconcileAll(st, policy, probes, worlds).0, policy, some);
    }
  }

  lemma {:induction false} SuspendVanishedTidy(
    st: Store, present: set<Path>, w: World, order: seq<Path>, policy: Policy, some: set<Resource>)
    ensures Tidy(st, SuspendVanished(st, present, w, order), policy, some)
  {
    if order != [] {
      var n := |order| - 1;
      var before := SuspendVanished(st, present, w, order[..n]);
      SuspendVanishedTidy(st, present, w, order[..n], policy, some);
      if Vanished(before, present, w, order[n]) {
        SuspendTidy(before, order[n], before.inputs[order[n]], policy, some);
        TidyTrans(st, before, SuspendVanished(st, present, w, order), policy, some);
      }
    }
  }

  /** A pass offers new devices under the policy it was given and sends nothing but lists,
      offers, suspends and resumes. No resource comes to be listed twice, and those the
      pass does not mention keep their order. */
  lemma PassTidy(
    st: Store, policy: Policy, probes: seq<Probe>, worlds: seq<World>, order: seq<Path>, last: World,
    some: set<Resource>)
    requires |worlds| == |probes|
    ensures Tidy(st, Pass(st, policy, probes, worlds, order, last).0, policy, some)
  {
    var swept := ReconcileAll(st, policy, probes, worlds).0;
    ReconcileAllTidy(st, policy, probes, worlds, some);
    SuspendVanishedTidy(swept, Present(probes), last, order, policy, some);
    TidyTrans(st, swept, Pass(st, policy, probes, worlds, order, last).0, policy, some);
  }
}
