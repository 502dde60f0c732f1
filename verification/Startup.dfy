/** Startup: the devices found at boot are numbered per class by 8-bit counters, in
    enumeration order, and every one that opens is registered. */
module Startup {
  import opened Types
  import opened Inventory
  import opened InventoryLaws

  /** How many of the probed devices before the i-th are of its class. */
  function Ordinal(probes: seq<Probe>, i: nat, kind: InputClass): nat
    requires i <= |probes|
  {
    if i == 0 then 0
    else Ordinal(probes, i - 1, kind) + if probes[i - 1].kind == kind then 1 else 0
  }

  /** ... as an 8-bit counter has it. */
  function Number(probes: seq<Probe>, i: nat, kind: InputClass): Index
    requires i <= |probes|
  {
    Ordinal(probes, i, kind) % 256
  }

  function Bump(n: Index): Index {
    if n == 255 then 0 else n + 1
  }

  lemma NumberNext(probes: seq<Probe>, i: nat, kind: InputClass)
    requires i < |probes|
    ensures Number(probes, i + 1, kind) ==
      if probes[i].kind == kind then Bump(Number(probes, i, kind)) else Number(probes, i, kind)
  {
  }

  /** The name the i-th device gets. */
  function StartupName(probes: seq<Probe>, i: nat): Resource
    requires i < |probes|
  {
    NameOf(probes[i].kind, Number(probes, i, probes[i].kind))
  }

  /** Number the devices. The counters wrap. */
  method Discover(probes: seq<Probe>) returns (names: seq<Resource>)
    ensures |names| == |probes|
    ensures forall i | 0 <= i < |probes| :: names[i] == StartupName(probes, i)
  {
    var mouse: Index, keyboard: Index, touch: Index := 0, 0, 0;
    names := [];
    for i := 0 to |probes|
      invariant |names| == i
      invariant forall j | 0 <= j < i :: names[j] == StartupName(probes, j)
      invariant mouse == Number(probes, i, MouseClass)
      invariant keyboard == Number(probes, i, KeyboardClass)
      invariant touch == Number(probes, i, TouchClass)
    {
      NumberNext(probes, i, MouseClass);
      NumberNext(probes, i, KeyboardClass);
      NumberNext(probes, i, TouchClass);
      match probes[i].kind {
        case MouseClass =>
          names, mouse := names + [NameOf(MouseClass, mouse)], Bump(mouse);
        case KeyboardClass =>
          names, keyboard := names + [NameOf(KeyboardClass, keyboard)], Bump(keyboard);
        case TouchClass =>
          names, touch := names + [NameOf(TouchClass, touch)], Bump(touch);
      }
    }
  }

  predicate Opens(probes: seq<Probe>, worlds: seq<World>, i: nat)
    requires i < |probes| == |worlds|
  {
    Node(probes[i].name) in worlds[i].opens
  }

  /** The store after the first `n` devices. */
  function Register(st: Store, probes: seq<Probe>, worlds: seq<World>, n: nat): Store
    requires n <= |probes| == |worlds|
  {
    if n == 0 then st
    else
      var before, i := Register(st, probes, worlds, n - 1), n - 1;
      if !Opens(probes, worlds, i) then before
      else
        var path, r := Node(probes[i].name), StartupName(probes, i);
        var o := worlds[i].opens[path];
        before.(fds := before.fds[r := o.fd], advertised := before.advertised + [r],
                inputs := before.inputs[path := Entry(r, o)])
  }

  /** Open and register the devices, each against the world as it is then. */
  method OpenDevices(st: Store, probes: seq<Probe>, worlds: seq<World>) returns (boot: Store)
    requires |worlds| == |probes|
    ensures boot == Register(st, probes, worlds, |probes|)
  {
    var names := Discover(probes);
    boot := st;
    for i := 0 to |probes|
      invariant boot == Register(st, probes, worlds, i)
    {
      var path := Node(probes[i].name);
      if path in worlds[i].opens {
        var o := worlds[i].opens[path];
        boot := Store(boot.fds[names[i] := o.fd], boot.inputs[path := Entry(names[i], o)],
                        boot.advertised + [names[i]], boot.mail);
      }
    }
  }

  /** Before the inputs are opened: no input anywhere. */
  ghost predicate NoInputs(st: Store) {
    && st.inputs == map[] && st.mail == []
    && (forall r | r in st.fds :: !r.Input?)
    && (forall r | r in st.advertised :: !r.Input?)
  }

  ghost predicate DistinctNodes(probes: seq<Probe>) {
    forall i, j | 0 <= i < j < |probes| :: probes[i].name != probes[j].name
  }

  /** Two devices of one class whose numbers agree in eight bits, both opened. */
  ghost predicate Clash(probes: seq<Probe>, worlds: seq<World>, i: nat, j: nat)
    requires |worlds| == |probes|
  {
    && i < j < |probes| && Opens(probes, worlds, i) && Opens(probes, worlds, j)
    && probes[i].kind == probes[j].kind
    && Number(probes, i, probes[i].kind) == Number(probes, j, probes[j].kind)
  }

  // ---- What startup registers

  ghost predicate IsNodeOf(probes: seq<Probe>, worlds: seq<World>, p: Path, i: nat)
    requires |worlds| == |probes|
  {
    i < |probes| && p == Node(probes[i].name) && Opens(probes, worlds, i)
  }

  ghost predicate Registered(st: Store, probes: seq<Probe>, worlds: seq<World>, i: nat)
    requires i < |probes| == |worlds| && Opens(probes, worlds, i)
  {
    var p, r := Node(probes[i].name), StartupName(probes, i);
    && p in st.inputs && r in st.fds && r in st.advertised
    && st.inputs[p] == HeldInput(r, worlds[i].opens[p].inode, worlds[i].opens[p].device, false)
  }

  ghost predicate HasNodes(st: Store, probes: seq<Probe>, worlds: seq<World>, n: nat)
    requires n <= |probes| == |worlds|
  {
    && (forall i: nat | i < n && Opens(probes, worlds, i) :: Registered(st, probes, worlds, i))
    && (forall p | p in st.inputs :: exists i: nat :: i < n && IsNodeOf(probes, worlds, p, i))
  }

  /** One more device: the old ones stay as they are and its node is new. */
  lemma RegisterOne(before: Store, s: Store, probes: seq<Probe>, worlds: seq<World>, n: nat)
    requires n < |probes| == |worlds| && DistinctNodes(probes) && HasNodes(before, probes, worlds, n) &&
      Opens(probes, worlds, n)
    requires var path, r := Node(probes[n].name), StartupName(probes, n);
      var o := worlds[n].opens[path];
      s == Store(before.fds[r := o.fd], before.inputs[path := Entry(r, o)], before.advertised + [r], before.mail)
    ensures Node(probes[n].name) !in before.inputs
    ensures HasNodes(s, probes, worlds, n + 1)
  {
    forall i: nat | i < n + 1 && Opens(probes, worlds, i) ensures Registered(s, probes, worlds, i) {
      if i < n {
        assert Registered(before, probes, worlds, i);
        assert probes[i].name != probes[n].name;
      }
    }
    forall p | p in s.inputs ensures exists i: nat :: i < n + 1 && IsNodeOf(probes, worlds, p, i) {
      if p in before.inputs {
        var i: nat :| i < n && IsNodeOf(probes, worlds, p, i);
        assert i < n + 1 && IsNodeOf(probes, worlds, p, i);
      } else {
        assert n < n + 1 && IsNodeOf(probes, worlds, p, n);
      }
    }
  }

  /** A device that does not open changes nothing. */
  lemma RegisterNone(s: Store, probes: seq<Probe>, worlds: seq<World>, n: nat)
    requires n < |probes| == |worlds| && HasNodes(s, probes, worlds, n) && !Opens(probes, worlds, n)
    ensures HasNodes(s, probes, worlds, n + 1)
  {
    forall p | p in s.inputs ensures exists i: nat :: i < n + 1 && IsNodeOf(probes, worlds, p, i) {
      var i: nat :| i < n && IsNodeOf(probes, worlds, p, i);
      assert i < n + 1 && IsNodeOf(probes, worlds, p, i);
    }
  }

  lemma RegisterStep(st: Store, probes: seq<Probe>, worlds: seq<World>, n: nat)
    requires n < |probes| == |worlds| && DistinctNodes(probes)
    requires HasNodes(Register(st, probes, worlds, n), probes, worlds, n)
    ensures HasNodes(Register(st, probes, worlds, n + 1), probes, worlds, n + 1)
    ensures Register(st, probes, worlds, n + 1).mail == Register(st, probes, worlds, n).mail
  {
    var before, s := Register(st, probes, worlds, n), Register(st, probes, worlds, n + 1);
    if Opens(probes, worlds, n) {
      RegisterOne(before, s, probes, worlds, n);
    } else {
      RegisterNone(before, probes, worlds, n);
    }
  }

  ghost predicate RegisteredUpTo(st: Store, probes: seq<Probe>, worlds: seq<World>, n: nat) {
    && n <= |probes| == |worlds|
    && HasNodes(Register(st, probes, worlds, n), probes, worlds, n) && Register(st, probes, worlds, n).mail == []
  }

  lemma RegisterNothing(st: Store, probes: seq<Probe>, worlds: seq<World>)
    requires NoInputs(st) && |probes| == |worlds|
    ensures RegisteredUpTo(st, probes, worlds, 0)
  {
  }

  lemma RegisterNext(st: Store, probes: seq<Probe>, worlds: seq<World>, m: nat, n: nat)
    requires RegisteredUpTo(st, probes, worlds, m) && n == m + 1 <= |probes| && DistinctNodes(probes)
    ensures RegisteredUpTo(st, probes, worlds, n)
  {
    RegisterStep(st, probes, worlds, m);
  }

  lemma {:induction false} AllHold(holds: seq<bool>, n: nat)
    requires n < |holds| && holds[0] && forall k | 0 <= k < |holds| - 1 && holds[k] :: holds[k + 1]
    ensures holds[n]
  {
    if n > 0 {
      AllHold(holds, n - 1);
      assert holds[n - 1 + 1];
    }
  }

  /** Every opened device is registered under its name, and nothing else is. */
  lemma RegisterAll(st: Store, probes: seq<Probe>, worlds: seq<World>, n: nat)
    requires NoInputs(st) && n <= |probes| == |worlds| && DistinctNodes(probes)
    ensures HasNodes(Register(st, probes, worlds, n), probes, worlds, n)
    ensures Register(st, probes, worlds, n).mail == []
  {
    var holds := seq(n + 1, k requires 0 <= k <= n => RegisteredUpTo(st, probes, worlds, k));
    RegisterNothing(st, probes, worlds);
    forall k | 0 <= k < n && holds[k] ensures holds[k + 1] {
      RegisterNext(st, probes, worlds, k, k + 1);
    }
    AllHold(holds, n);
    assert RegisteredUpTo(st, probes, worlds, n);
  }

  lemma OfferOne(before: Store, s: Store, path: Path, r: Resource, o: Opened)
    requires OfferedIsHeld(before) && path !in before.inputs
    requires s == Store(before.fds[r := o.fd], before.inputs[path := Entry(r, o)], before.advertised + [r], before.mail)
    ensures OfferedIsHeld(s)
  {
    forall q | q in Names(before.inputs) ensures q in Names(s.inputs) {
      var p :| p in before.inputs && before.inputs[p].resource == q;
      assert p in s.inputs && s.inputs[p].resource == q;
    }
    NamesHas(s.inputs, path);
  }

  lemma NodeIsNew(st: Store, probes: seq<Probe>, worlds: seq<World>, n: nat)
    requires NoInputs(st) && n < |probes| == |worlds| && DistinctNodes(probes)
    ensures Node(probes[n].name) !in Register(st, probes, worlds, n).inputs
  {
    RegisterAll(st, probes, worlds, n);
  }

  /** ... and every input fd and every advertised input is one of them. */
  lemma {:induction false} RegisterOffers(st: Store, probes: seq<Probe>, worlds: seq<World>, n: nat)
    requires NoInputs(st) && n <= |probes| == |worlds| && DistinctNodes(probes)
    ensures OfferedIsHeld(Register(st, probes, worlds, n))
  {
    if n > 0 {
      RegisterOffers(st, probes, worlds, n - 1);
      if Opens(probes, worlds, n - 1) {
        var path := Node(probes[n - 1].name);
        NodeIsNew(st, probes, worlds, n - 1);
        OfferOne(Register(st, probes, worlds, n - 1), Register(st, probes, worlds, n), path,
                 StartupName(probes, n - 1), worlds[n - 1].opens[path]);
      }
    }
  }

  lemma EntryIsOffered(s: Store, probes: seq<Probe>, worlds: seq<World>, p: Path)
    requires |worlds| == |probes| && HasNodes(s, probes, worlds, |probes|) && p in s.inputs
    ensures p.Node? && s.inputs[p].resource.Input? && !s.inputs[p].gone
    ensures s.inputs[p].resource in s.fds && s.inputs[p].resource in s.advertised
  {
    var i: nat :| i < |probes| && IsNodeOf(probes, worlds, p, i);
    assert Registered(s, probes, worlds, i);
  }

  lemma LiveOffered(s: Store, probes: seq<Probe>, worlds: seq<World>)
    requires |worlds| == |probes| && HasNodes(s, probes, worlds, |probes|)
    ensures LiveIsOffered(s) && GoneIsNotOffered(s) && Keyed(s.inputs)
  {
    forall p | p in s.inputs
      ensures && p.Node? && s.inputs[p].resource.Input? && !s.inputs[p].gone
              && s.inputs[p].resource in s.fds && s.inputs[p].resource in s.advertised
    {
      EntryIsOffered(s, probes, worlds, p);
    }
  }

  lemma ClashShares(s: Store, probes: seq<Probe>, worlds: seq<World>, i: nat, j: nat)
    requires |worlds| == |probes| && DistinctNodes(probes) && HasNodes(s, probes, worlds, |probes|)
    requires Clash(probes, worlds, i, j)
    ensures !OneEntryPerResource(s.inputs)
  {
    assert Registered(s, probes, worlds, i) && Registered(s, probes, worlds, j);
    assert probes[i].name != probes[j].name;
  }

  lemma SameNameClashes(probes: seq<Probe>, worlds: seq<World>, i: nat, j: nat)
    requires i < j < |probes| == |worlds| && Opens(probes, worlds, i) && Opens(probes, worlds, j)
    requires StartupName(probes, i) == StartupName(probes, j)
    ensures Clash(probes, worlds, i, j)
  {
  }

  lemma NodeOf(s: Store, probes: seq<Probe>, worlds: seq<World>, p: Path) returns (i: nat)
    requires |worlds| == |probes| && HasNodes(s, probes, worlds, |probes|) && p in s.inputs
    ensures i < |probes| && IsNodeOf(probes, worlds, p, i) && s.inputs[p].resource == StartupName(probes, i)
  {
    i :| i < |probes| && IsNodeOf(probes, worlds, p, i);
    assert Registered(s, probes, worlds, i);
  }

  lemma SharedNameIsClash(s: Store, probes: seq<Probe>, worlds: seq<World>, p: Path, q: Path) returns (i: nat, j: nat)
    requires |worlds| == |probes| && HasNodes(s, probes, worlds, |probes|)
    requires p in s.inputs && q in s.inputs && p != q && s.inputs[p].resource == s.inputs[q].resource
    ensures Clash(probes, worlds, i, j)
  {
    i := NodeOf(s, probes, worlds, p);
    j := NodeOf(s, probes, worlds, q);
    if j < i {
      i, j := j, i;
    }
    SameNameClashes(probes, worlds, i, j);
  }

  /** The startup state is consistent exactly when no two opened devices of a class
      get the same 8-bit number. */
  lemma StartupConsistentIff(st: Store, probes: seq<Probe>, worlds: seq<World>)
    requires NoInputs(st) && |worlds| == |probes| && DistinctNodes(probes)
    ensures Consistent(Register(st, probes, worlds, |probes|)) <==>
      forall i: nat, j: nat :: !Clash(probes, worlds, i, j)
  {
    var s := Register(st, probes, worlds, |probes|);
    RegisterAll(st, probes, worlds, |probes|);
    RegisterOffers(st, probes, worlds, |probes|);
    LiveOffered(s, probes, worlds);
    forall i: nat, j: nat | Clash(probes, worlds, i, j) ensures !Consistent(s) {
      ClashShares(s, probes, worlds, i, j);
    }
    forall p, q | p in s.inputs && q in s.inputs && p != q && s.inputs[p].resource == s.inputs[q].resource
      ensures exists i: nat, j: nat :: Clash(probes, worlds, i, j)
    {
      var i, j := SharedNameIsClash(s, probes, worlds, p, q);
    }
  }

  // ---- Numbers, fds and order

  ghost function OfClassBefore(probes: seq<Probe>, i: nat, kind: InputClass): set<nat>
    requires i <= |probes|
  {
    set j: nat | j < i && probes[j].kind == kind
  }

  lemma OneMoreOfClass(probes: seq<Probe>, i: nat, kind: InputClass)
    requires i < |probes|
    ensures |OfClassBefore(probes, i + 1, kind)| ==
            |OfClassBefore(probes, i, kind)| + (if probes[i].kind == kind then 1 else 0)
  {
    var before := OfClassBefore(probes, i, kind);
    assert OfClassBefore(probes, i + 1, kind) == if probes[i].kind == kind then before + {i} else before;
  }

  /** The number of a device is how many devices of its class come before it. */
  lemma {:induction false} OrdinalCounts(probes: seq<Probe>, i: nat, kind: InputClass)
    requires i <= |probes|
    ensures Ordinal(probes, i, kind) == |OfClassBefore(probes, i, kind)|
  {
    if i == 0 {
      assert OfClassBefore(probes, 0, kind) == {};
    } else {
      OrdinalCounts(probes, i - 1, kind);
      OneMoreOfClass(probes, i - 1, kind);
    }
  }

  /** The fd under a name is that of the last opened device that got the name; the fds of
      the displays are not touched. */
  lemma {:induction false} RegisterFds(st: Store, probes: seq<Probe>, worlds: seq<World>, n: nat, i: nat)
    requires i < n <= |probes| == |worlds| && Opens(probes, worlds, i)
    requires forall j: nat | i < j < n && Opens(probes, worlds, j) :: StartupName(probes, j) != StartupName(probes, i)
    ensures var r, s := StartupName(probes, i), Register(st, probes, worlds, n);
      r in s.fds && s.fds[r] == worlds[i].opens[Node(probes[i].name)].fd
  {
    if i < n - 1 {
      RegisterFds(st, probes, worlds, n - 1, i);
    }
  }

  lemma {:induction false} RegisterKeepsDisplays(st: Store, probes: seq<Probe>, worlds: seq<World>, n: nat, r: Resource)
    requires n <= |probes| == |worlds| && !r.Input?
    ensures var s := Register(st, probes, worlds, n);
      (r in s.fds <==> r in st.fds) && (r in st.fds ==> s.fds[r] == st.fds[r])
  {
    if n > 0 {
      RegisterKeepsDisplays(st, probes, worlds, n - 1, r);
    }
  }

  ghost function OpenedBefore(probes: seq<Probe>, worlds: seq<World>, i: nat): set<nat>
    requires i <= |probes| == |worlds|
  {
    set j: nat | j < i && Opens(probes, worlds, j)
  }

  lemma OpenedOneMore(probes: seq<Probe>, worlds: seq<World>, i: nat)
    requires i < |probes| == |worlds|
    ensures |OpenedBefore(probes, worlds, i + 1)| ==
            |OpenedBefore(probes, worlds, i)| + (if Opens(probes, worlds, i) then 1 else 0)
  {
    var before := OpenedBefore(probes, worlds, i);
    assert OpenedBefore(probes, worlds, i + 1) == if Opens(probes, worlds, i) then before + {i} else before;
  }

  lemma {:induction false} ListLength(st: Store, probes: seq<Probe>, worlds: seq<World>, n: nat)
    requires n <= |probes| == |worlds|
    ensures |Register(st, probes, worlds, n).advertised| == |st.advertised| + |OpenedBefore(probes, worlds, n)|
  {
    if n == 0 {
      assert OpenedBefore(probes, worlds, 0) == {};
    } else {
      ListLength(st, probes, worlds, n - 1);
      OpenedOneMore(probes, worlds, n - 1);
    }
  }

  /** The list is in priority order: the displays as they were, then the opened inputs in
      the order in which they were found. */
  lemma {:induction false} RegisterOrder(st: Store, probes: seq<Probe>, worlds: seq<World>, n: nat, i: nat)
    requires i < n <= |probes| == |worlds| && Opens(probes, worlds, i)
    ensures var list := Register(st, probes, worlds, n).advertised;
      var at := |st.advertised| + |OpenedBefore(probes, worlds, i)|;
      st.advertised <= list && at < |list| && list[at] == StartupName(probes, i)
  {
    ListLength(st, probes, worlds, i);
    if i == n - 1 {
      ListKeepsPrefix(st, probes, worlds, i);
    } else {
      RegisterOrder(st, probes, worlds, n - 1, i);
    }
  }

  lemma {:induction false} ListKeepsPrefix(st: Store, probes: seq<Probe>, worlds: seq<World>, n: nat)
    requires n <= |probes| == |worlds|
    ensures st.advertised <= Register(st, probes, worlds, n).advertised
  {
    if n > 0 {
      ListKeepsPrefix(st, probes, worlds, n - 1);
    }
  }

  lemma {:induction false} OrdinalGrows(probes: seq<Probe>, i: nat, j: nat, kind: InputClass)
    requires i <= j <= |probes|
    ensures Ordinal(probes, i, kind) <= Ordinal(probes, j, kind) <= Ordinal(probes, i, kind) + (j - i)
  {
    if i < j {
      OrdinalGrows(probes, i, j - 1, kind);
    }
  }

  lemma FewDoNotClash(probes: seq<Probe>, worlds: seq<World>, i: nat, j: nat)
    requires |worlds| == |probes| && forall kind :: Ordinal(probes, |probes|, kind) <= 256
    ensures !Clash(probes, worlds, i, j)
  {
    if i < j < |probes| && probes[i].kind == probes[j].kind {
      var kind := probes[i].kind;
      OrdinalGrows(probes, i + 1, j, kind);
      OrdinalGrows(probes, j + 1, |probes|, kind);
      assert Ordinal(probes, i, kind) < Ordinal(probes, j, kind) < 256;
    }
  }

  /** With at most 256 devices in each class startup is consistent. */
  lemma FewDevicesAreConsistent(st: Store, probes: seq<Probe>, worlds: seq<World>)
    requires NoInputs(st) && |worlds| == |probes| && DistinctNodes(probes)
    requires forall kind :: Ordinal(probes, |probes|, kind) <= 256
    ensures Consistent(Register(st, probes, worlds, |probes|))
  {
    StartupConsistentIff(st, probes, worlds);
    forall i: nat, j: nat ensures !Clash(probes, worlds, i, j) {
      FewDoNotClash(probes, worlds, i, j);
    }
  }

  function Mice(n: nat): (probes: seq<Probe>)
    ensures |probes| == n && forall i | 0 <= i < n :: probes[i].kind == MouseClass && |probes[i].name| == i
  {
    if n == 0 then [] else Mice(n - 1) + [Probe(seq(n - 1, _ => '#'), MouseClass)]
  }

  lemma {:induction false} MiceOrdinal(n: nat, i: nat)
    requires i <= n
    ensures Ordinal(Mice(n), i, MouseClass) == i
  {
    if i > 0 {
      MiceOrdinal(n, i - 1);
    }
  }

  lemma MiceClash(n: nat, worlds: seq<World>)
    requires 257 <= n == |worlds| && forall i: nat | i < n :: Opens(Mice(n), worlds, i)
    ensures DistinctNodes(Mice(n)) && Clash(Mice(n), worlds, 0, 256)
  {
    MiceOrdinal(n, 0);
    MiceOrdinal(n, 256);
    assert Number(Mice(n), 0, MouseClass) == 0 == Number(Mice(n), 256, MouseClass);
  }

  /** One mouse too many: the 257th takes the name of the first, so one name has two
      index entries. */
  lemma TwoMiceOneName(n: nat, worlds: seq<World>, st: Store)
    requires NoInputs(st) && 257 <= n == |worlds| && forall i: nat | i < n :: Opens(Mice(n), worlds, i)
    ensures !OneEntryPerResource(Register(st, Mice(n), worlds, n).inputs)
  {
    MiceClash(n, worlds);
    RegisterAll(st, Mice(n), worlds, n);
    ClashShares(Register(st, Mice(n), worlds, n), Mice(n), worlds, 0, 256);
  }
}
