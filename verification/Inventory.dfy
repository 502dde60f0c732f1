/** The input devices the daemon holds, seen from three sides: the fds it grants
    from, the devnode index, and the advertised list; and the transitions that move
    them together. Device I/O is an arbitrary `World`. */
module Inventory {
  import opened Types
  import opened Policies
  import Machine

  datatype Inode = Inode(dev: nat, ino: nat)

  type Sysfs = string

  type Fd = nat

  /** A devnode, or the key under which the entry of a device that lost its node is
      parked (`<suspended>/` and the resource's name; resource names are distinct). */
  datatype Path = Node(name: string) | Placeholder(resource: Resource)

  datatype HeldInput = HeldInput(resource: Resource, inode: Inode, device: Option<Sysfs>, gone: bool)

  /** A successful open: the fd, the inode behind it, the device behind the node. */
  datatype Opened = Opened(fd: Fd, inode: Inode, device: Option<Sysfs>)

  /** What the file system answers while one device is looked at: the inodes of the
      paths that exist, the sysfs device behind each node, the sysfs devices that
      exist, and the nodes that would open. Nothing ties the answers together. */
  datatype World = World(
    inodes: map<Path, Inode>, sysfs: map<Path, Sysfs>, devices: set<Sysfs>, opens: map<Path, Opened>)

  datatype Probe = Probe(name: string, kind: InputClass)

  datatype Mail = Command(event: Machine.Event) | Advertise(available: seq<Resource>)

  /** Everything a reconcile pass reads and writes, and the mail it sends. */
  datatype Store = Store(
    fds: map<Resource, Fd>, inputs: map<Path, HeldInput>, advertised: seq<Resource>, mail: seq<Mail>)

  // ---- Names

  function ClassOfInput(input: InputResource): InputClass {
    match input
    case Mouse(_) => MouseClass
    case Keyboard(_) => KeyboardClass
    case Touch(_) => TouchClass
  }

  function NameOf(kind: InputClass, i: Index): Resource {
    match kind
    case MouseClass => Input(Mouse(i))
    case KeyboardClass => Input(Keyboard(i))
    case TouchClass => Input(Touch(i))
  }

  predicate IsOfClass(r: Resource, kind: InputClass) {
    r.Input? && ClassOfInput(r.input) == kind
  }

  predicate MayResume(held: HeldInput, kind: InputClass) {
    IsOfClass(held.resource, kind)
  }

  /** The resources with an index entry, and those whose device is gone. */
  ghost function Names(inputs: map<Path, HeldInput>): set<Resource> {
    set p | p in inputs :: inputs[p].resource
  }

  ghost function GoneNames(inputs: map<Path, HeldInput>): set<Resource> {
    set p | p in inputs && inputs[p].gone :: inputs[p].resource
  }

  // ---- The advertised list

  function Listed(list: seq<Resource>, r: Resource): seq<Resource> {
    if r in list then list else list + [r]
  }

  function Unlisted(list: seq<Resource>, r: Resource): (l: seq<Resource>)
    ensures forall q :: q in l <==> q in list && q != r
  {
    if list == [] then []
    else
      assert list == [list[0]] + list[1..];
      if list[0] == r then Unlisted(list[1..], r) else [list[0]] + Unlisted(list[1..], r)
  }

  // ---- Queries

  predicate IsFree(inputs: map<Path, HeldInput>, kind: InputClass, i: Index) {
    forall p | p in inputs :: inputs[p].resource != NameOf(kind, i)
  }

  /** The least index of a class, from `i` up, that no held device uses. */
  function FreeIndexFrom(inputs: map<Path, HeldInput>, kind: InputClass, i: nat): (r: Option<Index>)
    requires i <= 256
    ensures r.Some? ==> i <= r.value && IsFree(inputs, kind, r.value)
    ensures r.Some? ==> forall j: Index | i <= j < r.value :: !IsFree(inputs, kind, j)
    ensures r.None? ==> forall j: Index | i <= j :: !IsFree(inputs, kind, j)
    decreases 256 - i
  {
    if i == 256 then None
    else if IsFree(inputs, kind, i) then Some(i)
    else FreeIndexFrom(inputs, kind, i + 1)
  }

  function FreeIndex(inputs: map<Path, HeldInput>, kind: InputClass): Option<Index> {
    FreeIndexFrom(inputs, kind, 0)
  }

  /** A suspended resource of the class whose node is really gone. */
  predicate IsPeer(inputs: map<Path, HeldInput>, kind: InputClass, w: World, p: Path) {
    p in inputs && inputs[p].gone && IsOfClass(inputs[p].resource, kind) && p !in w.inodes
  }

  /** ... and of those, the one with the lowest name. */
  predicate IsLowestPeer(inputs: map<Path, HeldInput>, kind: InputClass, w: World, p: Path) {
    && IsPeer(inputs, kind, w, p)
    && forall q | q in inputs :: IsPeer(inputs, kind, w, q) ==>
      inputs[p].resource.input.index <= inputs[q].resource.input.index
  }

  ghost function SuspendedPeer(inputs: map<Path, HeldInput>, kind: InputClass, w: World): (peer: Option<Path>)
    ensures peer.Some? ==> IsLowestPeer(inputs, kind, w, peer.value)
  {
    if exists p :: IsLowestPeer(inputs, kind, w, p) then
      var p :| IsLowestPeer(inputs, kind, w, p); Some(p)
    else None
  }

  predicate SameDevice(path: Path, held: HeldInput, w: World) {
    held.device.Some? && path in w.sysfs && held.device.value == w.sysfs[path]
  }

  predicate DeviceExists(held: HeldInput, w: World) {
    held.device.Some? && held.device.value in w.devices
  }

  // ---- Transitions

  function Push(st: Store): Store {
    st.(mail := st.mail + [Advertise(st.advertised)])
  }

  function Tell(st: Store, e: Machine.Event): Store {
    st.(mail := st.mail + [Command(e)])
  }

  function Entry(r: Resource, o: Opened): HeldInput {
    HeldInput(r, o.inode, o.device, false)
  }

  function ReopenInput(st: Store, path: Path, r: Resource, w: World): (Store, bool) {
    if path !in w.opens then (st, false)
    else
      var o := w.opens[path];
      (st.(fds := st.fds[r := o.fd], inputs := st.inputs[path := Entry(r, o)]), true)
  }

  function AdoptInput(st: Store, policy: Policy, path: Path, kind: InputClass, w: World): (Store, bool) {
    var i := FreeIndex(st.inputs, kind);
    if i.None? || path !in w.opens then (st, false)
    else
      var r, o := NameOf(kind, i.value), w.opens[path];
      var held := Store(st.fds[r := o.fd], st.inputs[path := Entry(r, o)], Listed(st.advertised, r), st.mail);
      (Push(Tell(held, Machine.Offer(r, policy))), true)
  }

  function SuspendInput(st: Store, path: Path, held: HeldInput): Store {
    var r := held.resource;
    var told := Tell(st.(advertised := Unlisted(st.advertised, r)), Machine.Suspend(r));
    Push(told.(fds := told.fds - {r}, inputs := told.inputs[path := held.(gone := true)]))
  }

  function ResumeInput(st: Store, oldPath: Path, path: Path, held: HeldInput, w: World): (Store, bool) {
    if path !in w.opens then (st, false)
    else
      var r, o := held.resource, w.opens[path];
      var left := if oldPath != path then st.inputs - {oldPath} else st.inputs;
      var back := Store(st.fds[r := o.fd], left[path := Entry(r, o)], Listed(st.advertised, r), st.mail);
      (Push(Tell(back, Machine.Resume(r))), true)
  }

  function Park(st: Store, path: Path): Store {
    if path !in st.inputs then st
    else
      var held := st.inputs[path];
      st.(inputs := (st.inputs - {path})[Placeholder(held.resource) := held])
  }

  /** One probed device: the new store, and whether the device needs no retry. */
  ghost function ReconcileOne(st: Store, policy: Policy, probe: Probe, w: World): (Store, bool) {
    var path, kind := Node(probe.name), probe.kind;
    if path !in st.inputs then
      match SuspendedPeer(st.inputs, kind, w)
      case Some(from) => ResumeInput(st, from, path, st.inputs[from], w)
      case None => AdoptInput(st, policy, path, kind, w)
    else
      var held := st.inputs[path];
      if path in w.inodes && w.inodes[path] == held.inode then (st, true)
      else if held.gone && MayResume(held, kind) then ResumeInput(st, path, path, held, w)
      else if held.gone then AdoptInput(Park(st, path), policy, path, kind, w)
      else if SameDevice(path, held, w) || DeviceExists(held, w) then ReopenInput(st, path, held.resource, w)
      else if MayResume(held, kind) then ResumeInput(st, path, path, held, w)
      else AdoptInput(Park(SuspendInput(st, path, held), path), policy, path, kind, w)
  }

  /** The probed devices in order, each against the world as it is then. Returns the
      store and whether the caller should retry. */
  ghost function ReconcileAll(st: Store, policy: Policy, probes: seq<Probe>, worlds: seq<World>): (Store, bool)
    requires |worlds| == |probes|
  {
    if probes == [] then (st, false)
    else
      var n := |probes| - 1;
      var (before, retry) := ReconcileAll(st, policy, probes[..n], worlds[..n]);
      var (after, taken) := ReconcileOne(before, policy, probes[n], worlds[n]);
      (after, retry || !taken)
  }

  function Present(probes: seq<Probe>): set<Path> {
    set i | 0 <= i < |probes| :: Node(probes[i].name)
  }

  /** A live entry whose node was not probed and whose device is not there. */
  predicate Vanished(st: Store, present: set<Path>, w: World, p: Path) {
    p in st.inputs && !st.inputs[p].gone && p !in present && !DeviceExists(st.inputs[p], w)
  }

  /** Suspend the vanished entries, visiting the index in the given order. */
  function SuspendVanished(st: Store, present: set<Path>, w: World, order: seq<Path>): Store {
    if order == [] then st
    else
      var before := SuspendVanished(st, present, w, order[..|order| - 1]);
      var p := order[|order| - 1];
      if Vanished(before, present, w, p) then SuspendInput(before, p, before.inputs[p]) else before
  }

  /** One reconcile pass. `order` is the order in which the index is iterated. */
  ghost function Pass(
    st: Store, policy: Policy, probes: seq<Probe>, worlds: seq<World>, order: seq<Path>, last: World): (Store, bool)
    requires |worlds| == |probes|
  {
    var (swept, retry) := ReconcileAll(st, policy, probes, worlds);
    (SuspendVanished(swept, Present(probes), last, order), retry)
  }

  // ---- The consistency rules

  ghost predicate OneEntryPerResource(inputs: map<Path, HeldInput>) {
    forall p, q | p in inputs && q in inputs && p != q :: inputs[p].resource != inputs[q].resource
  }

  ghost predicate LiveIsOffered(st: Store) {
    forall p | p in st.inputs && !st.inputs[p].gone ::
      st.inputs[p].resource in st.fds && st.inputs[p].resource in st.advertised
  }

  ghost predicate GoneIsNotOffered(st: Store) {
    forall p | p in st.inputs && st.inputs[p].gone ::
      st.inputs[p].resource !in st.fds && st.inputs[p].resource !in st.advertised
  }

  ghost predicate OfferedIsHeld(st: Store) {
    && (forall r | r in st.advertised && r.Input? :: r in Names(st.inputs))
    && (forall r | r in st.fds && r.Input? :: r in st.advertised)
  }

  /** The four rules that tie the structures together. */
  ghost predicate Rules(st: Store) {
    OneEntryPerResource(st.inputs) && LiveIsOffered(st) && GoneIsNotOffered(st) && OfferedIsHeld(st)
  }

  /** What the index itself promises: inputs only, and parked entries under their own
      name, all of them gone. */
  ghost predicate Keyed(inputs: map<Path, HeldInput>) {
    && (forall p | p in inputs :: inputs[p].resource.Input?)
    && (forall p | p in inputs && p.Placeholder? :: inputs[p].resource == p.resource && inputs[p].gone)
  }

  ghost predicate Consistent(st: Store) {
    Rules(st) && Keyed(st.inputs)
  }
}
