/** The daemon as a whole: the reconciler and the clients send to the engine's mailbox,
    the engine takes the messages out in order. */
module Daemon {
  import opened Types
  import opened Policies
  import opened Slots
  import Machine
  import opened Turns
  import opened Inventory
  import opened InventoryLaws
  import opened Lists
  import opened Origins
  import Startup

  /** The engine, its mailbox, and the inventory. The mail of the inventory is what the
      reconciler has not sent yet. */
  datatype Server = Server(engine: Machine.State, box: seq<Mail>, store: Store)

  /** The reconciler sends one message at a time. Between any two of them clients may
      send, and the engine may take messages or, on its timer, sweep. */
  datatype Move =
    | Client(event: Machine.Event)
    | Reconcile(policy: Policy, probes: seq<Probe>, worlds: seq<World>, order: seq<Path>, last: World)
    | Send
    | Process(now: Instant, live: map<Resource, set<ClientId>>)
    | Sweep(now: Instant, live: map<Resource, set<ClientId>>)

  predicate FromClient(e: Machine.Event) {
    e.Register? || e.Disconnected? || e.Acquire? || e.Release?
  }

  predicate Enabled(d: Server, m: Move) {
    match m
    case Client(e) => FromClient(e)
    case Reconcile(_, probes, worlds, _, _) => |worlds| == |probes|
    case Send => d.store.mail != []
    case Process(_, _) => d.box != []
    case Sweep(_, _) => true
  }

  function EventOf(m: Mail): Machine.Event {
    match m
    case Command(e) => e
    case Advertise(_) => Machine.Broadcast
  }

  /** The turn the engine takes in a move, if any. */
  function TurnOf(d: Server, m: Move): Option<Machine.Step>
    requires Enabled(d, m)
  {
    match m
    case Process(now, live) => Some(Machine.Step(EventOf(d.box[0]), now, live))
    case Sweep(now, live) => Some(Machine.Step(Machine.Expire, now, live))
    case _ => None
  }

  ghost function Next(d: Server, m: Move): Server
    requires Enabled(d, m)
  {
    match m
    case Client(e) => d.(box := d.box + [Command(e)])
    case Reconcile(policy, probes, worlds, order, last) =>
      d.(store := Pass(d.store, policy, probes, worlds, order, last).0)
    case Send => d.(box := d.box + [d.store.mail[0]], store := d.store.(mail := d.store.mail[1..]))
    case Process(_, _) => d.(engine := Machine.Apply(d.engine, TurnOf(d, m).value), box := d.box[1..])
    case Sweep(_, _) => d.(engine := Machine.Apply(d.engine, TurnOf(d, m).value))
  }

  /** The daemon is started on a consistent inventory with every device there, and
      the engine is spawned with a policy for each advertised resource. */
  ghost predicate Booted(d: Server) {
    && Consistent(d.store) && d.box == [] && d.store.mail == [] && GoneNames(d.store.inputs) == {}
    && exists policies :: d.engine == Machine.Spawn(policies) && policies.Keys == set r | r in d.store.advertised
  }

  ghost predicate IsDaemonRun(servers: seq<Server>, moves: seq<Move>) {
    && |servers| == |moves| + 1 && Booted(servers[0])
    && forall i | 0 <= i < |moves| :: Enabled(servers[i], moves[i]) && servers[i + 1] == Next(servers[i], moves[i])
  }

  /** What startup builds is where a daemon boots, unless two devices share a number. */
  lemma StartupBoots(st: Store, probes: seq<Probe>, worlds: seq<World>, policy: Policy)
    requires Startup.NoInputs(st) && |worlds| == |probes| && Startup.DistinctNodes(probes)
    requires forall i: nat, j: nat :: !Startup.Clash(probes, worlds, i, j)
    ensures var store := Startup.Register(st, probes, worlds, |probes|);
      Booted(Server(Machine.Spawn(map r | r in store.advertised :: policy), [], store))
  {
    var store := Startup.Register(st, probes, worlds, |probes|);
    Startup.StartupConsistentIff(st, probes, worlds);
    Startup.RegisterAll(st, probes, worlds, |probes|);
    forall p | p in store.inputs ensures !store.inputs[p].gone {
      var i: nat :| i < |probes| && Startup.IsNodeOf(probes, worlds, p, i);
      assert Startup.Registered(store, probes, worlds, i);
    }
    var policies := map r | r in store.advertised :: policy;
    assert policies.Keys == set r | r in store.advertised;
  }

  // ---- The engine's side

  ghost function EngineView(s: Machine.State): View {
    View(set r | r in s.slots && r.Input?, set r | r in s.slots && r.Input? && s.slots[r].suspended)
  }

  ghost predicate Follows(s: Machine.State, s': Machine.State, e: Machine.Event) {
    && s'.slots.Keys == s.slots.Keys + (if e.Offer? then {e.resource} else {})
    && (forall r | r in s'.slots :: s'.slots[r].suspended == (r in s.slots && Flag(e, r, s.slots[r].suspended)))
  }

  lemma ApplyFollows(s: Machine.State, st: Machine.Step)
    requires Machine.Inv(s)
    ensures Follows(s, Machine.Apply(s, st), st.event)
  {
    var s' := Machine.Apply(s, st);
    forall r | r in s'.slots
      ensures s'.slots[r].suspended == (r in s.slots && Flag(st.event, r, s.slots[r].suspended))
    {
      if r in s.slots {
        PolicyKept(s, st, r);
      }
    }
  }

  lemma FollowsView(s: Machine.State, s': Machine.State, e: Machine.Event)
    requires Follows(s, s', e)
    ensures EngineView(s') == Heard(EngineView(s), e)
  {
    assert EngineView(s').names == Heard(EngineView(s), e).names;
    assert EngineView(s').away == Heard(EngineView(s), e).away;
  }

  /** The engine's input slots follow its mail, whatever else a turn does. */
  lemma EngineHears(s: Machine.State, st: Machine.Step)
    requires Machine.Inv(s)
    ensures EngineView(Machine.Apply(s, st)) == Heard(EngineView(s), st.event)
  {
    ApplyFollows(s, st);
    FollowsView(s, Machine.Apply(s, st), st.event);
  }

  // ---- The invariant

  /** Reading the mail that is under way, the engine arrives at the index as it is, and
      every list it passes on along the way is true when it does. */
  ghost predicate Synced(d: Server) {
    && Machine.Inv(d.engine) && Consistent(d.store)
    && Tells(EngineView(d.engine), d.box + d.store.mail, ViewOf(d.store.inputs))
  }

  lemma BootSynced(d: Server)
    requires Booted(d)
    ensures Synced(d)
  {
    AdvertisedIsOffered(d.store);
    assert EngineView(d.engine) == ViewOf(d.store.inputs);
    assert d.box + d.store.mail == [];
  }

  lemma ReadOne(v: View, m: Mail)
    ensures Read(v, [m]) == Heard(v, EventOf(m))
    ensures Honest(v, [m]) <==> (m.Advertise? ==> Offers(m.available, v))
  {
    assert [m][..0] == [];
  }

  lemma TellsConcat(v: View, a: seq<Mail>, b: seq<Mail>, v': View)
    ensures Tells(v, a + b, v') <==> Honest(v, a) && Tells(Read(v, a), b, v')
  {
    ReadConcat(v, a, b);
    HonestConcat(v, a, b);
  }

  /** A client command between the messages of a pass changes nothing in what they tell. */
  lemma ClientKeeps(v: View, a: seq<Mail>, b: seq<Mail>, e: Machine.Event, v': View)
    requires FromClient(e) && Tells(v, a + b, v')
    ensures Tells(v, (a + [Command(e)]) + b, v')
  {
    var m: seq<Mail> := [Command(e)];
    TellsConcat(v, a, b, v');
    ReadOne(Read(v, a), Command(e));
    TellsConcat(Read(v, a), m, b, v');
    TellsConcat(v, a, m + b, v');
    assert (a + m) + b == a + (m + b);
  }

  lemma ReconcileKeeps(v: View, box: seq<Mail>, st: Store, st': Store)
    requires Tells(v, box + st.mail, ViewOf(st.inputs)) && Told(st, st')
    ensures Tells(v, box + st'.mail, ViewOf(st'.inputs))
  {
    var more :| st'.mail == st.mail + more && Tells(ViewOf(st.inputs), more, ViewOf(st'.inputs));
    TellsConcat(v, box + st.mail, more, ViewOf(st'.inputs));
    assert box + st'.mail == (box + st.mail) + more;
  }

  lemma ProcessKeeps(v: View, mail: seq<Mail>, v': View)
    requires mail != [] && Tells(v, mail, v')
    ensures Tells(Heard(v, EventOf(mail[0])), mail[1..], v')
    ensures mail[0].Advertise? ==> Offers(mail[0].available, v)
  {
    assert mail == [mail[0]] + mail[1..];
    TellsConcat(v, [mail[0]], mail[1..], v');
    ReadOne(v, mail[0]);
  }

  /** Consistency does not look at the mail. */
  lemma MailIsFree(st: Store, mail: seq<Mail>)
    requires Consistent(st)
    ensures Consistent(st.(mail := mail))
  {
  }

  lemma TurnSynced(d: Server, m: Move)
    requires Synced(d) && Enabled(d, m) && TurnOf(d, m).Some?
    ensures Synced(Next(d, m))
  {
    var v, v' := EngineView(d.engine), ViewOf(d.store.inputs);
    Machine.ApplyInv(d.engine, TurnOf(d, m).value);
    EngineHears(d.engine, TurnOf(d, m).value);
    if m.Process? {
      ProcessKeeps(v, d.box + d.store.mail, v');
      assert (d.box + d.store.mail)[1..] == d.box[1..] + d.store.mail;
    }
  }

  lemma NextSynced(d: Server, m: Move)
    requires Synced(d) && Enabled(d, m)
    ensures Synced(Next(d, m))
  {
    var v, v' := EngineView(d.engine), ViewOf(d.store.inputs);
    match m
    case Client(e) =>
      ClientKeeps(v, d.box, d.store.mail, e, v');
    case Reconcile(policy, probes, worlds, order, last) =>
      PassKeepsRules(d.store, policy, probes, worlds, order, last);
      PassTold(d.store, policy, probes, worlds, order, last);
      ReconcileKeeps(v, d.box, d.store, Next(d, m).store);
    case Send =>
      MailIsFree(d.store, d.store.mail[1..]);
      assert (d.box + [d.store.mail[0]]) + d.store.mail[1..] == d.box + d.store.mail;
    case _ =>
      TurnSynced(d, m);
  }

  lemma {:induction false} SyncedTrace(servers: seq<Server>, i: nat)
    requires i < |servers| && Synced(servers[0])
    requires forall k | 0 <= k < i && Synced(servers[k]) :: Synced(servers[k + 1])
    ensures Synced(servers[i])
  {
    if i > 0 {
      var k := i - 1;
      SyncedTrace(servers, k);
      assert Synced(servers[k + 1]);
    }
  }

  /** In every run: the inventory is consistent after every pass, and the engine is
      never off course. */
  lemma DaemonSynced(servers: seq<Server>, moves: seq<Move>, i: nat)
    requires IsDaemonRun(servers, moves) && i < |servers|
    ensures Synced(servers[i])
  {
    BootSynced(servers[0]);
    forall k | 0 <= k < i && Synced(servers[k]) ensures Synced(servers[k + 1]) {
      NextSynced(servers[k], moves[k]);
    }
    SyncedTrace(servers, i);
  }

  lemma SlotsInView(s: Machine.State, r: Resource)
    requires r.Input?
    ensures r in EngineView(s).names <==> r in s.slots
    ensures r in EngineView(s).away <==> r in s.slots && s.slots[r].suspended
  {
  }

  /** Whenever all mail has been read: the engine's input slots are exactly the held
      devices, suspended exactly while the device is gone, and the advertised inputs
      are exactly the slots that are not suspended. */
  lemma QuietAgreement(servers: seq<Server>, moves: seq<Move>, i: nat, r: Resource)
    requires IsDaemonRun(servers, moves) && i < |servers| && r.Input?
    requires servers[i].box == [] && servers[i].store.mail == []
    ensures var d := servers[i];
      && (r in d.engine.slots <==> r in Names(d.store.inputs))
      && (r in d.engine.slots ==> (d.engine.slots[r].suspended <==> r in GoneNames(d.store.inputs)))
      && (r in d.store.advertised <==> r in d.engine.slots && !d.engine.slots[r].suspended)
  {
    var d := servers[i];
    DaemonSynced(servers, moves, i);
    AdvertisedIsOffered(d.store);
    assert d.box + d.store.mail == [];
    assert EngineView(d.engine) == ViewOf(d.store.inputs);
    SlotsInView(d.engine, r);
  }

  /** Whenever the engine passes a list on to the clients, the inputs on it are exactly
      its slots that are not suspended: what a client reads there it may ask for. */
  lemma AdvertisedIsGrantable(servers: seq<Server>, moves: seq<Move>, i: nat, r: Resource)
    requires IsDaemonRun(servers, moves) && i < |moves| && moves[i].Process? && r.Input?
    requires servers[i].box != [] && servers[i].box[0].Advertise?
    ensures var d := servers[i];
      r in d.box[0].available <==> r in d.engine.slots && !d.engine.slots[r].suspended
  {
    var d := servers[i];
    DaemonSynced(servers, moves, i);
    ProcessKeeps(EngineView(d.engine), d.box + d.store.mail, ViewOf(d.store.inputs));
    SlotsInView(d.engine, r);
  }

  lemma {:induction false} SlotsStay(servers: seq<Server>, moves: seq<Move>, i: nat, j: nat)
    requires IsDaemonRun(servers, moves) && i <= j < |servers|
    ensures servers[i].engine.slots.Keys <= servers[j].engine.slots.Keys
  {
    if i < j {
      SlotsStay(servers, moves, i, j - 1);
      assert servers[j - 1 + 1] == Next(servers[j - 1], moves[j - 1]);
    }
  }

  /** ... and from then on an Acquire of it is never refused as not registered. */
  lemma AdvertisedStaysRegistered(servers: seq<Server>, moves: seq<Move>, i: nat, j: nat, st: Machine.Step)
    requires IsDaemonRun(servers, moves) && i <= j < |servers| && i < |moves| && moves[i].Process?
    requires servers[i].box != [] && servers[i].box[0].Advertise?
    requires st.event.Acquire? && st.event.resource.Input? && st.event.resource in servers[i].box[0].available
    ensures Machine.OutcomeOf(servers[j].engine, st) != Denied(NotRegistered)
  {
    AdvertisedIsGrantable(servers, moves, i, st.event.resource);
    SlotsStay(servers, moves, i, j);
  }

  // ---- The engine of a daemon run is an engine run

  /** The turns the engine has taken in the first `n` moves, and the states it was in. */
  ghost function EngineSteps(servers: seq<Server>, moves: seq<Move>, n: nat): seq<Machine.Step>
    requires IsDaemonRun(servers, moves) && n <= |moves|
  {
    if n == 0 then []
    else
      EngineSteps(servers, moves, n - 1) +
      match TurnOf(servers[n - 1], moves[n - 1])
      case Some(st) => [st]
      case None => []
  }

  ghost function EngineStates(servers: seq<Server>, moves: seq<Move>, n: nat): seq<Machine.State>
    requires IsDaemonRun(servers, moves) && n <= |moves|
  {
    if n == 0 then [servers[0].engine]
    else
      EngineStates(servers, moves, n - 1) +
      (if TurnOf(servers[n - 1], moves[n - 1]).Some? then [servers[n].engine] else [])
  }

  predicate Ticks(m: Move) {
    m.Process? || m.Sweep?
  }

  /** The clock of the engine never goes back. */
  ghost predicate ClockRuns(moves: seq<Move>) {
    forall i, j | 0 <= i <= j < |moves| && Ticks(moves[i]) && Ticks(moves[j]) :: moves[i].now <= moves[j].now
  }

  lemma {:induction false} StepsAreEarlier(servers: seq<Server>, moves: seq<Move>, n: nat, later: Instant)
    requires IsDaemonRun(servers, moves) && n <= |moves|
    requires forall i | 0 <= i < n && Ticks(moves[i]) :: moves[i].now <= later
    ensures forall k | 0 <= k < |EngineSteps(servers, moves, n)| :: EngineSteps(servers, moves, n)[k].now <= later
  {
    if n > 0 {
      StepsAreEarlier(servers, moves, n - 1, later);
      assert Ticks(moves[n - 1]) ==> moves[n - 1].now <= later;
    }
  }

  lemma EngineMoves(d: Server, m: Move)
    requires Enabled(d, m)
    ensures Next(d, m).engine == match TurnOf(d, m) case Some(st) => Machine.Apply(d.engine, st) case None => d.engine
  {
  }

  /** The engine's part of the first `n` moves is an engine run that ends where the
      engine is. */
  ghost predicate IsEngineRun(servers: seq<Server>, moves: seq<Move>, n: nat)
    requires IsDaemonRun(servers, moves) && n <= |moves|
  {
    var states, steps := EngineStates(servers, moves, n), EngineSteps(servers, moves, n);
    Machine.IsRun(states, steps) && states[|steps|] == servers[n].engine
  }

  lemma EngineRunStep(servers: seq<Server>, moves: seq<Move>, n: nat)
    requires IsDaemonRun(servers, moves) && ClockRuns(moves) && n < |moves| && IsEngineRun(servers, moves, n)
    ensures IsEngineRun(servers, moves, n + 1)
  {
    var d, m := servers[n], moves[n];
    EngineMoves(d, m);
    if TurnOf(d, m).Some? {
      StepsAreEarlier(servers, moves, n, m.now);
      Machine.RunGrows(EngineStates(servers, moves, n), EngineSteps(servers, moves, n), TurnOf(d, m).value);
    }
  }

  /** What holds of every engine run holds of the engine in every daemon run: its states
      are those of a run, and the last of them is the state it is in. */
  lemma {:induction false} EngineRuns(servers: seq<Server>, moves: seq<Move>, n: nat)
    requires IsDaemonRun(servers, moves) && ClockRuns(moves) && n <= |moves|
    ensures IsEngineRun(servers, moves, n)
  {
    if n > 0 {
      EngineRuns(servers, moves, n - 1);
      EngineRunStep(servers, moves, n - 1);
    }
  }

  // ---- One policy for all

  ghost predicate OffersOnly(mail: seq<Mail>, policy: Policy) {
    forall i | 0 <= i < |mail| && mail[i].Command? && mail[i].event.Offer? :: mail[i].event.policy == policy
  }

  /** Every slot has the policy, and so has every Offer under way. */
  ghost predicate Uniform(d: Server, policy: Policy) {
    && (forall r | r in d.engine.slots :: d.engine.slots[r].policy == policy)
    && OffersOnly(d.box, policy) && OffersOnly(d.store.mail, policy)
  }

  lemma TurnUniform(s: Machine.State, st: Machine.Step, policy: Policy)
    requires Machine.Inv(s) && forall r | r in s.slots :: s.slots[r].policy == policy
    requires st.event.Offer? ==> st.event.policy == policy
    ensures forall r | r in Machine.Apply(s, st).slots :: Machine.Apply(s, st).slots[r].policy == policy
  {
    var s' := Machine.Apply(s, st);
    forall r | r in s'.slots ensures s'.slots[r].policy == policy {
      ApplyPolicy(s, st, s', r);
    }
  }

  lemma PassUniform(st: Store, policy: Policy, m: Move)
    requires m.Reconcile? && m.policy == policy && |m.worlds| == |m.probes| && OffersOnly(st.mail, policy)
    ensures OffersOnly(Pass(st, m.policy, m.probes, m.worlds, m.order, m.last).0.mail, policy)
  {
    var st' := Pass(st, m.policy, m.probes, m.worlds, m.order, m.last).0;
    PassTidy(st, m.policy, m.probes, m.worlds, m.order, m.last, {});
    forall i | 0 <= i < |st'.mail| && st'.mail[i].Command? && st'.mail[i].event.Offer?
      ensures st'.mail[i].event.policy == policy
    {
      if i < |st.mail| {
        assert st.mail[i] == st'.mail[i];
      } else {
        assert IsPassMail(st'.mail[i], policy);
      }
    }
  }

  lemma NextUniform(d: Server, m: Move, policy: Policy)
    requires Synced(d) && Enabled(d, m) && Uniform(d, policy) && (m.Reconcile? ==> m.policy == policy)
    ensures Uniform(Next(d, m), policy)
  {
    match m
    case Reconcile(_, _, _, _, _) => PassUniform(d.store, policy, m);
    case Process(_, _) => TurnUniform(d.engine, TurnOf(d, m).value, policy);
    case Sweep(_, _) => TurnUniform(d.engine, TurnOf(d, m).value, policy);
    case _ =>
  }

  lemma {:induction false} UniformTrace(servers: seq<Server>, i: nat, policy: Policy)
    requires i < |servers| && Uniform(servers[0], policy)
    requires forall k | 0 <= k < i && Uniform(servers[k], policy) :: Uniform(servers[k + 1], policy)
    ensures Uniform(servers[i], policy)
  {
    if i > 0 {
      var k := i - 1;
      UniformTrace(servers, k, policy);
      assert Uniform(servers[k + 1], policy);
    }
  }

  /** The server's policy applies to every resource, to those opened at startup and to
      those plugged in later alike. */
  lemma OnePolicyForAll(servers: seq<Server>, moves: seq<Move>, i: nat, policy: Policy)
    requires IsDaemonRun(servers, moves) && i < |servers|
    requires servers[0].engine == Machine.Spawn(map r | r in servers[0].store.advertised :: policy)
    requires forall k | 0 <= k < |moves| && moves[k].Reconcile? :: moves[k].policy == policy
    ensures forall r | r in servers[i].engine.slots :: servers[i].engine.slots[r].policy == policy
  {
    SpawnIsFresh(map r | r in servers[0].store.advertised :: policy);
    forall k | 0 <= k < i && Uniform(servers[k], policy) ensures Uniform(servers[k + 1], policy) {
      DaemonSynced(servers, moves, k);
      NextUniform(servers[k], moves[k], policy);
    }
    UniformTrace(servers, i, policy);
  }
}
