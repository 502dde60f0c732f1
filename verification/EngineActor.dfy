/** The engine as it runs: one object that owns the slots and the registry, changed
    in place by the command handlers and by the expiry sweep. Every handler is
    proved to do exactly what the state machine says, whatever order the slots are
    visited in. */
module EngineActor {
  import opened Types
  import opened Policies
  import opened Queues
  import opened Slots
  import opened Machine
  import opened Turns
  import opened Origins

  /** Per resource, the control messages pushed so far, in order. */
  type Log = Resource -> seq<Push>

  ghost function Pushed(log: Log, r: Resource, sent: seq<Push>): Log {
    q => if q == r then log(q) + sent else log(q)
  }

  lemma {:induction false} RepeatMore(p: Push, n: nat)
    ensures Repeat(p, n) + [p] == Repeat(p, n + 1)
  {
    if n > 0 {
      RepeatMore(p, n - 1);
    }
  }

  /** Being asked once more for the same input: one more Revoke, the same deadline. */
  lemma SeatLostAgain(slot: Slot, n: nat, env: Env)
    ensures var before, again := SeatLost(slot, n, env), SeatLost(SeatLost(slot, n, env).slot, 1, env);
      SeatLost(slot, n + 1, env) == Effect(again.slot, before.sent + again.sent)
  {
    if slot.owner.Some? {
      RepeatMore(Revoke(slot.owner.value), n);
      assert Repeat(Revoke(slot.owner.value), 1) == [Revoke(slot.owner.value)];
    }
  }

  /** Everything pushed for each resource in one turn is what the machine sends. */
  ghost predicate LogsTurn(before: Log, after: Log, s: State, st: Step) {
    forall r :: after(r) == before(r) + Sent(s, st, r)
  }

  // ---- What a turn does, slot by slot

  /** The slots in the middle of a turn, each with what the turn has pushed for it. */
  type Table = map<Resource, Effect>

  function Opened(slots: map<Resource, Slot>): Table {
    map r | r in slots :: Effect(slots[r], [])
  }

  function SlotsOf(table: Table): map<Resource, Slot> {
    map r | r in table :: table[r].slot
  }

  ghost function LogOf(log: Log, table: Table): Log {
    r => if r in table then log(r) + table[r].sent else log(r)
  }

  function Extend(a: Effect, b: Effect): Effect {
    Effect(b.slot, a.sent + b.sent)
  }

  /** A table that agrees with the machine slot by slot is the machine's turn. */
  lemma TurnDone(s: State, st: Step, table: Table, log: Log)
    requires !st.event.Offer? && table.Keys == s.slots.Keys
    requires forall r | r in s.slots :: table[r] == SlotEffect(s, st, r)
    ensures Apply(s, st) == State(SlotsOf(table), RegisteredAfter(s, st.event))
    ensures LogsTurn(log, LogOf(log, table), s, st)
  {
    forall r ensures LogOf(log, table)(r) == log(r) + Sent(s, st, r) {
      assert r !in table ==> log(r) + [] == log(r);
    }
  }

  lemma DisconnectSlot(s: State, st: Step, r: Resource)
    requires st.event.Disconnected? && r in s.slots
    ensures SlotEffect(s, st, r) == DisconnectOne(s.slots[r], st.event.client, EnvOn(s, st, r))
  {
    SeatLostLaw(s, st, r);
  }

  lemma LogsOnly(log: Log, s: State, st: Step, r: Resource, e: Effect)
    requires OnlyAt(s, st, r, e)
    ensures LogsTurn(log, Pushed(log, r, e.sent), s, st)
  {
    forall q ensures Pushed(log, r, e.sent)(q) == log(q) + Sent(s, st, q) {
      assert q != r ==> log(q) + [] == log(q);
    }
  }

  lemma AcquireTurn(s: State, st: Step, c: ClientId, r: Resource)
    requires st.event == Event.Acquire(c, r)
    ensures r !in s.slots ==> NoTurn(s, st)
    ensures r in s.slots ==>
      OnlyAt(s, st, r, AcquireOne(r, s.slots[r], c, HoldsDisplay(s, c), HolderIsSeat(s, r), EnvOn(s, st, r)).effect)
  {
    TouchesOne(s, st, r);
  }

  /** What being asked for its inputs, as the former seat `c`, does to a slot. */
  function Asked(r: Resource, slot: Slot, registered: set<ClientId>, c: ClientId, now: Instant): Effect {
    if r.Input? && slot.owner == Some(c) then SeatLost(slot, 1, Env(now, registered, {})) else Effect(slot, [])
  }

  predicate LeavesSeat(s: State, c: ClientId, r: Resource) {
    IsDisplay(r) && r in s.slots && s.slots[r].owner == Some(c)
  }

  /** The turn of a Release, slot by slot: one slot is released, and a client that
      thereby leaves the seat is asked for the others. */
  function ReleaseEffect(s: State, st: Step, q: Resource): Effect
    requires st.event.Release? && q in s.slots
  {
    if q == st.event.resource then ReleaseOne(s.slots[q], st.event.client, EnvOn(s, st, q))
    else if LeavesSeat(s, st.event.client, st.event.resource) then
      Asked(q, s.slots[q], s.registered, st.event.client, st.now)
    else Effect(s.slots[q], [])
  }

  /** The questions to a client that lost `n` displays. */
  function AskedTimes(
    r: Resource, slot: Slot, registered: set<ClientId>, exSeats: seq<ClientId>, now: Instant): Effect {
    if r.Input? && slot.owner.Some?
    then SeatLost(slot, multiset(exSeats)[slot.owner.value], Env(now, registered, {}))
    else Effect(slot, [])
  }

  lemma AskedOnceMore(
    r: Resource, slot: Slot, registered: set<ClientId>, exSeats: seq<ClientId>, c: ClientId, now: Instant)
    ensures var before := AskedTimes(r, slot, registered, exSeats, now);
      var again := Asked(r, before.slot, registered, c, now);
      AskedTimes(r, slot, registered, exSeats + [c], now) == Extend(before, again)
  {
    if r.Input? && slot.owner.Some? {
      SeatLostAgain(slot, multiset(exSeats)[slot.owner.value], Env(now, registered, {}));
    }
  }

  /** The displays a sweep has taken from a client so far. */
  function LostIn(slots: map<Resource, Slot>, now: Instant, c: ClientId, seen: set<Resource>): set<Resource> {
    set r | r in slots && r in seen && IsDisplay(r) && slots[r].owner == Some(c) && Expired(slots[r], now)
  }

  lemma LostMore(slots: map<Resource, Slot>, now: Instant, c: ClientId, seen: set<Resource>, r: Resource)
    requires r in slots && r !in seen
    ensures |LostIn(slots, now, c, seen + {r})| == |LostIn(slots, now, c, seen)| +
            (if IsDisplay(r) && slots[r].owner == Some(c) && Expired(slots[r], now) then 1 else 0)
  {
    if IsDisplay(r) && slots[r].owner == Some(c) && Expired(slots[r], now) {
      assert LostIn(slots, now, c, seen + {r}) == LostIn(slots, now, c, seen) + {r};
    } else {
      assert LostIn(slots, now, c, seen + {r}) == LostIn(slots, now, c, seen);
    }
  }

  lemma ExpireSlot(s: State, st: Step, exSeats: seq<ClientId>, r: Resource)
    requires st.event == Expire && r in s.slots
    requires forall c: ClientId :: multiset(exSeats)[c] == |LostIn(s.slots, st.now, c, s.slots.Keys)|
    ensures var swept := SweepOne(s.slots[r], EnvOn(s, st, r));
      var asked := AskedTimes(r, swept.slot, s.registered, exSeats, st.now);
      SlotEffect(s, st, r) == Effect(asked.slot, swept.sent + asked.sent)
  {
    var own := OwnEffect(s, st, r);
    if r.Input? && own.slot.owner.Some? {
      var c := own.slot.owner.value;
      assert LostIn(s.slots, st.now, c, s.slots.Keys) == LostDisplays(s, st.now, c);
      assert SeatLosses(s, st, c) == multiset(exSeats)[c];
    }
  }

  lemma ReleaseSlot(s: State, st: Step, q: Resource)
    requires st.event.Release? && q in s.slots
    ensures SlotEffect(s, st, q) == ReleaseEffect(s, st, q)
  {
    var c, r := st.event.client, st.event.resource;
    assert forall d :: SeatLosses(s, st, d) == if d == c && LeavesSeat(s, c, r) then 1 else 0;
    if q == r {
      assert OwnEffect(s, st, q) == ReleaseOne(s.slots[q], c, EnvOn(s, st, q));
      if r.Input? {
        assert SlotEffect(s, st, q) == OwnEffect(s, st, q) by { SeatLostLaw(s, st, q); }
      }
    } else {
      assert OwnEffect(s, st, q) == Effect(s.slots[q], []);
    }
  }

  lemma DisconnectDone(s: State, st: Step, table: Table, log: Log)
    requires st.event.Disconnected? && table.Keys == s.slots.Keys
    requires forall r | r in s.slots :: table[r] == DisconnectOne(s.slots[r], st.event.client, EnvOn(s, st, r))
    ensures Apply(s, st) == State(SlotsOf(table), RegisteredAfter(s, st.event))
    ensures LogsTurn(log, LogOf(log, table), s, st)
  {
    forall r | r in s.slots ensures table[r] == SlotEffect(s, st, r) {
      DisconnectSlot(s, st, r);
    }
    TurnDone(s, st, table, log);
  }

  lemma ReleaseDone(s: State, st: Step, table: Table, log: Log)
    requires st.event.Release? && table.Keys == s.slots.Keys
    requires forall r | r in s.slots :: table[r] == ReleaseEffect(s, st, r)
    ensures Apply(s, st) == State(SlotsOf(table), s.registered)
    ensures LogsTurn(log, LogOf(log, table), s, st)
  {
    forall r | r in s.slots ensures table[r] == SlotEffect(s, st, r) {
      ReleaseSlot(s, st, r);
    }
    TurnDone(s, st, table, log);
  }

  lemma ExpireDone(s: State, st: Step, exSeats: seq<ClientId>, swept: Table, table: Table, log: Log)
    requires st.event == Expire && swept.Keys == table.Keys == s.slots.Keys
    requires forall c: ClientId :: multiset(exSeats)[c] == |LostIn(s.slots, st.now, c, s.slots.Keys)|
    requires forall r | r in s.slots :: swept[r] == SweepOne(s.slots[r], EnvOn(s, st, r))
    requires forall r | r in s.slots ::
      table[r] == Extend(swept[r], AskedTimes(r, swept[r].slot, s.registered, exSeats, st.now))
    ensures Apply(s, st) == State(SlotsOf(table), s.registered)
    ensures LogsTurn(log, LogOf(log, table), s, st)
  {
    forall r | r in s.slots ensures table[r] == SlotEffect(s, st, r) {
      ExpireSlot(s, st, exSeats, r);
    }
    TurnDone(s, st, table, log);
  }

  /** Hand the resource to the next waiter: a seat claim first, then by policy,
      dropping everybody whose channel is gone. */
  method ServeQueue(slot: Slot, env: Env) returns (e: Effect)
    ensures e == GrantNext(slot, env)
  {
    var current := slot;
    while true
      invariant GrantNext(current, env) == GrantNext(slot, env)
      decreases |current.waiters|
    {
      var waiter;
      match PopSeatClaim(current.waiters) {
        case Some((w, rest)) =>
          waiter := w;
          current := current.(waiters := rest);
        case None =>
          match PopWaiter(current.policy, current.waiters) {
            case None => return Effect(current, []);
            case Some((w, rest)) =>
              waiter := w;
              current := current.(waiters := rest);
          }
      }
      if Deliverable(env, waiter.client) {
        return Effect(current.(owner := Some(waiter.client)), [Grant(waiter.client)]);
      }
    }
  }

  class Engine {
    var slots: map<Resource, Slot>
    var registered: set<ClientId>
    ghost var log: Log

    function View(): State
      reads this
    {
      State(slots, registered)
    }

    constructor (policies: map<Resource, Policy>)
      ensures View() == Spawn(policies) && Inv(View()) && forall r :: log(r) == []
      ensures slots.Keys == policies.Keys && forall r | r in policies :: IsFresh(slots[r], policies[r])
      ensures registered == {}
    {
      slots := map r | r in policies :: NewSlot(policies[r]);
      registered := {};
      log := r => [];
    }

    method Register(c: ClientId, now: Instant, live: map<Resource, set<ClientId>>)
      modifies this
      ensures View() == Apply(old(View()), Step(Event.Register(c), now, live))
      ensures LogsTurn(old(log), log, old(View()), Step(Event.Register(c), now, live))
    {
      ghost var s, st := View(), Step(Event.Register(c), now, live);
      registered := registered + {c};
      assert slots == Apply(s, st).slots;
    }

    method Disconnected(c: ClientId, now: Instant, live: map<Resource, set<ClientId>>)
      modifies this
      ensures View() == Apply(old(View()), Step(Event.Disconnected(c), now, live))
      ensures LogsTurn(old(log), log, old(View()), Step(Event.Disconnected(c), now, live))
    {
      registered := registered - {c};
      var table := ForgetEverywhere(slots, registered, c, now, live);
      DisconnectDone(old(View()), Step(Event.Disconnected(c), now, live), table, log);
      slots, log := SlotsOf(table), LogOf(log, table);
    }

    method Acquire(c: ClientId, r: Resource, now: Instant, live: map<Resource, set<ClientId>>)
      returns (outcome: Outcome)
      modifies this
      ensures View() == Apply(old(View()), Step(Event.Acquire(c, r), now, live))
      ensures LogsTurn(old(log), log, old(View()), Step(Event.Acquire(c, r), now, live))
      ensures outcome == OutcomeOf(old(View()), Step(Event.Acquire(c, r), now, live))
    {
      ghost var s, st := View(), Step(Event.Acquire(c, r), now, live);
      var requesterSeat := HoldsDisplay(View(), c);
      AcquireTurn(s, st, c, r);
      if r !in slots {
        return Denied(NotRegistered);
      }
      var slot := slots[r];
      var holderSeat := slot.owner.Some? && HoldsDisplay(View(), slot.owner.value);
      var env := EnvAt(now, registered, live, r);
      var e: Effect;
      e, outcome := AcquireFrom(r, slot, c, requesterSeat, holderSeat, env);
      LogsOnly(log, s, st, r, e);
      slots := slots[r := e.slot];
      log := Pushed(log, r, e.sent);
    }

    /** Free the slot for the next waiter, and ask a client that thereby leaves the
        seat for its inputs. */
    method Release(c: ClientId, r: Resource, now: Instant, live: map<Resource, set<ClientId>>)
      modifies this
      ensures View() == Apply(old(View()), Step(Event.Release(c, r), now, live))
      ensures LogsTurn(old(log), log, old(View()), Step(Event.Release(c, r), now, live))
    {
      var table := ReleaseEverywhere(View(), c, r, now, live);
      ReleaseDone(View(), Step(Event.Release(c, r), now, live), table, log);
      slots, log := SlotsOf(table), LogOf(log, table);
    }

    /** The revoke deadlines that have passed: reclaim the resources of silent owners,
        then ask every client that lost a display thereby for its inputs. */
    method Expire(now: Instant, live: map<Resource, set<ClientId>>)
      modifies this
      ensures View() == Apply(old(View()), Step(Event.Expire, now, live))
      ensures LogsTurn(old(log), log, old(View()), Step(Event.Expire, now, live))
    {
      var table, exSeats := Sweep(slots, registered, now, live);
      ghost var swept := table;
      table := ReleaseAllInputs(table, registered, exSeats, now);
      ExpireDone(View(), Step(Event.Expire, now, live), exSeats, swept, table, log);
      slots, log := SlotsOf(table), LogOf(log, table);
    }

    method Suspend(r: Resource, now: Instant, live: map<Resource, set<ClientId>>)
      modifies this
      ensures View() == Apply(old(View()), Step(Event.Suspend(r), now, live))
      ensures LogsTurn(old(log), log, old(View()), Step(Event.Suspend(r), now, live))
    {
      ghost var s, st := View(), Step(Event.Suspend(r), now, live);
      if r in slots {
        slots := slots[r := slots[r].(suspended := true, revokeDeadline := None)];
      }
      TouchesOne(s, st, r);
    }

    method Resume(r: Resource, now: Instant, live: map<Resource, set<ClientId>>)
      modifies this
      ensures View() == Apply(old(View()), Step(Event.Resume(r), now, live))
      ensures LogsTurn(old(log), log, old(View()), Step(Event.Resume(r), now, live))
    {
      ghost var s, st := View(), Step(Event.Resume(r), now, live);
      if r in slots && slots[r].suspended {
        var slot := slots[r].(suspended := false);
        if slot.owner.Some? {
          if slot.owner.value in registered {
            log := Pushed(log, r, [Grant(slot.owner.value)]);
          } else {
            slot := slot.(owner := None);
          }
        }
        slots := slots[r := slot];
      }
      TouchesOne(s, st, r);
    }

    /** One turn of the engine loop. */
    method Turn(event: Event, now: Instant, live: map<Resource, set<ClientId>>) returns (outcome: Option<Outcome>)
      modifies this
      ensures View() == Apply(old(View()), Step(event, now, live))
      ensures LogsTurn(old(log), log, old(View()), Step(event, now, live))
      ensures outcome == if event.Acquire? then Some(OutcomeOf(old(View()), Step(event, now, live))) else None
      ensures old(Inv(View())) ==> Inv(View())
    {
      ghost var s, st := View(), Step(event, now, live);
      outcome := None;
      match event {
        case Register(c) => Register(c, now, live);
        case Disconnected(c) => Disconnected(c, now, live);
        case Acquire(c, r) =>
          var granted := Acquire(c, r, now, live);
          outcome := Some(granted);
        case Release(c, r) => Release(c, r, now, live);
        case Suspend(r) => Suspend(r, now, live);
        case Resume(r) => Resume(r, now, live);
        case Offer(r, policy) => Offer(r, policy, now, live);
        case Broadcast => assert slots == Apply(s, st).slots;
        case Expire => Expire(now, live);
      }
      if Inv(s) {
        ApplyInv(s, st);
      }
    }

    method Offer(r: Resource, policy: Policy, now: Instant, live: map<Resource, set<ClientId>>)
      modifies this
      ensures View() == Apply(old(View()), Step(Event.Offer(r, policy), now, live))
      ensures LogsTurn(old(log), log, old(View()), Step(Event.Offer(r, policy), now, live))
    {
      ghost var s, st := View(), Step(Event.Offer(r, policy), now, live);
      if r !in slots {
        slots := slots[r := NewSlot(policy)];
      }
      assert slots == Apply(s, st).slots;
    }
  }

  method Forget(slot: Slot, c: ClientId, env: Env) returns (e: Effect)
    ensures e == DisconnectOne(slot, c, env)
  {
    var left := slot.(waiters := Keep(slot.waiters, {c}));
    e := Effect(left, []);
    if slot.owner == Some(c) {
      e := ServeQueue(left.(owner := None, revokeDeadline := None), env);
    }
  }

  function EnvAt(now: Instant, registered: set<ClientId>, live: map<Resource, set<ClientId>>, r: Resource): Env {
    Env(now, registered, if r in live then live[r] else {})
  }

  /** Every slot forgets the client; the ones it owned go to their next waiter. The
      slots are visited in an arbitrary order. */
  method ForgetEverywhere(slots: map<Resource, Slot>, registered: set<ClientId>, c: ClientId, now: Instant,
                          live: map<Resource, set<ClientId>>)
    returns (table: Table)
    ensures table.Keys == slots.Keys
    ensures forall r | r in slots :: table[r] == DisconnectOne(slots[r], c, EnvAt(now, registered, live, r))
  {
    table := Opened(slots);
    var todo := slots.Keys;
    while todo != {}
      invariant todo <= slots.Keys == table.Keys
      invariant forall r | r in slots ::
        table[r] == if r in todo then Effect(slots[r], []) else
          DisconnectOne(slots[r], c, EnvAt(now, registered, live, r))
    {
      var r :| r in todo;
      var e := Forget(table[r].slot, c, EnvAt(now, registered, live, r));
      table := table[r := e];
      todo := todo - {r};
    }
  }

  /** Ask the former seat for every input it holds, in an arbitrary order. */
  method ReleaseSeatInputs(before: Table, registered: set<ClientId>, exSeat: ClientId, now: Instant)
    returns (table: Table)
    ensures table.Keys == before.Keys
    ensures forall r | r in before :: table[r] == Extend(before[r], Asked(r, before[r].slot, registered, exSeat, now))
  {
    table := before;
    var held := set r | r in before && r.Input? && before[r].slot.owner == Some(exSeat);
    while held != {}
      invariant held <= before.Keys == table.Keys
      invariant forall r | r in held :: r.Input? && before[r].slot.owner == Some(exSeat)
      invariant forall r | r in before ::
        table[r] == if r in held then before[r] else
          Extend(before[r], Asked(r, before[r].slot, registered, exSeat, now))
    {
      var r :| r in held;
      var e := table[r];
      if exSeat in registered {
        e := Effect(e.slot.(revokeDeadline := Some(now + REVOKE_TIMEOUT)), e.sent + [Revoke(exSeat)]);
        assert Repeat(Revoke(exSeat), 1) == [Revoke(exSeat)];
      }
      table := table[r := e];
      held := held - {r};
    }
  }

  /** Reclaim every resource whose deadline has passed, in an arbitrary order, and
      note the owners that lost a display. */
  method Sweep(slots: map<Resource, Slot>, registered: set<ClientId>, now: Instant, live: map<Resource, set<ClientId>>)
    returns (table: Table, exSeats: seq<ClientId>)
    ensures table.Keys == slots.Keys
    ensures forall r | r in slots :: table[r] == SweepOne(slots[r], EnvAt(now, registered, live, r))
    ensures forall c: ClientId :: multiset(exSeats)[c] == |LostIn(slots, now, c, slots.Keys)|
  {
    table, exSeats := Opened(slots), [];
    var todo, seen := slots.Keys, {};
    while todo != {}
      invariant todo <= slots.Keys == table.Keys && seen == slots.Keys - todo
      invariant forall r | r in slots ::
        table[r] == if r in todo then Effect(slots[r], []) else SweepOne(slots[r], EnvAt(now, registered, live, r))
      invariant forall c: ClientId :: multiset(exSeats)[c] == |LostIn(slots, now, c, seen)|
    {
      var r :| r in todo;
      var e, lost := SweepSlot(r, table[r].slot, EnvAt(now, registered, live, r));
      exSeats := NoteExSeat(slots, now, seen, r, exSeats, lost);
      table := table[r := e];
      todo, seen := todo - {r}, seen + {r};
    }
    assert seen == slots.Keys;
  }

  method SweepSlot(r: Resource, slot: Slot, env: Env) returns (e: Effect, lost: Option<ClientId>)
    ensures e == SweepOne(slot, env)
    ensures lost == if Expired(slot, env.now) && IsDisplay(r) then slot.owner else None
  {
    e, lost := Effect(slot, []), None;
    if Expired(slot, env.now) {
      if IsDisplay(r) {
        lost := slot.owner;
      }
      e := ServeQueue(slot.(owner := None, revokeDeadline := None), env);
    }
  }

  method NoteExSeat(slots: map<Resource, Slot>, now: Instant, ghost seen: set<Resource>, r: Resource,
                    exSeats: seq<ClientId>, lost: Option<ClientId>)
    returns (exSeats': seq<ClientId>)
    requires r in slots && r !in seen && lost == if Expired(slots[r], now) && IsDisplay(r) then slots[r].owner else None
    requires forall c: ClientId :: multiset(exSeats)[c] == |LostIn(slots, now, c, seen)|
    ensures forall c: ClientId :: multiset(exSeats')[c] == |LostIn(slots, now, c, seen + {r})|
  {
    exSeats' := if lost.Some? then exSeats + [lost.value] else exSeats;
    forall c: ClientId ensures multiset(exSeats')[c] == |LostIn(slots, now, c, seen + {r})| {
      LostMore(slots, now, c, seen, r);
    }
  }

  /** Every slot has been asked by each of the former seats in turn. */
  ghost predicate AskedAll(
    before: Table, table: Table, registered: set<ClientId>, exSeats: seq<ClientId>, now: Instant) {
    && table.Keys == before.Keys
    && forall r | r in before ::
         table[r] == Extend(before[r], AskedTimes(r, before[r].slot, registered, exSeats, now))
  }

  lemma AskedNone(before: Table, registered: set<ClientId>, now: Instant)
    ensures AskedAll(before, before, registered, [], now)
  {
  }

  lemma ExtendTwice(a: Effect, b: Effect, c: Effect)
    ensures Extend(Extend(a, b), c) == Extend(a, Extend(b, c))
  {
    assert (a.sent + b.sent) + c.sent == a.sent + (b.sent + c.sent);
  }

  lemma AskSlot(r: Resource, e: Effect, registered: set<ClientId>, exSeats: seq<ClientId>, c: ClientId, now: Instant)
    ensures var asked := Extend(e, AskedTimes(r, e.slot, registered, exSeats, now));
      Extend(asked, Asked(r, asked.slot, registered, c, now)) ==
      Extend(e, AskedTimes(r, e.slot, registered, exSeats + [c], now))
  {
    var times := AskedTimes(r, e.slot, registered, exSeats, now);
    AskedOnceMore(r, e.slot, registered, exSeats, c, now);
    ExtendTwice(e, times, Asked(r, times.slot, registered, c, now));
  }

  lemma AskMore(before: Table, table: Table, after: Table, registered: set<ClientId>, exSeats: seq<ClientId>,
                c: ClientId, now: Instant)
    requires AskedAll(before, table, registered, exSeats, now) && after.Keys == table.Keys
    requires forall r | r in table :: after[r] == Extend(table[r], Asked(r, table[r].slot, registered, c, now))
    ensures AskedAll(before, after, registered, exSeats + [c], now)
  {
    forall r | r in before
      ensures after[r] == Extend(before[r], AskedTimes(r, before[r].slot, registered, exSeats + [c], now))
    {
      AskSlot(r, before[r], registered, exSeats, c, now);
    }
  }

  method ReleaseAllInputs(before: Table, registered: set<ClientId>, exSeats: seq<ClientId>, now: Instant)
    returns (table: Table)
    ensures AskedAll(before, table, registered, exSeats, now)
  {
    table := before;
    AskedNone(before, registered, now);
    for i := 0 to |exSeats|
      invariant AskedAll(before, table, registered, exSeats[..i], now)
    {
      ghost var asked := table;
      table := ReleaseSeatInputs(table, registered, exSeats[i], now);
      AskMore(before, asked, table, registered, exSeats[..i], exSeats[i], now);
      assert exSeats[..i + 1] == exSeats[..i] + [exSeats[i]];
    }
    assert exSeats[..|exSeats|] == exSeats;
  }

  method ReleaseEverywhere(s: State, c: ClientId, r: Resource, now: Instant, live: map<Resource, set<ClientId>>)
    returns (table: Table)
    ensures table.Keys == s.slots.Keys
    ensures forall q | q in s.slots :: table[q] == ReleaseEffect(s, Step(Event.Release(c, r), now, live), q)
  {
    table := Opened(s.slots);
    if r in s.slots {
      var e := ReleaseFrom(s.slots[r], c, EnvAt(now, s.registered, live, r));
      table := table[r := e];
    }
    if IsDisplay(r) && r in s.slots && s.slots[r].owner == Some(c) {
      table := ReleaseSeatInputs(table, s.registered, c, now);
    }
  }

  /** Validate ownership, put a revoked owner back behind the waiters, and hand the
      resource to the next one. */
  method ReleaseFrom(slot: Slot, c: ClientId, env: Env) returns (e: Effect)
    ensures e == ReleaseOne(slot, c, env)
  {
    if slot.owner != Some(c) {
      return Effect(slot, []);
    }
    var waiters := slot.waiters;
    if slot.revokeDeadline.Some? && slot.waiters != [] {
      waiters := RequeueWaiter(slot.policy, waiters, Waiter(c, false));
    }
    e := ServeQueue(slot.(owner := None, revokeDeadline := None, waiters := waiters), env);
  }

  method AcquireFrom(r: Resource, slot: Slot, c: ClientId, requesterSeat: bool, holderSeat: bool, env: Env)
    returns (e: Effect, outcome: Outcome)
    ensures Acquired(e, outcome) == AcquireOne(r, slot, c, requesterSeat, holderSeat, env)
  {
    e := Effect(slot, []);
    if slot.owner == Some(c) {
      return e, Denied(AlreadyOwned);
    }
    if slot.suspended {
      return e, Denied(DeviceAway);
    }
    if r.Input? && !requesterSeat && slot.owner.Some? {
      return e, Denied(SeatOnly);
    }
    var steal := r.Input? && requesterSeat && slot.owner.Some? && !holderSeat;
    var decision := if steal then RevokeAndQueue else Decide(slot.policy, StateOf(slot));
    if decision == GrantNow {
      return Effect(slot.(owner := Some(c)), []), Outcome.Granted;
    }
    if decision == Refuse {
      return e, Denied(Owned);
    }
    if IsQueued(slot.waiters, c) {
      return e, Queued;
    }
    var joined := slot.(waiters := slot.waiters + [Waiter(c, steal)]);
    e := Effect(joined, []);
    if slot.revokeDeadline.None? && slot.owner.Some? {
      if slot.owner.value in env.registered {
        e := Effect(joined.(revokeDeadline := Some(env.now + REVOKE_TIMEOUT)), [Revoke(slot.owner.value)]);
      } else {
        e := ServeQueue(joined.(owner := None), env);
      }
    }
    return e, Queued;
  }
}
