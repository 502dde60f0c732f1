/** The algebra of waiter queues: removing clients, who stands before whom, and the
    order in which a queue is served. */
module Queues {
  import opened Types
  import opened Policies

  datatype Waiter = Waiter(client: ClientId, seatClaim: bool)

  function Clients(ws: seq<Waiter>): set<ClientId> {
    if ws == [] then {} else {ws[0].client} + Clients(ws[1..])
  }

  predicate IsQueued(ws: seq<Waiter>, c: ClientId) {
    c in Clients(ws)
  }

  /** No client waits twice. */
  predicate Distinct(ws: seq<Waiter>) {
    ws == [] || (ws[0].client !in Clients(ws[1..]) && Distinct(ws[1..]))
  }

  /** The queue without the clients in `gone`, order kept. */
  function Keep(ws: seq<Waiter>, gone: set<ClientId>): seq<Waiter> {
    if ws == [] then []
    else if ws[0].client in gone then Keep(ws[1..], gone)
    else [ws[0]] + Keep(ws[1..], gone)
  }

  /** The part of the queue ahead of a client; the whole queue when it is not in it. */
  function Before(ws: seq<Waiter>, c: ClientId): seq<Waiter> {
    if ws == [] || ws[0].client == c then [] else [ws[0]] + Before(ws[1..], c)
  }

  function Position(ws: seq<Waiter>, c: ClientId): nat {
    |Before(ws, c)|
  }

  /** Client `c` waits and stands before client `d`. */
  predicate Ahead(ws: seq<Waiter>, c: ClientId, d: ClientId) {
    c in Clients(Before(ws, d))
  }

  function Claims(ws: seq<Waiter>): seq<Waiter> {
    if ws == [] then []
    else if ws[0].seatClaim then [ws[0]] + Claims(ws[1..])
    else Claims(ws[1..])
  }

  function Others(ws: seq<Waiter>): seq<Waiter> {
    if ws == [] then []
    else if ws[0].seatClaim then Others(ws[1..])
    else [ws[0]] + Others(ws[1..])
  }

  function Reverse(ws: seq<Waiter>): seq<Waiter> {
    if ws == [] then [] else Reverse(ws[1..]) + [ws[0]]
  }

  /** The order in which a queue is served, whatever the pops look like: seat
      claims oldest first, then the rest by policy (nobody under FirstOwner). */
  function ServiceOrder(policy: Policy, ws: seq<Waiter>): seq<Waiter> {
    Claims(ws) +
    match policy
    case FirstOwner => []
    case LatestOwner => Reverse(Others(ws))
    case FairQueue => Others(ws)
  }

  // ---- Concatenation

  lemma {:induction false} ClientsConcat(a: seq<Waiter>, b: seq<Waiter>)
    ensures Clients(a + b) == Clients(a) + Clients(b)
  {
    if a == [] {
      assert a + b == b;
    } else {
      assert (a + b)[0] == a[0] && (a + b)[1..] == a[1..] + b;
      ClientsConcat(a[1..], b);
    }
  }

  lemma {:induction false} KeepConcat(a: seq<Waiter>, b: seq<Waiter>, gone: set<ClientId>)
    ensures Keep(a + b, gone) == Keep(a, gone) + Keep(b, gone)
  {
    if a == [] {
      assert a + b == b;
    } else {
      assert (a + b)[0] == a[0] && (a + b)[1..] == a[1..] + b;
      KeepConcat(a[1..], b, gone);
      if a[0].client !in gone {
        assert [a[0]] + Keep(a[1..] + b, gone) == [a[0]] + Keep(a[1..], gone) + Keep(b, gone);
      }
    }
  }

  lemma {:induction false} DistinctConcat(a: seq<Waiter>, b: seq<Waiter>)
    ensures Distinct(a + b) <==> Distinct(a) && Distinct(b) && Clients(a) !! Clients(b)
  {
    if a == [] {
      assert a + b == b;
    } else {
      assert (a + b)[0] == a[0] && (a + b)[1..] == a[1..] + b;
      DistinctConcat(a[1..], b);
      ClientsConcat(a[1..], b);
    }
  }

  lemma {:induction false} BeforeConcat(a: seq<Waiter>, b: seq<Waiter>, c: ClientId)
    ensures Before(a + b, c) == if c in Clients(a) then Before(a, c) else a + Before(b, c)
  {
    if a == [] {
      assert a + b == b;
    } else {
      assert (a + b)[0] == a[0] && (a + b)[1..] == a[1..] + b;
      if a[0].client != c {
        BeforeConcat(a[1..], b, c);
        assert a + Before(b, c) == [a[0]] + (a[1..] + Before(b, c));
      }
    }
  }

  lemma {:induction false} PartitionConcat(a: seq<Waiter>, b: seq<Waiter>)
    ensures Claims(a + b) == Claims(a) + Claims(b)
    ensures Others(a + b) == Others(a) + Others(b)
  {
    if a == [] {
      assert a + b == b;
    } else {
      assert (a + b)[0] == a[0] && (a + b)[1..] == a[1..] + b;
      PartitionConcat(a[1..], b);
      assert Claims(a) + Claims(b) == (if a[0].seatClaim then [a[0]] else []) + (Claims(a[1..]) + Claims(b));
      assert Others(a) + Others(b) == (if a[0].seatClaim then [] else [a[0]]) + (Others(a[1..]) + Others(b));
    }
  }

  lemma SingleWaiter(w: Waiter)
    ensures Clients([w]) == {w.client} && Distinct([w])
    ensures Claims([w]) == (if w.seatClaim then [w] else [])
    ensures Others([w]) == (if w.seatClaim then [] else [w])
  {
  }

  // ---- Keep

  lemma {:induction false} KeepClients(ws: seq<Waiter>, gone: set<ClientId>)
    ensures Clients(Keep(ws, gone)) == Clients(ws) - gone
  {
    if ws != [] {
      KeepClients(ws[1..], gone);
      if ws[0].client !in gone {
        assert Keep(ws, gone)[1..] == Keep(ws[1..], gone);
      }
    }
  }

  lemma {:induction false} KeepDistinct(ws: seq<Waiter>, gone: set<ClientId>)
    requires Distinct(ws)
    ensures Distinct(Keep(ws, gone))
  {
    if ws != [] {
      KeepDistinct(ws[1..], gone);
      KeepClients(ws[1..], gone);
      if ws[0].client !in gone {
        assert Keep(ws, gone)[1..] == Keep(ws[1..], gone);
      }
    }
  }

  lemma {:induction false} KeepTwice(ws: seq<Waiter>, a: set<ClientId>, b: set<ClientId>)
    ensures Keep(Keep(ws, a), b) == Keep(ws, a + b)
  {
    if ws != [] {
      KeepTwice(ws[1..], a, b);
      if ws[0].client !in a {
        assert Keep(ws, a)[1..] == Keep(ws[1..], a);
      }
    }
  }

  lemma {:induction false} KeepAll(ws: seq<Waiter>, gone: set<ClientId>)
    requires Clients(ws) !! gone
    ensures Keep(ws, gone) == ws
  {
    if ws != [] {
      KeepAll(ws[1..], gone);
    }
  }

  lemma {:induction false} KeepNone(ws: seq<Waiter>, gone: set<ClientId>)
    requires Clients(ws) <= gone
    ensures Keep(ws, gone) == []
  {
    if ws != [] {
      KeepNone(ws[1..], gone);
    }
  }

  lemma {:induction false} KeepLength(ws: seq<Waiter>, gone: set<ClientId>)
    ensures |Keep(ws, gone)| <= |ws|
    ensures !(Clients(ws) !! gone) ==> |Keep(ws, gone)| < |ws|
  {
    if ws != [] {
      KeepLength(ws[1..], gone);
    }
  }

  /** A waiter that is not removed stays with its claim. */
  lemma {:induction false} KeepWaiter(ws: seq<Waiter>, gone: set<ClientId>, w: Waiter)
    requires w in ws && w.client !in gone
    ensures w in Keep(ws, gone)
  {
    if ws[0] != w {
      KeepWaiter(ws[1..], gone, w);
    }
  }

  lemma {:induction false} WaiterIsQueued(ws: seq<Waiter>, w: Waiter)
    requires w in ws
    ensures w.client in Clients(ws)
  {
    if ws[0] != w {
      WaiterIsQueued(ws[1..], w);
    }
  }

  /** Removing one element of a queue is removing its client. */
  lemma {:induction false} KeepRemove(a: seq<Waiter>, w: Waiter, b: seq<Waiter>)
    requires Distinct(a + [w] + b)
    ensures a + b == Keep(a + [w] + b, {w.client})
  {
    var ws := a + [w] + b;
    if a == [] {
      assert ws[0] == w && ws[1..] == b;
      KeepAll(b, {w.client});
      assert a + b == b;
    } else {
      assert ws[0] == a[0] && ws[1..] == a[1..] + [w] + b;
      assert ws[1..][|a| - 1] == w;
      WaiterIsQueued(ws[1..], w);
      KeepRemove(a[1..], w, b);
      assert a + b == [a[0]] + (a[1..] + b);
    }
  }

  /** Whoever stands before a client that stays still does, except the leavers. */
  lemma {:induction false} KeepBefore(ws: seq<Waiter>, gone: set<ClientId>, c: ClientId)
    requires c !in gone
    ensures Before(Keep(ws, gone), c) == Keep(Before(ws, c), gone)
  {
    if ws != [] && ws[0].client != c {
      KeepBefore(ws[1..], gone, c);
      assert Before(ws, c)[1..] == Before(ws[1..], c);
      if ws[0].client !in gone {
        assert Keep(ws, gone)[1..] == Keep(ws[1..], gone);
      }
    }
  }

  /** Removing others never sends a client back, and moves it up if one of them
      stood before it. */
  lemma KeepPosition(ws: seq<Waiter>, gone: set<ClientId>, c: ClientId)
    requires c !in gone
    ensures Position(Keep(ws, gone), c) <= Position(ws, c)
    ensures !(Clients(Before(ws, c)) !! gone) ==> Position(Keep(ws, gone), c) < Position(ws, c)
  {
    KeepBefore(ws, gone, c);
    KeepLength(Before(ws, c), gone);
  }

  /** Removing clients never swaps two that stay. */
  lemma KeepAhead(ws: seq<Waiter>, gone: set<ClientId>, c: ClientId, d: ClientId)
    requires c !in gone && d !in gone
    ensures Ahead(Keep(ws, gone), c, d) <==> Ahead(ws, c, d)
  {
    KeepBefore(ws, gone, d);
    KeepClients(Before(ws, d), gone);
  }

  /** Two clients in a queue stand one before the other. */
  lemma {:induction false} AheadTotal(ws: seq<Waiter>, c: ClientId, d: ClientId)
    requires c in Clients(ws) && d in Clients(ws) && c != d
    ensures Ahead(ws, c, d) <==> !Ahead(ws, d, c)
  {
    if ws[0].client != c && ws[0].client != d {
      AheadTotal(ws[1..], c, d);
      assert Before(ws, d)[1..] == Before(ws[1..], d);
      assert Before(ws, c)[1..] == Before(ws[1..], c);
    } else if ws[0].client == c {
      assert Before(ws, d)[0] == ws[0];
    } else {
      assert Before(ws, c)[0] == ws[0];
    }
  }

  lemma {:induction false} BeforeClients(ws: seq<Waiter>, c: ClientId)
    ensures Clients(Before(ws, c)) <= Clients(ws)
  {
    if ws != [] && ws[0].client != c {
      BeforeClients(ws[1..], c);
      assert Before(ws, c)[1..] == Before(ws[1..], c);
    }
  }

  // ---- ServiceOrder

  lemma {:induction false} PartitionKeep(ws: seq<Waiter>, gone: set<ClientId>)
    ensures Claims(Keep(ws, gone)) == Keep(Claims(ws), gone)
    ensures Others(Keep(ws, gone)) == Keep(Others(ws), gone)
  {
    if ws != [] {
      PartitionKeep(ws[1..], gone);
      if ws[0].client !in gone {
        assert Keep(ws, gone)[1..] == Keep(ws[1..], gone);
      }
      if ws[0].seatClaim {
        assert Claims(ws)[1..] == Claims(ws[1..]);
      } else {
        assert Others(ws)[1..] == Others(ws[1..]);
      }
    }
  }

  lemma {:induction false} ReverseKeep(ws: seq<Waiter>, gone: set<ClientId>)
    ensures Reverse(Keep(ws, gone)) == Keep(Reverse(ws), gone)
  {
    if ws != [] {
      ReverseKeep(ws[1..], gone);
      KeepConcat(Reverse(ws[1..]), [ws[0]], gone);
      if ws[0].client !in gone {
        assert Keep(ws, gone)[1..] == Keep(ws[1..], gone);
        KeepAll([ws[0]], gone);
      } else {
        KeepNone([ws[0]], gone);
      }
    }
  }

  /** Removing clients from a queue removes them from its service order. */
  lemma ServiceOrderKeep(policy: Policy, ws: seq<Waiter>, gone: set<ClientId>)
    ensures ServiceOrder(policy, Keep(ws, gone)) == Keep(ServiceOrder(policy, ws), gone)
  {
    PartitionKeep(ws, gone);
    ReverseKeep(Others(ws), gone);
    match policy
    case FirstOwner => KeepConcat(Claims(ws), [], gone);
    case LatestOwner => KeepConcat(Claims(ws), Reverse(Others(ws)), gone);
    case FairQueue => KeepConcat(Claims(ws), Others(ws), gone);
  }

  lemma {:induction false} PartitionClients(ws: seq<Waiter>)
    ensures Clients(Claims(ws)) + Clients(Others(ws)) == Clients(ws)
    ensures Distinct(ws) ==> Distinct(Claims(ws)) && Distinct(Others(ws)) && Clients(Claims(ws)) !! Clients(Others(ws))
  {
    if ws != [] {
      PartitionClients(ws[1..]);
      if ws[0].seatClaim {
        assert Claims(ws)[1..] == Claims(ws[1..]);
      } else {
        assert Others(ws)[1..] == Others(ws[1..]);
      }
    }
  }

  lemma {:induction false} ReverseClients(ws: seq<Waiter>)
    ensures Clients(Reverse(ws)) == Clients(ws)
    ensures Distinct(ws) ==> Distinct(Reverse(ws))
  {
    if ws != [] {
      ReverseClients(ws[1..]);
      SingleWaiter(ws[0]);
      ClientsConcat(Reverse(ws[1..]), [ws[0]]);
      DistinctConcat(Reverse(ws[1..]), [ws[0]]);
    }
  }

  /** Who is in the service order: everyone, except non-claims under FirstOwner. */
  lemma ServiceOrderClients(policy: Policy, ws: seq<Waiter>)
    ensures Clients(ServiceOrder(policy, ws)) ==
            if policy == FirstOwner then Clients(Claims(ws)) else Clients(ws)
    ensures Distinct(ws) ==> Distinct(ServiceOrder(policy, ws))
  {
    PartitionClients(ws);
    ReverseClients(Others(ws));
    match policy
    case FirstOwner => assert Claims(ws) + [] == Claims(ws);
    case LatestOwner =>
      ClientsConcat(Claims(ws), Reverse(Others(ws)));
      DistinctConcat(Claims(ws), Reverse(Others(ws)));
    case FairQueue =>
      ClientsConcat(Claims(ws), Others(ws));
      DistinctConcat(Claims(ws), Others(ws));
  }

  /** Putting a preempted owner back puts it last in the service order. */
  lemma RequeueIsServedLast(policy: Policy, ws: seq<Waiter>, w: Waiter)
    requires policy != FirstOwner && !w.seatClaim
    ensures ServiceOrder(policy, RequeueWaiter(policy, ws, w)) == ServiceOrder(policy, ws) + [w]
  {
    var claims, others := Claims(ws), Others(ws);
    SingleWaiter(w);
    if policy == FairQueue {
      PartitionConcat(ws, [w]);
      assert ServiceOrder(policy, ws + [w]) == claims + (others + [w]);
    } else {
      PartitionConcat([w], ws);
      assert Others([w] + ws)[0] == w && Others([w] + ws)[1..] == others;
      assert ServiceOrder(policy, [w] + ws) == claims + (Reverse(others) + [w]);
    }
  }

  lemma {:induction false} OtherIsWaiter(ws: seq<Waiter>, w: Waiter)
    requires w in ws && !w.seatClaim
    ensures w in Others(ws)
  {
    if ws[0] != w {
      OtherIsWaiter(ws[1..], w);
    }
  }

  /** Leaving out the seat claims changes nobody's place. */
  lemma {:induction false} OthersAhead(ws: seq<Waiter>, c: ClientId, d: ClientId)
    requires Distinct(ws) && d in Clients(Others(ws)) && Ahead(Others(ws), c, d)
    ensures Ahead(ws, c, d)
  {
    PartitionClients(ws[1..]);
    var h, tail := ws[0], ws[1..];
    if !h.seatClaim {
      assert Others(ws)[0] == h && Others(ws)[1..] == Others(tail);
      assert Before(Others(ws), d)[1..] == Before(Others(tail), d);
    }
    if h.seatClaim || h.client != c {
      OthersAhead(tail, c, d);
    }
    assert Before(ws, d)[0] == h && Before(ws, d)[1..] == Before(tail, d);
  }

  lemma {:induction false} NoClaims(ws: seq<Waiter>)
    requires Claims(ws) == []
    ensures Others(ws) == ws
  {
    if ws != [] {
      NoClaims(ws[1..]);
    }
  }
}
