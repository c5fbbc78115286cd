/**
  Room in the fill buffer.  A matching policy writes its fills into a buffer of fixed size and does
  not look at how much room there is (exchange-core/matching_engine.h, match_order), so what a
  level may come to hold matters: the orders that rest at its price, the stop-limits that wait to
  be worked at that price, and the order in hand.
 */
module Room {
  import opened Types
  import opened Queues
  import opened Levels
  import opened EngineState
  import opened Ledger
  import opened Trading
  import opened Matching
  import opened Priority
  import opened Policies
  import opened Crowds
  import opened Progress
  import opened Stops
  import opened Lifecycle

  // ---------------------------------------------------------------- the fill buffer

  /** kMaxFills. */
  const MAX_FILLS := 256

  /** How many orders of one price the buffer has room for under a policy. */
  function PerPrice(policy: Policy): nat { MAX_FILLS - policy.Extra() }

  /** Orders of a side that rest at a price or wait to be worked at it. */
  function Crowd(s: State, side: Side, p: int): nat { Priced(s.Book(side), p) + Priced(s.Stops(side), p) }

  /** At every price the buffer has room. */
  ghost predicate Roomy(policy: Policy, s: State) { forall side, p :: Crowd(s, side, p) <= PerPrice(policy) }

  /** And still has with the order in hand. */
  ghost predicate RoomyWith(policy: Policy, s: State, o: Order) {
    forall side, p :: Crowd(s, side, p) + (if o.side == side && Bids(o, p) then 1 else 0) <= PerPrice(policy)
  }

  /** No price of s has more orders than it had in s0. */
  ghost predicate Thins(s0: State, s: State) { forall side, p :: Crowd(s, side, p) <= Crowd(s0, side, p) }

  lemma ThinsTrans(s0: State, s1: State, s2: State)
    requires Thins(s0, s1) && Thins(s1, s2)
    ensures Thins(s0, s2)
  {
    hide Crowd;
  }

  lemma ThinsOf(s0: State, s: State)
    requires Thinner(s0.bids, s.bids) && Thinner(s0.asks, s.asks)
    requires Thinner(s0.buyStops, s.buyStops) && Thinner(s0.sellStops, s.sellStops)
    ensures Thins(s0, s)
  {
    hide Priced;
  }

  lemma NoneThinner(s: State)
    ensures Thins(s, s)
  {
  }

  lemma ThinsSame(s0: State, s: State, s': State)
    requires Thins(s0, s)
    requires s'.bids == s.bids && s'.asks == s.asks && s'.buyStops == s.buyStops && s'.sellStops == s.sellStops
    ensures Thins(s0, s')
  {
    forall side, p ensures Crowd(s', side, p) <= Crowd(s0, side, p) {
      assert Crowd(s, side, p) <= Crowd(s0, side, p);
    }
  }

  lemma ThinnerSame(ls: seq<Level>)
    ensures Thinner(ls, ls)
  {
  }

  lemma RoomyThins(policy: Policy, s0: State, s: State)
    requires Roomy(policy, s0) && Thins(s0, s)
    ensures Roomy(policy, s)
  {
    hide Crowd;
  }

  /** A level of the book fits the buffer, whatever the policy writes for it. */
  lemma LevelFits(policy: Policy, lim: Limits, s: State, hand: multiset<nat>, o: Order, side: Side)
    requires RoomyWith(policy, s, o) && Shape(lim, s, hand) && s.Book(side) != []
    ensures |s.Book(side)[0].orders| + policy.Extra() <= MAX_FILLS
  {
    hide Shape, Crowd;
    CrowdAtBest(lim, s, hand, side);
  }

  lemma CrowdAtBest(lim: Limits, s: State, hand: multiset<nat>, side: Side)
    requires Shape(lim, s, hand) && s.Book(side) != []
    ensures Crowd(s, side, s.Book(side)[0].price) >= |s.Book(side)[0].orders|
  {
    hide Priced, PricedIn, Bag, StopSide;
    var ls := s.Book(side);
    var p := ls[0].price;
    assert BookSide(side, ls) && BookLevel(side, ls[0]);
    PricedAll(ls[0].orders, p);
    PricedSplit(ls, 0, p);
  }

  // ---------------------------------------------------------------- the order in hand finds its place

  lemma RestRoomy(policy: Policy, s: State, o: Order)
    requires RoomyWith(policy, s, o)
    ensures Roomy(policy, Rest(s, o))
  {
    hide Priced, Insert;
    forall side, p ensures Crowd(Rest(s, o), side, p) <= PerPrice(policy) {
      assert Crowd(s, side, p) + (if o.side == side && Bids(o, p) then 1 else 0) <= PerPrice(policy);
      InsertPriced(o.side, s.Book(o.side), o.price, o, p);
    }
  }

  lemma ParkRoomy(policy: Policy, s: State, o: Order, stopPrice: int)
    requires RoomyWith(policy, s, o)
    ensures Roomy(policy, Park(s, o, stopPrice))
  {
    hide Priced, Insert;
    forall side, p ensures Crowd(Park(s, o, stopPrice), side, p) <= PerPrice(policy) {
      assert Crowd(s, side, p) + (if o.side == side && Bids(o, p) then 1 else 0) <= PerPrice(policy);
      InsertPriced(o.side.Opposite(), s.Stops(o.side), stopPrice, o, p);
    }
  }

  lemma DropRoomy(policy: Policy, s: State, o: Order, s': State)
    requires RoomyWith(policy, s, o)
    requires s'.bids == s.bids && s'.asks == s.asks && s'.buyStops == s.buyStops && s'.sellStops == s.sellStops
    ensures Roomy(policy, s')
  {
    forall side, p ensures Crowd(s', side, p) <= PerPrice(policy) {
      assert Crowd(s, side, p) + (if o.side == side && Bids(o, p) then 1 else 0) <= PerPrice(policy);
    }
  }

  /** A stop taken out to be worked makes the room it takes. */
  lemma UnparkRoomy(policy: Policy, s: State, side: Side, k: nat, j: nat)
    requires Roomy(policy, s) && Spot(s.Stops(side), k, j) && s.Stops(side)[k].orders[j].side == side
    requires s.Stops(side)[k].orders[j].kind == Stop || s.Stops(side)[k].orders[j].kind == StopLimit
    ensures RoomyWith(policy, Unpark(s, side, k, j), Convert(s.Stops(side)[k].orders[j]))
  {
    hide Priced, PricedIn, PutQueue, Without;
    var ls := s.Stops(side);
    var x, s' := ls[k].orders[j], Unpark(s, side, k, j);
    var o := Convert(x);
    forall sd, p ensures Crowd(s', sd, p) + (if o.side == sd && Bids(o, p) then 1 else 0) <= PerPrice(policy) {
      assert Crowd(s, sd, p) <= PerPrice(policy);
      PutPriced(ls, k, Without(ls[k].orders, j), p);
      PricedInAt(ls[k].orders, j, p);
    }
  }

  /** Matching an order keeps the room it started with. */
  lemma AdvancedRoomy(r: Rules, s0: State, o0: Order, v: State, o: Order)
    requires RoomyWith(r.policy, s0, o0) && Advanced(r, s0, o0, v, o)
    ensures RoomyWith(r.policy, v, o)
  {
    hide Priced, Fair, FairTrades, PricesWithin, MirrorsBook, Strangers, Reach;
    forall side, p ensures Crowd(v, side, p) + (if o.side == side && Bids(o, p) then 1 else 0) <= PerPrice(r.policy) {
      assert Crowd(s0, side, p) + (if o0.side == side && Bids(o0, p) then 1 else 0) <= PerPrice(r.policy);
    }
  }

  lemma EndedRoomy(r: Rules, s: State, o: Order, outcome: Outcome, x: SessionState)
    requires RoomyWith(r.policy, s, o)
    ensures Roomy(r.policy, Ended(s.(session := x), o, outcome))
  {
    hide Rest, Roomy, RoomyWith;
    SameRoom(r.policy, s, o, s.(session := x));
    match outcome
    case Booked => RestRoomy(r.policy, s.(session := x), o);
    case _ => DropRoomy(r.policy, s, o, Ended(s.(session := x), o, outcome));
  }

  lemma SameRoom(policy: Policy, s: State, o: Order, s': State)
    requires RoomyWith(policy, s, o)
    requires s'.bids == s.bids && s'.asks == s.asks && s'.buyStops == s.buyStops && s'.sellStops == s.sellStops
    ensures RoomyWith(policy, s', o)
  {
    forall side, p ensures Crowd(s', side, p) + (if o.side == side && Bids(o, p) then 1 else 0) <= PerPrice(policy) {
      assert Crowd(s, side, p) + (if o.side == side && Bids(o, p) then 1 else 0) <= PerPrice(policy);
    }
  }

  /** The best level the order in hand is matched against fits the buffer. */
  lemma BestFits(r: Rules, s: State, o: Order)
    requires InHand(r.lim, s, o) && RoomyWith(r.policy, s, o) && s.Book(o.side.Opposite()) != []
    ensures |s.Book(o.side.Opposite())[0].orders| + r.policy.Extra() <= MAX_FILLS
  {
    hide Shape, RoomyWith, Reconciled, Balanced, Showing;
    LevelFits(r.policy, r.lim, s, multiset{o.id}, o, o.side.Opposite());
  }

  lemma HeadRoomy(r: Rules, s: State, side: Side)
    requires Inv(r.lim, s, multiset{}) && Roomy(r.policy, s) && Spot(s.Stops(side), 0, 0)
    ensures RoomyWith(r.policy, Unpark(s, side, 0, 0), Convert(s.Stops(side)[0].orders[0]))
  {
    hide Roomy, RoomyWith, Reconciled, Balanced, Showing, Unpark;
    StopSideOf(r.lim, s, multiset{}, side);
    var ls := s.Stops(side);
    assert StopLevel(side, ls[0]) && WaitsAt(side, ls[0].price, ls[0].orders[0]);
    UnparkRoomy(r.policy, s, side, 0, 0);
  }

  /** Room for one more order at its limit price. */
  predicate RoomFor(policy: Policy, s: State, req: Request) {
    req.IsPriced() ==> Crowd(s, req.side, req.price) < PerPrice(policy)
  }

  lemma AcceptRoomy(policy: Policy, s: State, req: Request)
    requires Roomy(policy, s) && RoomFor(policy, s, req)
    ensures RoomyWith(policy, AcceptedState(s), OrderOf(req, s.nextId))
  {
    var s', o := AcceptedState(s), OrderOf(req, s.nextId);
    forall side, p ensures Crowd(s', side, p) + (if o.side == side && Bids(o, p) then 1 else 0) <= PerPrice(policy) {
      assert Crowd(s, side, p) <= PerPrice(policy);
    }
  }

  lemma TakeOutThins(s: State, side: Side, k: nat, j: nat, s': State)
    requires Spot(s.Book(side), k, j)
    requires s'.Book(side) == PutQueue(s.Book(side), k, Without(s.Book(side)[k].orders, j))
    requires s'.Book(side.Opposite()) == s.Book(side.Opposite()) && s'.buyStops == s.buyStops && s'.sellStops == s.sellStops
    ensures Thins(s, s')
  {
    hide Thinner, Thins, PutQueue;
    WithoutThinner(s.Book(side), k, j);
    ThinnerSame(s.Book(side.Opposite()));
    ThinnerSame(s.buyStops);
    ThinnerSame(s.sellStops);
    ThinsOf(s, s');
  }

  lemma StopOutThins(s: State, side: Side, k: nat, j: nat, s': State)
    requires Spot(s.Stops(side), k, j)
    requires s'.Stops(side) == PutQueue(s.Stops(side), k, Without(s.Stops(side)[k].orders, j))
    requires s'.Stops(side.Opposite()) == s.Stops(side.Opposite()) && s'.bids == s.bids && s'.asks == s.asks
    ensures Thins(s, s')
  {
    hide Thinner, Thins, PutQueue;
    WithoutThinner(s.Stops(side), k, j);
    ThinnerSame(s.Stops(side.Opposite()));
    ThinnerSame(s.bids);
    ThinnerSame(s.asks);
    ThinsOf(s, s');
  }

  lemma SwapThins(s: State, side: Side, k: nat, j: nat, o: Order, s': State)
    requires Spot(s.Book(side), k, j)
    requires o.kind == s.Book(side)[k].orders[j].kind && o.price == s.Book(side)[k].orders[j].price
    requires s' == s.WithBook(side, PutQueue(s.Book(side), k, s.Book(side)[k].orders[j := o]))
    ensures Thins(s, s')
  {
    hide Thinner, Thins, PutQueue;
    SwapThinner(s.Book(side), k, j, o);
    ThinnerSame(s.Book(side.Opposite()));
    ThinnerSame(s.buyStops);
    ThinnerSame(s.sellStops);
    ThinsOf(s, s');
  }

  /** One order taken off its price makes room for itself there. */
  lemma PullRoomy(policy: Policy, s: State, side: Side, k: nat, j: nat, o: Order, s': State)
    requires Roomy(policy, s) && Spot(s.Book(side), k, j) && s.Book(side)[k].orders[j].kind == Limit
    requires s'.Book(side) == PutQueue(s.Book(side), k, Without(s.Book(side)[k].orders, j))
    requires s'.Book(side.Opposite()) == s.Book(side.Opposite()) && s'.buyStops == s.buyStops && s'.sellStops == s.sellStops
    requires o.side == side && (o.price == s.Book(side)[k].orders[j].price || Crowd(s, side, o.price) < PerPrice(policy))
    ensures RoomyWith(policy, s', o)
  {
    hide Priced, PricedIn, PutQueue, Without;
    var ls := s.Book(side);
    forall sd, p ensures Crowd(s', sd, p) + (if o.side == sd && Bids(o, p) then 1 else 0) <= PerPrice(policy) {
      assert Crowd(s, sd, p) <= PerPrice(policy);
      PutPriced(ls, k, Without(ls[k].orders, j), p);
      PricedInAt(ls[k].orders, j, p);
    }
  }
}
