/**
  Implied fills (exchange-core/matching_engine.h, apply_implied_fills): a batch of fills of
  resting orders with no aggressor, applied all or not at all.
 */
module Implied {
  import opened Types
  import opened Queues
  import opened Levels
  import opened Tape
  import opened Ledger
  import opened EngineState
  import opened Steps
  import opened Trading
  import opened Matching
  import opened Progress
  import opened Stops
  import opened Cancels
  import opened Busts
  import opened Crowds
  import opened Room

  /** LegFill. */
  datatype Leg = Leg(id: nat, price: int, qty: int)

  ghost predicate DistinctLegs(legs: seq<Leg>) {
    forall i, j :: 0 <= i < j < |legs| ==> legs[i].id != legs[j].id
  }

  /** The order a leg names, if held, is a resting limit order. */
  ghost predicate RestingLegs(s: State, legs: seq<Leg>) {
    forall i, o :: 0 <= i < |legs| && Held(s, o) && o.id == legs[i].id ==> o.kind == Limit
  }

  /** A leg that passes validation: something to fill, on an order that shows as much. */
  ghost predicate LegOk(s: State, leg: Leg) {
    leg.qty > 0 && exists o :: Held(s, o) && o.id == leg.id && o.remaining >= leg.qty
  }

  ghost predicate LegsOk(s: State, legs: seq<Leg>) { forall i :: 0 <= i < |legs| ==> LegOk(s, legs[i]) }

  function LegTrade(o: Order, leg: Leg): Trade {
    Trade(leg.price, leg.qty, o.id, o.id, o.side, o.account, o.account)
  }

  // ---------------------------------------------------------------- orders the fill does not name

  lemma FillQOthers(q: seq<Order>, j: nat, n: int, o: Order)
    requires j < |q| && NoDup(q) && o.id != q[j].id
    ensures o in FillQ(q, j, n) <==> o in q
  {
    var q' := FillQ(q, j, n);
    if o in q {
      var i :| 0 <= i < |q| && q[i] == o;
      assert o == q'[if q[j].remaining != n || i < j then i else i - 1];
    }
  }

  lemma FillListed(dir: Side, ls: seq<Level>, k: nat, j: nat, n: int, o: Order)
    requires Sorted(dir, ls) && Spot(ls, k, j) && NoDup(ls[k].orders) && o.id != ls[k].orders[j].id
    ensures Listed(PutQueue(ls, k, FillQ(ls[k].orders, j, n)), o) <==> Listed(ls, o)
  {
    var q' := FillQ(ls[k].orders, j, n);
    PutMembers(dir, ls, k, q');
    FillQOthers(ls[k].orders, j, n, o);
    if Listed(PutQueue(ls, k, q'), o) {
      var lv :| lv in PutQueue(ls, k, q') && o in lv.orders;
      if lv.price == ls[k].price { assert ls[k] in ls; }
    }
    if Listed(ls, o) {
      var lv :| lv in ls && o in lv.orders;
      if lv.price == ls[k].price {
        SamePrice(dir, ls, k, lv);
        assert MkLevel(ls[k].price, q') in PutQueue(ls, k, q');
      }
    }
  }

  lemma TradeStepHeld(lim: Limits, s: State, hand: multiset<nat>, side: Side, k: nat, j: nat, t: Trade, o: Order)
    requires Shape(lim, s, hand) && Spot(s.Book(side), k, j) && o.id != s.Book(side)[k].orders[j].id
    ensures Held(TradeStep(lim, s, side, k, j, t), o) <==> Held(s, o)
  {
    FillAtBook(s, side, k, j, t.qty, t.price);
    UniqueInQueue(lim, s, hand, side, k);
    SortedBook(lim, s, hand, side);
    FillListed(side, s.Book(side), k, j, t.qty, o);
    hide Listed, Shape, FillQ;
  }

  // ---------------------------------------------------------------- one leg

  /** A leg's trade keeps every invariant, the feed and an uncrossed book. */
  lemma LegStep(lim: Limits, s: State, side: Side, k: nat, j: nat, leg: Leg)
    requires Inv(lim, s, multiset{}) && Spot(s.Book(side), k, j)
    requires 0 < leg.qty <= s.Book(side)[k].orders[j].remaining
    ensures var s' := TradeStep(lim, s, side, k, j, LegTrade(s.Book(side)[k].orders[j], leg));
      Inv(lim, s', multiset{}) && (MirrorsBook(s) ==> MirrorsBook(s')) && (Uncrossed(s) ==> Uncrossed(s'))
      && s'.ledger.log == s.ledger.log + [LegTrade(s.Book(side)[k].orders[j], leg)]
      && s'.session == s.session && s'.nextId == s.nextId && s'.buyStops == s.buyStops && s'.sellStops == s.sellStops
  {
    hide Inv, Shape, Showing, Names, MirrorsBook, Uncrossed, TradeStep;
    var o := s.Book(side)[k].orders[j];
    var t := LegTrade(o, leg);
    InvShape(lim, s, multiset{});
    KnownSpot(lim, s, multiset{}, side, k, j);
    LegNames(s, side, k, j, leg);
    TradeStepInv(lim, s, multiset{}, side, k, j, t, o.id);
    if MirrorsBook(s) { TradeStepMirrors(lim, s, multiset{}, side, k, j, t); }
    TradeStepAside(lim, s, side, k, j, t);
  }

  lemma TradeThins(lim: Limits, s: State, side: Side, k: nat, j: nat, t: Trade)
    requires Spot(s.Book(side), k, j)
    ensures Thins(s, TradeStep(lim, s, side, k, j, t))
  {
    hide Thins, Thinner, FillQ, PutQueue, FillAt;
    var s' := TradeStep(lim, s, side, k, j, t);
    FillAtBook(s, side, k, j, t.qty, t.price);
    TradeStepAside(lim, s, side, k, j, t);
    FillThinner(s.Book(side), k, j, t.qty);
    ThinnerSame(s.Book(side.Opposite()));
    ThinnerSame(s.buyStops);
    ThinnerSame(s.sellStops);
    ThinsOf(s, s');
  }

  lemma LegNames(s: State, side: Side, k: nat, j: nat, leg: Leg)
    requires Spot(s.Book(side), k, j)
    ensures Names(s, side, k, j, LegTrade(s.Book(side)[k].orders[j], leg), s.Book(side)[k].orders[j].id)
  {
  }

  lemma TradeStepAside(lim: Limits, s: State, side: Side, k: nat, j: nat, t: Trade)
    requires Spot(s.Book(side), k, j)
    ensures var s' := TradeStep(lim, s, side, k, j, t);
      && (Uncrossed(s) ==> Uncrossed(s')) && s'.ledger.log == s.ledger.log + [t]
      && s'.session == s.session && s'.nextId == s.nextId && s'.buyStops == s.buyStops && s'.sellStops == s.sellStops
  {
    FillAtBook(s, side, k, j, t.qty, t.price);
    PutPrices(s.Book(side), k, FillQ(s.Book(side)[k].orders, j, t.qty));
    if Uncrossed(s) { PricesUncrossed(s, TradeStep(lim, s, side, k, j, t), side.Opposite()); }
  }

  /** The legs still to come are as they were. */
  lemma LegsStay(lim: Limits, s: State, side: Side, k: nat, j: nat, t: Trade, legs: seq<Leg>)
    requires Shape(lim, s, multiset{}) && Spot(s.Book(side), k, j) && LegsOk(s, legs) && RestingLegs(s, legs)
    requires forall i :: 0 <= i < |legs| ==> legs[i].id != s.Book(side)[k].orders[j].id
    ensures var s' := TradeStep(lim, s, side, k, j, t); LegsOk(s', legs) && RestingLegs(s', legs)
  {
    var s' := TradeStep(lim, s, side, k, j, t);
    forall i | 0 <= i < |legs| ensures LegOk(s', legs[i]) {
      assert LegOk(s, legs[i]);
      var o :| Held(s, o) && o.id == legs[i].id && o.remaining >= legs[i].qty;
      TradeStepHeld(lim, s, multiset{}, side, k, j, t, o);
    }
    forall i, o | 0 <= i < |legs| && Held(s', o) && o.id == legs[i].id ensures o.kind == Limit {
      TradeStepHeld(lim, s, multiset{}, side, k, j, t, o);
    }
  }

  /** The order a leg names, found. */
  lemma LegTarget(lim: Limits, s: State, at: Place, legs: seq<Leg>)
    requires Inv(lim, s, multiset{}) && Spot(ListAt(s, at), at.k, at.j) && legs != []
    requires ListAt(s, at)[at.k].orders[at.j].id == legs[0].id && RestingLegs(s, legs)
    ensures !at.stops && CachesOk(s.Book(at.side)[at.k])
    ensures LegOk(s, legs[0]) <==> 0 < legs[0].qty <= s.Book(at.side)[at.k].orders[at.j].remaining
  {
    var ls := ListAt(s, at);
    var o := ls[at.k].orders[at.j];
    assert ls[at.k] in ls && o in ls[at.k].orders;
    assert Listed(ls, o);
    assert Held(s, o);
    if at.stops {
      StopSideOf(lim, s, multiset{}, at.side);
      UnparkSide(at.side, ls, at.k, at.j);
    }
    if LegOk(s, legs[0]) {
      var x :| Held(s, x) && x.id == legs[0].id && x.remaining >= legs[0].qty;
      HeldUnique(lim, s, at, x);
    }
  }

  lemma NoLeg(lim: Limits, s: State, leg: Leg)
    requires Shape(lim, s, multiset{}) && leg.id !in s.live
    ensures !LegOk(s, leg)
  {
    forall o | Held(s, o) ensures o.id != leg.id { HeldIsLive(lim, s, o); }
  }

  /** The trade an implied fill leaves: one order on both sides. */
  ghost predicate IsLegTrade(leg: Leg, t: Trade) {
    t.Implied() && t.aggressor == leg.id && t.price == leg.price && t.qty == leg.qty
  }

  lemma TakenSpot(s: State, side: Side, k: nat, j: nat, n: int, price: int)
    requires Spot(s.Book(side), k, j)
    ensures var ls := TakeAt(s, side, k, j, n, price).Book(side);
      Spot(ls, k, j) && CachesOk(ls[k]) && ls[k].orders == s.Book(side)[k].orders[j := s.Book(side)[k].orders[j].Filled(n)]
  {
  }

  lemma LegLive(lim: Limits, s: State, legs: seq<Leg>)
    requires Inv(lim, s, multiset{}) && legs != [] && LegsOk(s, legs)
    ensures legs[0].id in s.live && Shape(lim, s, multiset{}) && LegOk(s, legs[0])
    ensures |s.ledger.trades| <= Capacity(lim.maxTrades)
  {
    assert LegOk(s, legs[0]);
    if legs[0].id !in s.live { NoLeg(lim, s, legs[0]); }
  }

  lemma LegsTail(lim: Limits, s: State, side: Side, k: nat, j: nat, legs: seq<Leg>, i: nat)
    requires Shape(lim, s, multiset{}) && Spot(s.Book(side), k, j) && i < |legs| && DistinctLegs(legs)
    requires LegsOk(s, legs[i..]) && RestingLegs(s, legs[i..]) && s.Book(side)[k].orders[j].id == legs[i].id
    ensures var s' := TradeStep(lim, s, side, k, j, LegTrade(s.Book(side)[k].orders[j], legs[i]));
      LegsOk(s', legs[i+1..]) && RestingLegs(s', legs[i+1..])
  {
    var rest := legs[i+1..];
    forall m | 0 <= m < |rest| ensures LegOk(s, rest[m]) { assert rest[m] == legs[i..][m+1]; }
    forall m, o | 0 <= m < |rest| && Held(s, o) && o.id == rest[m].id ensures o.kind == Limit {
      assert rest[m] == legs[i..][m+1];
    }
    LegsStay(lim, s, side, k, j, LegTrade(s.Book(side)[k].orders[j], legs[i]), rest);
  }

  /** Whether a leg passes is decided by the order the index finds, in whichever book it is. */
  lemma LegAt(lim: Limits, s: State, at: Place, leg: Leg)
    requires Inv(lim, s, multiset{}) && Spot(ListAt(s, at), at.k, at.j) && ListAt(s, at)[at.k].orders[at.j].id == leg.id
    ensures LegOk(s, leg) <==> 0 < leg.qty <= ListAt(s, at)[at.k].orders[at.j].remaining
  {
    hide Inv;
    var ls := ListAt(s, at);
    var x := ls[at.k].orders[at.j];
    assert ls[at.k] in ls && x in ls[at.k].orders && Listed(ls, x);
    assert Held(s, x);
    if LegOk(s, leg) {
      var o :| Held(s, o) && o.id == leg.id && o.remaining >= leg.qty;
      HeldUnique(lim, s, at, o);
    }
  }
}
