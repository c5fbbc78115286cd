/**
  Stop orders (exchange-core/stop_book.cc): waiting orders listed so that the first to
  trigger on each side is at the head.
 */
module Stops {
  import opened Types
  import opened Queues
  import opened Levels
  import opened Tape
  import opened Ledger
  import opened EngineState
  import opened Steps
  import opened Trading
  import opened Matching
  import opened Progress

  /** A stop at `price` triggers: buys on a rise to it, sells on a fall to it. */
  predicate Triggers(side: Side, price: int, last: int) {
    if side.Buy? then last >= price else last <= price
  }

  /** No stop anywhere in either list triggers. */
  ghost predicate NoneTriggered(s: State) {
    && (forall lv :: lv in s.buyStops ==> s.lastTrade < lv.price)
    && (forall lv :: lv in s.sellStops ==> s.lastTrade > lv.price)
  }

  ghost function StopCount(s: State): nat { OrderCount(s.buyStops) + OrderCount(s.sellStops) }

  // ---------------------------------------------------------------- changes

  /** Put an order away at its stop price, or cancel it when no spare level is to be had. */
  function Park(s: State, o: Order, stopPrice: int): State {
    var dir, ls := o.side.Opposite(), s.Stops(o.side);
    if s.freeLevels == 0 then DropHand(s, o.id, LevelPoolExhausted)
    else
      s.WithStops(o.side, Insert(dir, ls, stopPrice, o))
       .(freeLevels := s.freeLevels - if QueueAt(dir, ls, stopPrice) == [] then 1 else 0)
  }

  /** Take a waiting order out. */
  function Unpark(s: State, side: Side, k: nat, j: nat): State
    requires k < |s.Stops(side)| && j < |s.Stops(side)[k].orders|
  {
    var ls := s.Stops(side);
    s.WithStops(side, PutQueue(ls, k, Without(ls[k].orders, j)))
     .(freeLevels := s.freeLevels + if |ls[k].orders| == 1 then 1 else 0)
  }

  /** A triggered stop becomes a market order, a triggered stop-limit a limit order. */
  function Convert(o: Order): Order {
    if o.kind == Stop then o.(kind := Market, price := 0) else o.(kind := Limit)
  }

  // ---------------------------------------------------------------- shape

  lemma StopSideOf(lim: Limits, s: State, hand: multiset<nat>, side: Side)
    requires Shape(lim, s, hand)
    ensures StopSide(side, s.Stops(side))
  {
  }

  lemma ParkSide(side: Side, ls: seq<Level>, o: Order, p: int)
    requires StopSide(side, ls) && WaitsAt(side, p, o)
    ensures StopSide(side, Insert(side.Opposite(), ls, p, o))
  {
    var dir := side.Opposite();
    InsertOk(dir, ls, p, o);
    InsertMembers(dir, ls, p, o);
    forall x | x in QueueAt(dir, ls, p) + [o] ensures WaitsAt(side, p, x) {
      if x != o { assert StopLevel(side, ls[Slot(dir, ls, p)]); }
    }
  }

  /** A stop list that gained the order in hand. */
  lemma ParkedShape(lim: Limits, s: State, o: Order, ls: seq<Level>, s': State)
    requires Shape(lim, s, multiset{o.id}) && StopSide(o.side, ls) && Bag(ls) == Bag(s.Stops(o.side)) + multiset{o.id}
    requires s' == s.WithStops(o.side, ls).(freeLevels := s'.freeLevels)
    requires s'.freeLevels >= 0 && s'.LevelCount() + s'.freeLevels == s.LevelCount() + s.freeLevels
    ensures Shape(lim, s', multiset{})
  {
    hide BookSide, StopSide, Bag;
    assert AllIds(s') == AllIds(s) + multiset{o.id};
  }

  lemma ParkShape(lim: Limits, s: State, o: Order, p: int)
    requires Shape(lim, s, multiset{o.id}) && WaitsAt(o.side, p, o)
    ensures Shape(lim, Park(s, o, p), multiset{})
  {
    var dir, ls := o.side.Opposite(), s.Stops(o.side);
    if s.freeLevels == 0 {
      assert multiset{} + multiset{o.id} == multiset{o.id};
      FreeShape(lim, s, multiset{}, o.id);
    } else {
      StopSideOf(lim, s, multiset{o.id}, o.side);
      ParkSide(o.side, ls, o, p);
      InsertOk(dir, ls, p, o);
      NonEmptyQueue(dir, ls, p);
      ParkedShape(lim, s, o, Insert(dir, ls, p, o), Park(s, o, p));
    }
  }

  lemma UnparkSide(side: Side, ls: seq<Level>, k: nat, j: nat)
    requires StopSide(side, ls) && Spot(ls, k, j)
    ensures StopSide(side, PutQueue(ls, k, Without(ls[k].orders, j)))
    ensures WaitsAt(side, ls[k].price, ls[k].orders[j])
  {
    var q := Without(ls[k].orders, j);
    PutWellFormed(side.Opposite(), ls, k, q);
    PutMembers(side.Opposite(), ls, k, q);
    assert StopLevel(side, ls[k]) && ls[k].orders[j] in ls[k].orders;
  }

  lemma UnparkBag(ls: seq<Level>, k: nat, j: nat)
    requires Spot(ls, k, j)
    ensures Bag(ls) == Bag(PutQueue(ls, k, Without(ls[k].orders, j))) + multiset{ls[k].orders[j].id}
  {
    var q := ls[k].orders;
    PutBag(ls, k, Without(q, j));
    IdBagWithout(q, j);
    var a, id := Bag(PutQueue(ls, k, Without(q, j))), q[j].id;
    forall x ensures Bag(ls)[x] == (a + multiset{id})[x] {
      assert (a + IdBag(q))[x] == (Bag(ls) + IdBag(Without(q, j)))[x];
    }
  }

  /** A stop list that gave an order up into the hand. */
  lemma UnparkedShape(lim: Limits, s: State, hand: multiset<nat>, side: Side, id: nat, ls: seq<Level>, s': State)
    requires Shape(lim, s, hand) && StopSide(side, ls) && Bag(s.Stops(side)) == Bag(ls) + multiset{id}
    requires s' == s.WithStops(side, ls).(freeLevels := s'.freeLevels)
    requires s'.freeLevels >= 0 && s'.LevelCount() + s'.freeLevels == s.LevelCount() + s.freeLevels
    ensures Shape(lim, s', hand + multiset{id})
  {
    hide BookSide, StopSide, Bag;
    assert AllIds(s') + (hand + multiset{id}) == AllIds(s) + hand;
  }

  lemma UnparkShape(lim: Limits, s: State, hand: multiset<nat>, side: Side, k: nat, j: nat)
    requires Shape(lim, s, hand) && Spot(s.Stops(side), k, j)
    ensures Shape(lim, Unpark(s, side, k, j), hand + multiset{s.Stops(side)[k].orders[j].id})
  {
    var ls := s.Stops(side);
    StopSideOf(lim, s, hand, side);
    UnparkSide(side, ls, k, j);
    UnparkBag(ls, k, j);
    UnparkedShape(lim, s, hand, side, ls[k].orders[j].id, PutQueue(ls, k, Without(ls[k].orders, j)), Unpark(s, side, k, j));
  }

  // ---------------------------------------------------------------- everything else

  lemma UnparkInv(lim: Limits, s: State, hand: multiset<nat>, side: Side, k: nat, j: nat)
    requires Inv(lim, s, hand) && Spot(s.Stops(side), k, j)
    ensures Inv(lim, Unpark(s, side, k, j), hand + multiset{s.Stops(side)[k].orders[j].id})
  {
    hide Shape, Showing, Balanced, Reconciled;
    UnparkShape(lim, s, hand, side, k, j);
    StopSideOf(lim, s, hand, side);
    UnparkReconciled(s, side, k, j);
  }

  lemma UnparkReconciled(s: State, side: Side, k: nat, j: nat)
    requires Reconciled(s) && StopSide(side, s.Stops(side)) && Spot(s.Stops(side), k, j)
    ensures Reconciled(Unpark(s, side, k, j))
  {
    var ls := s.Stops(side);
    assert ls[k] in ls;
    PutReconciled(side.Opposite(), ls, k, Without(ls[k].orders, j), s.ledger);
    hide ReconciledSide;
  }

  lemma UnparkCount(s: State, side: Side, k: nat, j: nat)
    requires Spot(s.Stops(side), k, j)
    ensures StopCount(Unpark(s, side, k, j)) == StopCount(s) - 1
  {
    PutCount(s.Stops(side), k, Without(s.Stops(side)[k].orders, j));
  }

  /** A triggered stop is in hand, converted, filled by its standing trades. */
  lemma TriggeredInHand(lim: Limits, s: State, side: Side, k: nat, j: nat)
    requires Inv(lim, s, multiset{}) && Spot(s.Stops(side), k, j)
    ensures InHand(lim, Unpark(s, side, k, j), Convert(s.Stops(side)[k].orders[j]))
  {
    var ls := s.Stops(side);
    var o := ls[k].orders[j];
    UnparkInv(lim, s, multiset{}, side, k, j);
    assert multiset{} + multiset{o.id} == multiset{o.id};
    StopSideOf(lim, s, multiset{}, side);
    UnparkSide(side, ls, k, j);
    assert ls[k] in ls && o in ls[k].orders;
    hide Shape, Showing, Balanced;
  }

  lemma ParkInv(lim: Limits, s: State, o: Order, p: int)
    requires Inv(lim, s, multiset{o.id}) && WaitsAt(o.side, p, o) && o.filled == Traded(s.ledger, o.id)
    ensures Inv(lim, Park(s, o, p), multiset{})
  {
    hide Shape, Showing, Balanced, Reconciled, Park;
    ParkShape(lim, s, o, p);
    StopSideOf(lim, s, multiset{o.id}, o.side);
    ParkReconciled(s, o, p);
    ParkAside(s, o, p);
  }

  lemma ParkAside(s: State, o: Order, p: int)
    ensures var s' := Park(s, o, p);
      s'.bids == s.bids && s'.asks == s.asks && s'.ledger == s.ledger && s'.lastTrade == s.lastTrade && s'.nextId == s.nextId
      && s'.feed == s.feed && s'.session == s.session
  {
  }

  lemma ParkReconciled(s: State, o: Order, p: int)
    requires Reconciled(s) && StopSide(o.side, s.Stops(o.side)) && o.filled == Traded(s.ledger, o.id)
    ensures Reconciled(Park(s, o, p))
  {
    var dir, ls := o.side.Opposite(), s.Stops(o.side);
    InsertMembers(dir, ls, p, o);
    var q := QueueAt(dir, ls, p);
    if q != [] { assert ls[Slot(dir, ls, p)] in ls; }
    forall lv, x | lv in Insert(dir, ls, p, o) && x in lv.orders ensures x.filled == Traded(s.ledger, x.id) {
      if lv !in ls { assert lv.orders == q + [o]; }
    }
  }

  /** Looking at the two heads is enough: the lists are in trigger order. */
  lemma HeadsDecide(lim: Limits, s: State, hand: multiset<nat>)
    requires Shape(lim, s, hand)
    ensures NoneTriggered(s) <==>
      (s.buyStops == [] || !Triggers(Buy, s.buyStops[0].price, s.lastTrade)) &&
      (s.sellStops == [] || !Triggers(Sell, s.sellStops[0].price, s.lastTrade))
  {
    forall lv | lv in s.buyStops && !Triggers(Buy, s.buyStops[0].price, s.lastTrade)
      ensures !Triggers(Buy, lv.price, s.lastTrade)
    {
      FirstIsBest(Sell, s.buyStops, lv);
    }
    forall lv | lv in s.sellStops && !Triggers(Sell, s.sellStops[0].price, s.lastTrade)
      ensures !Triggers(Sell, lv.price, s.lastTrade)
    {
      FirstIsBest(Buy, s.sellStops, lv);
    }
    if s.buyStops != [] { assert s.buyStops[0] in s.buyStops; }
    if s.sellStops != [] { assert s.sellStops[0] in s.sellStops; }
  }
}
