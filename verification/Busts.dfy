/**
  bust_trade (exchange-core/matching_engine.h): reversing an executed trade on the orders
  that are still there, on both positions and on the record.
 */
module Busts {
  import opened Types
  import opened Queues
  import opened Levels
  import opened Tape
  import opened Ledger
  import opened EngineState
  import opened Steps
  import opened Trading
  import opened Matching
  import opened Progress
  import opened Stops
  import opened Cancels
  import opened Crowds
  import opened Room
  import opened Silence

  // ---------------------------------------------------------------- fills and trades, order by order

  /** An order before q of it was given back. */
  function Before(o: Order, id: nat, q: int): Order { if o.id == id then o.Filled(q) else o }

  lemma ReconciledHeld(s: State)
    ensures Reconciled(s) <==> forall o :: Held(s, o) ==> o.filled == Traded(s.ledger, o.id)
  {
    forall o | Reconciled(s) && Held(s, o) ensures o.filled == Traded(s.ledger, o.id) {}
    if forall o :: Held(s, o) ==> o.filled == Traded(s.ledger, o.id) {
      AllReconciled(s, s.bids);
      AllReconciled(s, s.asks);
      AllReconciled(s, s.buyStops);
      AllReconciled(s, s.sellStops);
    }
  }

  lemma AllReconciled(s: State, ls: seq<Level>)
    requires forall o :: Held(s, o) ==> o.filled == Traded(s.ledger, o.id)
    requires forall o :: Listed(ls, o) ==> Held(s, o)
    ensures ReconciledSide(ls, s.ledger)
  {
    forall lv, o | lv in ls && o in lv.orders ensures o.filled == Traded(s.ledger, o.id) {
      assert Listed(ls, o);
    }
  }

  /** A standing trade is part of what its orders have traded. */
  lemma {:induction false} TradedAtLeast(l: Ledger, i: nat, id: nat, n: nat)
    requires n <= |l.log| && forall k :: 0 <= k < |l.log| ==> l.log[k].qty > 0
    requires i < |l.log| && !l.Busted(i)
    ensures TradedTo(l, id, n) >= if i < n then Part(l.log[i], id) else 0
  {
    if n > 0 { TradedAtLeast(l, i, id, n - 1); }
  }

  // ---------------------------------------------------------------- giving quantity back

  /** Give q back to the resting order at a spot. */
  function RestoreAt(s: State, side: Side, k: nat, j: nat, q: int): State
    requires k < |s.Book(side)| && j < |s.Book(side)[k].orders|
  {
    var ls := s.Book(side);
    s.WithBook(side, PutQueue(ls, k, ls[k].orders[j := ls[k].orders[j].Filled(-q)]))
  }

  lemma RestoreThins(s: State, side: Side, k: nat, j: nat, q: int)
    requires Spot(s.Book(side), k, j)
    ensures Thins(s, RestoreAt(s, side, k, j, q))
  {
    hide Thins, PutQueue;
    SwapThins(s, side, k, j, s.Book(side)[k].orders[j].Filled(-q), RestoreAt(s, side, k, j, q));
  }

  lemma RestoreQueue(x: seq<Order>, j: nat, q: int, o: Order)
    requires j < |x| && NoDup(x)
    ensures o in x[j := x[j].Filled(-q)] <==> Before(o, x[j].id, q) in x
  {
    var x' := x[j := x[j].Filled(-q)];
    var b := Before(o, x[j].id, q);
    if o in x' {
      var i :| 0 <= i < |x'| && x'[i] == o;
      assert b == x[i];
    }
    if b in x {
      var i :| 0 <= i < |x| && x[i] == b;
      assert x'[i] == o;
    }
  }

  lemma RestoreListed(dir: Side, ls: seq<Level>, k: nat, j: nat, q: int, o: Order)
    requires Sorted(dir, ls) && Spot(ls, k, j) && NoDup(ls[k].orders) && Bag(ls)[ls[k].orders[j].id] <= 1
    ensures Listed(PutQueue(ls, k, ls[k].orders[j := ls[k].orders[j].Filled(-q)]), o) <==>
      Listed(ls, Before(o, ls[k].orders[j].id, q))
  {
    var x := ls[k].orders;
    var x' := x[j := x[j].Filled(-q)];
    var b := Before(o, x[j].id, q);
    PutMembers(dir, ls, k, x');
    RestoreQueue(x, j, q, o);
    if Listed(PutQueue(ls, k, x'), o) {
      var lv :| lv in PutQueue(ls, k, x') && o in lv.orders;
      if lv.price == ls[k].price {
        assert ls[k] in ls && b in ls[k].orders;
      } else {
        OtherOrder(dir, ls, k, j, lv, o);
      }
    }
    if Listed(ls, b) {
      var lv :| lv in ls && b in lv.orders;
      if lv.price == ls[k].price {
        SamePrice(dir, ls, k, lv);
        assert MkLevel(ls[k].price, x') in PutQueue(ls, k, x');
      } else {
        OtherOrder(dir, ls, k, j, lv, b);
      }
    }
  }

  lemma RestoreHeld(lim: Limits, s: State, side: Side, k: nat, j: nat, q: int, o: Order)
    requires Shape(lim, s, multiset{}) && Spot(s.Book(side), k, j)
    ensures Held(RestoreAt(s, side, k, j, q), o) <==> Held(s, Before(o, s.Book(side)[k].orders[j].id, q))
  {
    var id := s.Book(side)[k].orders[j].id;
    var at := Place(false, side, k, j);
    ListAtOk(lim, s, at);
    SortedBook(lim, s, multiset{}, side);
    UniqueIds(lim, s, multiset{}, id);
    hide Shape, Listed, Bag, Sorted, NoDup;
    RestoreListed(side, s.Book(side), k, j, q, o);
    if o.id == id {
      HeldOnce(s, at, o);
      HeldOnce(s, at, Before(o, id, q));
    }
  }

  lemma RestoreGivesBack(lim: Limits, s: State, side: Side, k: nat, j: nat, q: int)
    requires Shape(lim, s, multiset{}) && Spot(s.Book(side), k, j)
    ensures GivenBack(s, RestoreAt(s, side, k, j, q), s.Book(side)[k].orders[j].id, q)
  {
    forall o ensures Held(RestoreAt(s, side, k, j, q), o) <==> Held(s, Before(o, s.Book(side)[k].orders[j].id, q)) {
      RestoreHeld(lim, s, side, k, j, q, o);
    }
  }

  lemma RestoreShape(lim: Limits, s: State, side: Side, k: nat, j: nat, q: int)
    requires Shape(lim, s, multiset{}) && Showing(s.bids) && Showing(s.asks) && Spot(s.Book(side), k, j)
    requires 0 < q <= s.Book(side)[k].orders[j].filled
    ensures var s' := RestoreAt(s, side, k, j, q);
      Shape(lim, s', multiset{}) && Showing(s'.bids) && Showing(s'.asks)
  {
    var ls, o := s.Book(side), s.Book(side)[k].orders[j].Filled(-q);
    var x := ls[k].orders[j := o];
    SideOfShape(lim, s, multiset{}, side);
    SortedBook(lim, s, multiset{}, side);
    RestoreRests(side, ls, k, j, q);
    hide Shape, Showing, BookSide, AllPositive, RestsAt, Sorted;
    BookSidePut(side, ls, k, x);
    IdBagUpdate(ls[k].orders, j, o);
    SameIdsPut(s, side, k, x);
    SameShape(lim, s, multiset{}, side, PutQueue(ls, k, x), RestoreAt(s, side, k, j, q));
    PutShowing(side, ls, k, x);
  }

  lemma RestoreRests(side: Side, ls: seq<Level>, k: nat, j: nat, q: int)
    requires BookSide(side, ls) && Spot(ls, k, j) && Showing(ls) && 0 < q <= ls[k].orders[j].filled
    ensures forall x :: x in ls[k].orders[j := ls[k].orders[j].Filled(-q)] ==> RestsAt(side, ls[k].price, x)
    ensures AllPositive(ls[k].orders[j := ls[k].orders[j].Filled(-q)])
  {
    var y := ls[k].orders;
    var y' := y[j := y[j].Filled(-q)];
    assert ls[k] in ls && BookLevel(side, ls[k]) && y[j] in y && AllPositive(y);
    assert RestsAt(side, ls[k].price, y[j]);
    forall x | x in y' ensures RestsAt(side, ls[k].price, x) {
      var i :| 0 <= i < |y'| && y'[i] == x;
      if i != j { assert x == y[i] && x in y; }
    }
  }

  // ---------------------------------------------------------------- the bust

  /** Orders as they were before the two parties of a trade got its quantity back. */
  function BeforeBust(o: Order, t: Trade): Order { Before(Before(o, t.resting, t.qty), t.aggressor, t.qty) }

  /** s' is s with trade i reversed on record, positions and whichever orders are still held. */
  ghost predicate BustOf(s: State, s': State, i: nat)
    requires i < |s.ledger.trades|
  {
    && s'.ledger == BustedLedger(s.ledger, i)
    && s'.live == s.live && s'.nextId == s.nextId && s'.session == s.session && s'.lastTrade == s.lastTrade
    && (forall o :: Held(s', o) <==> Held(s, BeforeBust(o, s.ledger.trades[i].trade)))
  }

  /** The trade was an implied fill of an order still held: a bust gives its quantity back twice. */
  predicate GivesTwice(s: State, i: nat)
    requires i < |s.ledger.trades|
  {
    s.ledger.trades[i].trade.Implied() && s.ledger.trades[i].trade.resting in s.live
  }

  /** Fills still agree with the trades that stand, unless one is given back twice. */
  lemma BustReconciled(lim: Limits, s: State, s': State, i: nat)
    requires Inv(lim, s, multiset{}) && i < |s.ledger.trades| && !s.ledger.trades[i].busted && BustOf(s, s', i)
    ensures Reconciled(s') <==> !GivesTwice(s, i)
  {
    hide Shape, Reconciled, Held;
    ReconciledHeld(s');
    if GivesTwice(s, i) {
      TwiceTooMuch(lim, s, s', i);
    } else {
      forall o | Held(s', o) ensures o.filled == Traded(s'.ledger, o.id) { OnceIsRight(lim, s, s', i, o); }
    }
  }

  lemma OnceIsRight(lim: Limits, s: State, s': State, i: nat, o: Order)
    requires Inv(lim, s, multiset{}) && i < |s.ledger.trades| && !s.ledger.trades[i].busted && BustOf(s, s', i)
    requires !GivesTwice(s, i) && Held(s', o)
    ensures o.filled == Traded(s'.ledger, o.id)
  {
    hide Shape, Reconciled, Held;
    var b, l := BeforeBust(o, s.ledger.trades[i].trade), s.ledger;
    assert l.trades[i].trade == l.log[i];
    ReconciledHeld(s);
    assert Held(s, b);
    HeldIsLive(lim, s, b);
    BustTraded(l, i, o.id, |l.log|);
  }

  lemma TwiceTooMuch(lim: Limits, s: State, s': State, i: nat)
    requires Inv(lim, s, multiset{}) && i < |s.ledger.trades| && !s.ledger.trades[i].busted && BustOf(s, s', i) && GivesTwice(s, i)
    ensures exists o :: Held(s', o) && o.filled != Traded(s'.ledger, o.id)
  {
    hide Shape, Reconciled, Held;
    var t, l := s.ledger.trades[i].trade, s.ledger;
    assert t == l.log[i];
    LiveIsHeld(lim, s, t.resting);
    var b :| Held(s, b) && b.id == t.resting;
    var o := b.Filled(-t.qty).Filled(-t.qty);
    assert BeforeBust(o, t) == b;
    ReconciledHeld(s);
    BustTraded(l, i, o.id, |l.log|);
    assert Held(s', o) && o.filled != Traded(s'.ledger, o.id);
  }

  lemma {:induction false} BagListed(ls: seq<Level>, id: nat)
    requires Bag(ls)[id] >= 1
    ensures exists o :: Listed(ls, o) && o.id == id
  {
    if IdBag(ls[0].orders)[id] >= 1 {
      assert id in Ids(ls[0].orders);
      var i :| 0 <= i < |ls[0].orders| && Ids(ls[0].orders)[i] == id;
      var o := ls[0].orders[i];
      assert ls[0] in ls && o in ls[0].orders;
      assert Listed(ls, o) && o.id == id;
    } else {
      BagListed(ls[1..], id);
      var o :| Listed(ls[1..], o) && o.id == id;
      var lv :| lv in ls[1..] && o in lv.orders;
      assert lv in ls;
      assert Listed(ls, o);
    }
  }

  /** With nothing in hand an indexed identifier has its order in a list. */
  lemma LiveIsHeld(lim: Limits, s: State, id: nat)
    requires Shape(lim, s, multiset{}) && id in s.live
    ensures exists o :: Held(s, o) && o.id == id
  {
    hide BookSide, StopSide, Bag, Listed;
    assert (AllIds(s) + multiset{})[id] == multiset(s.live)[id];
    var ls := if Bag(s.bids)[id] >= 1 then s.bids else if Bag(s.asks)[id] >= 1 then s.asks
              else if Bag(s.buyStops)[id] >= 1 then s.buyStops else s.sellStops;
    BagListed(ls, id);
    var o :| Listed(ls, o) && o.id == id;
    assert Held(s, o);
  }

  /** The order with this identifier, if held, is a resting one with q filled to give back. */
  ghost predicate CanGiveBack(s: State, id: nat, q: int) {
    forall o :: Held(s, o) && o.id == id ==> o.kind == Limit && 0 < q <= o.filled
  }

  /** The order with this identifier, if held, is a resting one. */
  ghost predicate Restful(s: State, id: nat) { forall o :: Held(s, o) && o.id == id ==> o.kind == Limit }

  /** Waiting stops have no fills; everything else held is a resting limit order. */
  lemma HeldKind(lim: Limits, s: State, o: Order)
    requires Shape(lim, s, multiset{}) && Held(s, o)
    ensures o.kind == Limit || o.filled == 0
  {
    if Listed(s.bids, o) { var lv :| lv in s.bids && o in lv.orders; assert BookLevel(Buy, lv); }
    if Listed(s.asks, o) { var lv :| lv in s.asks && o in lv.orders; assert BookLevel(Sell, lv); }
    if Listed(s.buyStops, o) { var lv :| lv in s.buyStops && o in lv.orders; assert StopLevel(Buy, lv); }
    if Listed(s.sellStops, o) { var lv :| lv in s.sellStops && o in lv.orders; assert StopLevel(Sell, lv); }
  }

  /** A party of an unbusted trade has that much filled to give back: a bust never reaches a stop. */
  lemma PartyCanGiveBack(lim: Limits, s: State, i: nat, id: nat)
    requires Inv(lim, s, multiset{}) && i < |s.ledger.trades| && !s.ledger.trades[i].busted
    requires id == s.ledger.trades[i].trade.aggressor || id == s.ledger.trades[i].trade.resting
    ensures CanGiveBack(s, id, s.ledger.trades[i].trade.qty)
  {
    assert s.ledger.trades[i].trade == s.ledger.log[i];
    forall o | Held(s, o) && o.id == id ensures o.kind == Limit && 0 < s.ledger.trades[i].trade.qty <= o.filled {
      ReconciledHeld(s);
      TradedAtLeast(s.ledger, i, id, |s.ledger.log|);
      HeldKind(lim, s, o);
    }
  }

  lemma CanRest(s: State, id: nat, q: int)
    requires CanGiveBack(s, id, q)
    ensures Restful(s, id)
  {
  }

  lemma GiveBackTarget(lim: Limits, s: State, at: Place, id: nat, q: int)
    requires Shape(lim, s, multiset{}) && Spot(ListAt(s, at), at.k, at.j) && ListAt(s, at)[at.k].orders[at.j].id == id
    requires Restful(s, id)
    ensures !at.stops && CachesOk(s.Book(at.side)[at.k])
    ensures CanGiveBack(s, id, q) ==> 0 < q <= s.Book(at.side)[at.k].orders[at.j].filled
  {
    var ls := ListAt(s, at);
    var o := ls[at.k].orders[at.j];
    assert ls[at.k] in ls && o in ls[at.k].orders;
    assert Listed(ls, o);
    assert Held(s, o);
    if at.stops {
      StopSideOf(lim, s, multiset{}, at.side);
      UnparkSide(at.side, ls, at.k, at.j);
    }
  }

  /** s' holds the orders of s, the one with this identifier with q given back. */
  ghost predicate GivenBack(s: State, s': State, id: nat, q: int) {
    forall o :: Held(s', o) <==> Held(s, Before(o, id, q))
  }

  lemma NobodyToRestore(lim: Limits, s: State, id: nat, q: int)
    requires Shape(lim, s, multiset{}) && id !in s.live
    ensures GivenBack(s, s, id, q)
  {
    forall o ensures Held(s, o) <==> Held(s, Before(o, id, q)) {
      if Held(s, o) { HeldIsLive(lim, s, o); }
      if Held(s, Before(o, id, q)) { HeldIsLive(lim, s, Before(o, id, q)); }
    }
  }

  /** Giving back to one party leaves a limit order a limit order, and another party able to give back. */
  lemma OtherCanGiveBack(s: State, s': State, a: nat, b: nat, q: int)
    requires CanGiveBack(s, b, q) && GivenBack(s, s', a, q)
    ensures Restful(s', b) && (a != b ==> CanGiveBack(s', b, q))
  {
    forall o | Held(s', o) && o.id == b ensures o.kind == Limit && (a != b ==> 0 < q <= o.filled) {
      assert Held(s, Before(o, a, q));
    }
  }

  /** Nobody held under this identifier is able to give back anything. */
  lemma NobodyGivesBack(lim: Limits, s: State, id: nat, q: int)
    requires Shape(lim, s, multiset{}) && id !in s.live
    ensures CanGiveBack(s, id, q)
  {
    hide Shape, Held;
    forall o | Held(s, o) && o.id == id ensures false { HeldIsLive(lim, s, o); }
  }

  /** A bust keeps every invariant exactly when the trade was between two orders, or an implied fill of
      an order gone since, for an account whose position is not tracked. */
  predicate Bustable(lim: Limits, s: State, i: nat)
    requires i < |s.ledger.trades|
  {
    var t := s.ledger.trades[i].trade;
    t.Implied() ==> t.resting !in s.live && !Tracked(t.restingAccount, lim.maxAccounts)
  }

  lemma BustInv(lim: Limits, s: State, s': State, i: nat)
    requires Inv(lim, s, multiset{}) && i < |s.ledger.trades| && !s.ledger.trades[i].busted && BustOf(s, s', i)
    requires !GivesTwice(s, i) ==> Shape(lim, s', multiset{}) && Showing(s'.bids) && Showing(s'.asks)
    ensures Inv(lim, s', multiset{}) <==> Bustable(lim, s, i)
  {
    BustReconciled(lim, s, s', i);
    assert s.ledger.trades[i].trade == s.ledger.log[i];
    BustBalanced(s.ledger, i, lim.maxAccounts, lim.maxTrades);
    hide Shape, Showing, Reconciled, Balanced, BustOf;
    assert s'.ledger == BustedLedger(s.ledger, i) by { BustParts(s, s', i); }
    BustParts(s, s', i);
  }

  lemma BustParts(s: State, s': State, i: nat)
    requires i < |s.ledger.trades| && BustOf(s, s', i)
    ensures s'.ledger == BustedLedger(s.ledger, i) && s'.nextId == s.nextId && s'.lastTrade == s.lastTrade
    ensures s'.ledger.log == s.ledger.log
  {
  }

  lemma SamePrices(ls: seq<Level>)
    ensures PricesWithin(ls, ls)
  {
  }

  lemma HeldAside(s: State, s': State, o: Order)
    requires s' == s.(ledger := s'.ledger)
    ensures Held(s', o) <==> Held(s, o)
  {
  }

  /** Both parties of trade i have been given its quantity back, by way of s1. */
  ghost predicate BothGivenBack(lim: Limits, s: State, s1: State, s2: State, i: nat)
    requires i < |s.ledger.trades|
  {
    var t := s.ledger.trades[i].trade;
    && s1 == s.(bids := s1.bids, asks := s1.asks) && s2 == s1.(bids := s2.bids, asks := s2.asks)
    && GivenBack(s, s1, t.aggressor, t.qty) && GivenBack(s1, s2, t.resting, t.qty)
    && (!GivesTwice(s, i) ==> Shape(lim, s2, multiset{}) && Showing(s2.bids) && Showing(s2.asks))
    && PricesWithin(s1.bids, s.bids) && PricesWithin(s1.asks, s.asks) && PricesWithin(s2.bids, s1.bids) && PricesWithin(s2.asks, s1.asks)
    && Thins(s, s1) && Thins(s1, s2)
  }

  /** The two give-backs and the ledger entry make a bust. */
  lemma BustSteps(lim: Limits, s: State, s1: State, s2: State, s': State, i: nat)
    requires Inv(lim, s, multiset{}) && i < |s.ledger.trades| && !s.ledger.trades[i].busted
    requires BothGivenBack(lim, s, s1, s2, i) && s' == s2.(ledger := BustedLedger(s.ledger, i))
    ensures BustOf(s, s', i) && (Inv(lim, s', multiset{}) <==> Bustable(lim, s, i))
  {
    hide Thins, PricesWithin, BustedLedger;
    forall o ensures Held(s', o) <==> Held(s, BeforeBust(o, s.ledger.trades[i].trade)) { HeldAside(s2, s', o); }
    if !GivesTwice(s, i) { LedgerShape(lim, s2, multiset{}, s'); }
    BustInv(lim, s, s', i);
  }

  lemma BustDone(lim: Limits, s: State, s1: State, s2: State, s': State, i: nat)
    requires Inv(lim, s, multiset{}) && i < |s.ledger.trades| && !s.ledger.trades[i].busted
    requires BothGivenBack(lim, s, s1, s2, i) && s' == s2.(ledger := BustedLedger(s.ledger, i))
    ensures BustOf(s, s', i) && (Inv(lim, s', multiset{}) <==> Bustable(lim, s, i))
    ensures (Uncrossed(s) ==> Uncrossed(s')) && Thins(s, s')
  {
    hide Inv, Shape, Showing, GivenBack, Thins, PricesWithin, BustedLedger, Bustable, BustOf, Uncrossed;
    BustSteps(lim, s, s1, s2, s', i);
    ThinsTrans(s, s1, s2);
    ThinsSame(s, s2, s');
    SamePrices(s2.bids);
    SamePrices(s2.asks);
    if Uncrossed(s) { AllPricesUncrossed(s, s1); AllPricesUncrossed(s1, s2); AllPricesUncrossed(s2, s'); }
  }

  // ---------------------------------------------------------------- what a bust does, step by step

  /** The order with an identifier, if it is still there, is given q back where it rests. */
  ghost predicate GaveBack(s: State, id: nat, q: int, at: Place, s': State) {
    if id in s.live then
      && !at.stops && Spot(s.Book(at.side), at.k, at.j) && s.Book(at.side)[at.k].orders[at.j].id == id
      && s' == RestoreAt(s, at.side, at.k, at.j, q)
    else s' == s
  }

  /** Trade i is reversed: on the aggressor's order at `a`, on the resting one at `b`, and in the ledger. */
  ghost predicate Reversed(s: State, i: nat, a: Place, s1: State, b: Place, s': State)
    requires i < |s.ledger.trades|
  {
    var t := s.ledger.trades[i].trade;
    && GaveBack(s, t.aggressor, t.qty, a, s1) && GaveBack(s1, t.resting, t.qty, b, s'.(ledger := s.ledger))
    && s'.ledger == BustedLedger(s.ledger, i)
  }

  lemma GaveBackStrays(lim: Limits, s: State, id: nat, q: int, at: Place, s': State)
    requires Shape(lim, s, multiset{}) && Showing(s.bids) && Showing(s.asks) && q > 0 && GaveBack(s, id, q, at, s')
    ensures id in s.live && MirrorsBook(s) ==> Astray(s', id)
    ensures forall x :: Astray(s, x) ==> Astray(s', x)
  {
    hide Shape, MirrorsBook, Astray;
    if id in s.live {
      var ls := s.Book(at.side);
      SortedBook(lim, s, multiset{}, at.side);
      UniqueInQueue(lim, s, multiset{}, at.side, at.k);
      assert ls[at.k] in ls && AllPositive(ls[at.k].orders);
      var o := ls[at.k].orders[at.j].Filled(-q);
      if MirrorsBook(s) { SwapStrays(s, at.side, at.k, at.j, o); }
      forall x | Astray(s, x) ensures Astray(s', x) { SwapStaysAstray(s, at.side, at.k, at.j, o, x); }
    }
  }

  /** The feed says nothing of a bust, so it stays true exactly when no order was given anything back. */
  lemma BustTold(lim: Limits, s: State, i: nat, a: Place, s1: State, b: Place, s': State)
    requires Inv(lim, s, multiset{}) && i < |s.ledger.trades| && !s.ledger.trades[i].busted && Reversed(s, i, a, s1, b, s')
    requires Shape(lim, s1, multiset{}) && Showing(s1.bids) && Showing(s1.asks) && MirrorsBook(s)
    ensures var t := s.ledger.trades[i].trade; MirrorsBook(s') <==> t.aggressor !in s.live && t.resting !in s.live
  {
    var t, s2 := s.ledger.trades[i].trade, s'.(ledger := s.ledger);
    assert t == s.ledger.log[i] && t.qty > 0;
    InvShape(lim, s, multiset{});
    hide Inv, Shape, Showing, Astray, RestoreAt;
    GaveBackAside(s, t.aggressor, t.qty, a, s1);
    GaveBackAside(s1, t.resting, t.qty, b, s2);
    GaveBackStrays(lim, s, t.aggressor, t.qty, a, s1);
    GaveBackStrays(lim, s1, t.resting, t.qty, b, s2);
    if t.aggressor in s.live { AstrayUntold(s2, t.aggressor); } else if t.resting in s.live { AstrayUntold(s2, t.resting); }
  }

  lemma GaveBackAside(s: State, id: nat, q: int, at: Place, s': State)
    requires GaveBack(s, id, q, at, s')
    ensures s'.live == s.live && s'.feed == s.feed && s'.ledger == s.ledger
  {
  }

  lemma AllPricesUncrossed(s0: State, s: State)
    requires Uncrossed(s0) && PricesWithin(s.bids, s0.bids) && PricesWithin(s.asks, s0.asks)
    ensures Uncrossed(s)
  {
    forall b, a | b in s.bids && a in s.asks ensures b.price < a.price {
      var x :| x in s0.bids && x.price == b.price;
      var y :| y in s0.asks && y.price == a.price;
    }
  }
}
