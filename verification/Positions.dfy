/**
  What an auction does to net positions (exchange-core/matching_engine.h, execute_auction): every account is
  longer by what its bids bought and shorter by what its asks sold.
 */
module Positions {
  import opened Types
  import opened Queues
  import opened Levels
  import opened Ledger
  import opened EngineState
  import opened Steps
  import opened Trading
  import opened Matching
  import opened Cancels
  import opened Auction
  import opened Crossing
  import opened Effects
  import opened Parties

  // ---------------------------------------------------------------- sums over orders

  /** What the orders of an account have traded between two ledgers. */
  ghost function QueueTraded(q: seq<Order>, a: nat, l: Ledger, m: Ledger): int {
    if q == [] then 0 else (if q[0].account == a then Traded(m, q[0].id) - Traded(l, q[0].id) else 0) + QueueTraded(q[1..], a, l, m)
  }

  ghost function SideTraded(ls: seq<Level>, a: nat, l: Ledger, m: Ledger): int {
    if ls == [] then 0 else QueueTraded(ls[0].orders, a, l, m) + SideTraded(ls[1..], a, l, m)
  }

  lemma {:induction false} QueueSame(q: seq<Order>, a: nat, l: Ledger)
    ensures QueueTraded(q, a, l, l) == 0
  {
    if q != [] { QueueSame(q[1..], a, l); }
  }

  lemma {:induction false} SideSame(ls: seq<Level>, a: nat, l: Ledger)
    ensures SideTraded(ls, a, l, l) == 0
  {
    if ls != [] {
      QueueSame(ls[0].orders, a, l);
      SideSame(ls[1..], a, l);
    }
  }

  /** A trade that names none of the orders of a queue. */
  lemma {:induction false} QueueAside(q: seq<Order>, a: nat, l: Ledger, m: Ledger, t: Trade, maxTrades: nat)
    requires |m.trades| <= |m.log| && IdBag(q)[t.aggressor] == 0 && IdBag(q)[t.resting] == 0
    ensures QueueTraded(q, a, l, Posted(m, t, maxTrades)) == QueueTraded(q, a, l, m)
  {
    if q != [] {
      hide Posted, Traded;
      IdBagFirst(q);
      PostedAdds(m, t, maxTrades, 0, q[0].id);
      QueueAside(q[1..], a, l, m, t, maxTrades);
    }
  }

  lemma IdBagFirst(q: seq<Order>)
    requires q != []
    ensures IdBag(q) == multiset{q[0].id} + IdBag(q[1..])
  {
    assert Ids(q) == [q[0].id] + Ids(q[1..]);
  }

  /** A trade that names one order of a queue, once. */
  lemma {:induction false} QueueNamed(q: seq<Order>, a: nat, l: Ledger, m: Ledger, t: Trade, maxTrades: nat, o: Order, other: nat)
    requires |m.trades| <= |m.log| && {t.aggressor, t.resting} == {o.id, other} && o.id != other
    requires o in q && IdBag(q)[o.id] == 1 && IdBag(q)[other] == 0
    ensures QueueTraded(q, a, l, Posted(m, t, maxTrades)) == QueueTraded(q, a, l, m) + if o.account == a then t.qty else 0
  {
    hide Posted, Traded;
    IdBagFirst(q);
    PostedAdds(m, t, maxTrades, 0, q[0].id);
    if q[0] == o {
      QueueAside(q[1..], a, l, m, t, maxTrades);
    } else {
      MemberIn(q[1..], o);
      QueueNamed(q[1..], a, l, m, t, maxTrades, o, other);
    }
  }

  lemma MemberIn(q: seq<Order>, o: Order)
    requires o in q
    ensures IdBag(q)[o.id] >= 1
  {
    var j :| 0 <= j < |q| && q[j] == o;
    IdBagMember(q, j);
  }

  lemma {:induction false} SideAside(ls: seq<Level>, a: nat, l: Ledger, m: Ledger, t: Trade, maxTrades: nat)
    requires |m.trades| <= |m.log| && Bag(ls)[t.aggressor] == 0 && Bag(ls)[t.resting] == 0
    ensures SideTraded(ls, a, l, Posted(m, t, maxTrades)) == SideTraded(ls, a, l, m)
  {
    if ls != [] {
      hide Posted;
      QueueAside(ls[0].orders, a, l, m, t, maxTrades);
      SideAside(ls[1..], a, l, m, t, maxTrades);
    }
  }

  lemma {:induction false} SideNamed(ls: seq<Level>, a: nat, l: Ledger, m: Ledger, t: Trade, maxTrades: nat, o: Order, other: nat)
    requires |m.trades| <= |m.log| && {t.aggressor, t.resting} == {o.id, other} && o.id != other
    requires Listed(ls, o) && Bag(ls)[o.id] == 1 && Bag(ls)[other] == 0
    ensures SideTraded(ls, a, l, Posted(m, t, maxTrades)) == SideTraded(ls, a, l, m) + if o.account == a then t.qty else 0
  {
    hide Posted;
    var lv :| lv in ls && o in lv.orders;
    if o in ls[0].orders {
      MemberIn(ls[0].orders, o);
      QueueNamed(ls[0].orders, a, l, m, t, maxTrades, o, other);
      SideAside(ls[1..], a, l, m, t, maxTrades);
    } else {
      assert lv in ls[1..] && Listed(ls[1..], o);
      ListedBag(ls[1..], o);
      QueueAside(ls[0].orders, a, l, m, t, maxTrades);
      SideNamed(ls[1..], a, l, m, t, maxTrades, o, other);
    }
  }

  // ---------------------------------------------------------------- the walk

  /** Since s0 the account has gained what its bids of s0 bought, less what its asks of s0 sold. */
  ghost predicate Settles(s0: State, s: State, a: nat) {
    && |s.ledger.positions| == |s0.ledger.positions|
    && (0 < a < |s0.ledger.positions| ==>
          s.ledger.positions[a] - s0.ledger.positions[a] ==
            SideTraded(s0.bids, a, s0.ledger, s.ledger) - SideTraded(s0.asks, a, s0.ledger, s.ledger))
  }

  /** An order at the top of a side was on that side when the auction began. */
  lemma WasThere(lim: Limits, s0: State, s: State, side: Side, j: nat) returns (o: Order)
    requires Inv(lim, s0, multiset{}) && Inv(lim, s, multiset{}) && Enrolled(Faces(s0), s) && Spot(s.Book(side), 0, j)
    ensures Listed(s0.Book(side), o) && o.id == s.Book(side)[0].orders[j].id && o.account == s.Book(side)[0].orders[j].account
  {
    hide Showing, Reconciled, Balanced, OnRoster;
    var x := s.Book(side)[0].orders[j];
    AtRoster(Faces(s0), s, Place(false, side, 0, j));
    TopRests(lim, s, side, j);
    o :| Held(s0, o) && Face(o) == Face(x);
    HeldSide(lim, s0, o);
  }

  lemma HeldSide(lim: Limits, s: State, o: Order)
    requires Shape(lim, s, multiset{}) && Held(s, o) && o.kind == Limit
    ensures Listed(s.Book(o.side), o)
  {
    hide Bag, WellFormed, Listed, BookSide, StopSide;
    if Listed(s.bids, o) { BookListed(Buy, s.bids, o); }
    if Listed(s.asks, o) { BookListed(Sell, s.asks, o); }
    if Listed(s.buyStops, o) { StopListed(Buy, s.buyStops, o); }
    if Listed(s.sellStops, o) { StopListed(Sell, s.sellStops, o); }
  }

  lemma BookListed(side: Side, ls: seq<Level>, o: Order)
    requires BookSide(side, ls) && Listed(ls, o)
    ensures o.side == side && o.kind == Limit
  {
    var lv :| lv in ls && o in lv.orders;
    assert BookLevel(side, lv) && RestsAt(side, lv.price, o);
  }

  lemma StopListed(side: Side, ls: seq<Level>, o: Order)
    requires StopSide(side, ls) && Listed(ls, o)
    ensures o.side == side && (o.kind == Stop || o.kind == StopLimit)
  {
    var lv :| lv in ls && o in lv.orders;
    assert StopLevel(side, lv) && WaitsAt(side, lv.price, o);
  }

  lemma CrossSettles(lim: Limits, s0: State, s: State, jb: nat, ja: nat, n: int, p: int, a: nat)
    requires Inv(lim, s0, multiset{}) && Inv(lim, s, multiset{}) && Enrolled(Faces(s0), s) && Settles(s0, s, a)
    requires Spot(s.bids, 0, jb) && Spot(s.asks, 0, ja)
    ensures Settles(s0, CrossStep(lim, s, jb, ja, n, p), a)
  {
    hide Inv, Enrolled, Faces, SideTraded, Posted, CrossStep, Listed;
    var b := WasThere(lim, s0, s, Buy, jb);
    var k := WasThere(lim, s0, s, Sell, ja);
    Once(lim, s0, b, k);
    var t := CrossTrade(s, jb, ja, n, p);
    CrossFrame(lim, s, jb, ja, n, p);
    LogHolds(lim, s);
    SideNamed(s0.bids, a, s0.ledger, s.ledger, t, lim.maxTrades, b, k.id);
    SideNamed(s0.asks, a, s0.ledger, s.ledger, t, lim.maxTrades, k, b.id);
    TradeMoves(s.ledger, t, lim.maxTrades, a);
  }

  lemma Once(lim: Limits, s: State, b: Order, k: Order)
    requires Inv(lim, s, multiset{}) && Listed(s.bids, b) && Listed(s.asks, k)
    ensures Bag(s.bids)[b.id] == 1 && Bag(s.bids)[k.id] == 0 && Bag(s.asks)[k.id] == 1 && Bag(s.asks)[b.id] == 0 && b.id != k.id
  {
    ListedBag(s.bids, b);
    ListedBag(s.asks, k);
    UniqueIds(lim, s, multiset{}, b.id);
    UniqueIds(lim, s, multiset{}, k.id);
  }

  lemma LogHolds(lim: Limits, s: State)
    requires Inv(lim, s, multiset{})
    ensures |s.ledger.trades| <= |s.ledger.log|
  {
  }

  /** A buyer's trade with a seller: the one position up, the other down. */
  lemma TradeMoves(l: Ledger, t: Trade, maxTrades: nat, a: nat)
    requires t.side == Buy && t.aggressor != t.resting
    ensures |Posted(l, t, maxTrades).positions| == |l.positions|
    ensures 0 < a < |l.positions| ==>
      Posted(l, t, maxTrades).positions[a] ==
        l.positions[a] + (if t.aggressorAccount == a then t.qty else 0) - (if t.restingAccount == a then t.qty else 0)
  {
  }

  lemma {:induction false} WalkSettles(lim: Limits, p: int, w: Walk, trail: seq<Walk>, w': Walk, a: nat)
    requires Walks(lim, p, w, trail, w') && Inv(lim, w.s, multiset{})
    ensures Settles(w.s, w'.s, a)
    decreases |trail|
  {
    hide Inv, Settles, CrossStep, Faces, Enrolled, Walks;
    if trail == [] {
      NothingSettles(lim, p, w, w', a);
    } else {
      var n := |trail| - 1;
      WalkSplit(lim, p, w, trail, w');
      WalkSettles(lim, p, w, trail[..n], trail[n], a);
      StartKept(Faces(w.s), w.s, w.s);
      WalkKept(Faces(w.s), MarkOf(w.s), lim, p, w, trail[..n], trail[n]);
      var s, jb, ja := trail[n].s, trail[n].Bid(), trail[n].Ask();
      CrossSettles(lim, w.s, s, jb, ja, Min(trail[n].left, Min(s.bids[0].orders[jb].remaining, s.asks[0].orders[ja].remaining)), p, a);
    }
  }

  lemma NothingSettles(lim: Limits, p: int, w: Walk, w': Walk, a: nat)
    requires Walks(lim, p, w, [], w')
    ensures Settles(w.s, w'.s, a)
  {
    SideSame(w.s.bids, a, w.s.ledger);
    SideSame(w.s.asks, a, w.s.ledger);
  }

  lemma WalkSplit(lim: Limits, p: int, w: Walk, trail: seq<Walk>, w': Walk)
    requires Walks(lim, p, w, trail, w') && trail != []
    ensures Walks(lim, p, w, trail[..|trail| - 1], trail[|trail| - 1]) && WalksOn(lim, p, trail[|trail| - 1], w')
  {
  }

  /** An auction: every tracked account gains what its bids bought less what its asks sold. */
  lemma AuctionSettles(lim: Limits, s: State, reference: int, r: AuctionResult, trail: seq<Walk>, last: Walk, s': State, a: nat)
    requires Inv(lim, s, multiset{}) && Auctioned(lim, s, reference, r, trail, last, s')
    ensures Settles(s, s', a)
  {
    hide Inv, Walks, Clears, Uncrossed;
    if r.hasPrice {
      WalkSettles(lim, r.price, Walk(s, r.matched, None, None), trail, last, a);
    } else {
      SideSame(s.bids, a, s.ledger);
      SideSame(s.asks, a, s.ledger);
    }
  }

  /** And every trade of it is between a bid and an ask of the book it found, at a price both accept. */
  lemma AuctionHonest(lim: Limits, s: State, reference: int, r: AuctionResult, trail: seq<Walk>, last: Walk, s': State)
    requires Inv(lim, s, multiset{}) && Auctioned(lim, s, reference, r, trail, last, s')
    ensures Fresh(Faces(s), MarkOf(s), s')
  {
    hide Inv, Walks, Clears, Uncrossed, Enrolled, Faces, Honest;
    StartKept(Faces(s), s, s);
    if r.hasPrice { WalkKept(Faces(s), MarkOf(s), lim, r.price, Walk(s, r.matched, None, None), trail, last); }
  }

  // ---------------------------------------------------------------- at any time

  /** The account bought in the trade; an implied fill has one side only. */
  predicate Bought(t: Trade, a: nat) {
    if t.side == Buy then t.aggressorAccount == a else t.aggressor != t.resting && t.restingAccount == a
  }

  predicate Sold(t: Trade, a: nat) {
    if t.side == Sell then t.aggressorAccount == a else t.aggressor != t.resting && t.restingAccount == a
  }

  /** What the account bought in the first n trades that stand, less what it sold. */
  ghost function NetBought(l: Ledger, a: nat, n: nat): int
    requires n <= |l.log|
  {
    if n == 0 then 0
    else
      var t := l.log[n - 1];
      NetBought(l, a, n - 1) + if l.Busted(n - 1) then 0 else (if Bought(t, a) then t.qty else 0) - (if Sold(t, a) then t.qty else 0)
  }

  lemma {:induction false} NetIs(l: Ledger, a: nat, n: nat)
    requires n <= |l.log|
    ensures NetTo(l, a, n) == NetBought(l, a, n)
  {
    if n > 0 { NetIs(l, a, n - 1); }
  }

  /** A tracked account's position is what it bought less what it sold in the trades that stand. */
  lemma PositionIs(lim: Limits, s: State, a: nat)
    requires Inv(lim, s, multiset{}) && 0 < a < lim.maxAccounts
    ensures |s.ledger.positions| == lim.maxAccounts && s.ledger.positions[a] == NetBought(s.ledger, a, |s.ledger.log|)
  {
    NetIs(s.ledger, a, |s.ledger.log|);
    assert Tracked(a, lim.maxAccounts);
  }
}
