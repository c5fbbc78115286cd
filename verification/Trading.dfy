/**
  Trades against resting orders: what a fill does to the book, the ledger and the feed
  taken together, whichever of continuous matching, auction or implied fill caused it.
 */
module Trading {
  import opened Types
  import opened Queues
  import opened Levels
  import opened Tape
  import opened Ledger
  import opened EngineState
  import opened Steps

  /** Everything an operation keeps whatever it is given.  `hand` names the orders being worked
      on that are in no list. */
  ghost predicate Inv(lim: Limits, s: State, hand: multiset<nat>) {
    && Shape(lim, s, hand)
    && Showing(s.bids) && Showing(s.asks)
    && Reconciled(s)
    && Balanced(s.ledger, lim.maxAccounts, lim.maxTrades)
    && LastPrice(s) && KnownTrades(s)
  }

  lemma InvShape(lim: Limits, s: State, hand: multiset<nat>)
    requires Inv(lim, s, hand)
    ensures Shape(lim, s, hand) && Showing(s.bids) && Showing(s.asks)
  {
  }

  /** Trades are of something and name orders that have been accepted. */
  ghost predicate KnownTrades(s: State) {
    forall i :: 0 <= i < |s.ledger.log| ==>
      var t := s.ledger.log[i];
      t.aggressor < s.nextId && t.resting < s.nextId && t.qty > 0
  }

  /** An order not yet accepted has no trades. */
  lemma {:induction false} UntradedTo(l: Ledger, id: nat, n: nat)
    requires n <= |l.log| && forall i :: 0 <= i < n ==> l.log[i].aggressor != id && l.log[i].resting != id
    ensures TradedTo(l, id, n) == 0
  {
    if n > 0 { UntradedTo(l, id, n - 1); }
  }

  /** The last trade price is that of the last trade announced. */
  ghost predicate LastPrice(s: State) {
    s.ledger.log != [] ==> s.lastTrade == s.ledger.log[|s.ledger.log| - 1].price
  }

  /** A queue after one fill: the order stays in place, or shows its next tranche at the
      back, or leaves. */
  function FillQ(q: seq<Order>, j: nat, n: int): seq<Order>
    requires j < |q|
  {
    var o := q[j].Filled(n);
    if o.remaining != 0 then q[j := o]
    else if o.HasHidden() then Without(q, j) + [o.(remaining := o.NextTranche())]
    else Without(q, j)
  }

  function FillAt(s: State, side: Side, k: nat, j: nat, n: int, fillPrice: int): State
    requires k < |s.Book(side)| && j < |s.Book(side)[k].orders|
  {
    SettleAt(TakeAt(s, side, k, j, n, fillPrice), side, k, j)
  }

  lemma FillAtBook(s: State, side: Side, k: nat, j: nat, n: int, fp: int)
    requires k < |s.Book(side)| && j < |s.Book(side)[k].orders|
    ensures FillAt(s, side, k, j, n, fp).Book(side) == PutQueue(s.Book(side), k, FillQ(s.Book(side)[k].orders, j, n))
    ensures FillAt(s, side, k, j, n, fp).Book(side.Opposite()) == s.Book(side.Opposite())
  {
    var ls := s.Book(side);
    var q := ls[k].orders;
    var q1 := q[j := q[j].Filled(n)];
    var ls1 := PutQueue(ls, k, q1);
    assert ls1[k].orders == q1;
    assert Without(q1, j) == Without(q, j);
    assert ls1[..k] == ls[..k] && ls1[k+1..] == ls[k+1..];
    assert forall q2 :: PutQueue(ls1, k, q2) == PutQueue(ls, k, q2);
  }

  // ---------------------------------------------------------------- showing

  lemma PutShowing(dir: Side, ls: seq<Level>, k: nat, q: seq<Order>)
    requires Sorted(dir, ls) && k < |ls| && Showing(ls) && AllPositive(q)
    ensures Showing(PutQueue(ls, k, q))
  {
    PutMembers(dir, ls, k, q);
  }

  lemma FillQPositive(q: seq<Order>, j: nat, n: int)
    requires j < |q| && AllPositive(q) && 0 < n <= q[j].remaining
    ensures AllPositive(FillQ(q, j, n))
  {
  }

  lemma RestShowing(lim: Limits, s: State, o: Order)
    requires Shape(lim, s, multiset{o.id}) && Showing(s.bids) && Showing(s.asks) && o.remaining > 0
    ensures Showing(Rest(s, o).bids) && Showing(Rest(s, o).asks)
  {
    if s.freeLevels != 0 {
      var ls := s.Book(o.side);
      InsertMembers(o.side, ls, o.price, o);
      var k := Slot(o.side, ls, o.price);
      var q := QueueAt(o.side, ls, o.price);
      if q != [] { assert ls[k] in ls; }
      assert AllPositive(q + [o]);
    }
  }

  // ---------------------------------------------------------------- fills and trades agree

  lemma MemberBag(ls: seq<Level>, lv: Level, o: Order)
    requires lv in ls && o in lv.orders
    ensures Bag(ls)[o.id] >= 1
  {
    var k :| 0 <= k < |ls| && ls[k] == lv;
    var j :| 0 <= j < |lv.orders| && lv.orders[j] == o;
    BagSplit(ls, k);
    IdBagMember(lv.orders, j);
  }

  /** A trade leaves every order it does not name as it was. */
  lemma TradeElsewhere(ls: seq<Level>, l: Ledger, t: Trade, maxTrades: nat)
    requires |l.trades| <= |l.log| && ReconciledSide(ls, l)
    requires Bag(ls)[t.aggressor] == 0 && Bag(ls)[t.resting] == 0
    ensures ReconciledSide(ls, Posted(l, t, maxTrades))
  {
    forall lv, o | lv in ls && o in lv.orders ensures o.filled == Traded(Posted(l, t, maxTrades), o.id) {
      MemberBag(ls, lv, o);
      PostedAdds(l, t, maxTrades, 0, o.id);
    }
  }

  lemma OtherOrder(dir: Side, ls: seq<Level>, k: nat, j: nat, lv: Level, o: Order)
    requires Sorted(dir, ls) && Spot(ls, k, j) && Bag(ls)[ls[k].orders[j].id] <= 1
    requires lv in ls && lv.price != ls[k].price && o in lv.orders
    ensures o.id != ls[k].orders[j].id
  {
    OnlyHere(dir, ls, k, j, lv.price);
    QueueOf(dir, ls, lv.price);
    var i :| 0 <= i < |lv.orders| && lv.orders[i] == o;
    assert Ids(lv.orders)[i] == o.id;
  }

  /** A trade that names one order of a side, filled by its quantity. */
  lemma TradeHere(dir: Side, ls: seq<Level>, k: nat, j: nat, l: Ledger, t: Trade, maxTrades: nat, other: nat)
    requires |l.trades| <= |l.log| && ReconciledSide(ls, l) && Sorted(dir, ls) && Spot(ls, k, j)
    requires NoDup(ls[k].orders) && Bag(ls)[ls[k].orders[j].id] <= 1
    requires other == ls[k].orders[j].id || Bag(ls)[other] == 0
    requires {t.aggressor, t.resting} == {ls[k].orders[j].id, other}
    ensures ReconciledSide(PutQueue(ls, k, ls[k].orders[j := ls[k].orders[j].Filled(t.qty)]), Posted(l, t, maxTrades))
  {
    var q := ls[k].orders;
    var q' := q[j := q[j].Filled(t.qty)];
    var l' := Posted(l, t, maxTrades);
    PutMembers(dir, ls, k, q');
    forall lv, o | lv in PutQueue(ls, k, q') && o in lv.orders ensures o.filled == Traded(l', o.id) {
      PostedAdds(l, t, maxTrades, 0, o.id);
      if lv.price != ls[k].price {
        OtherOrder(dir, ls, k, j, lv, o);
        MemberBag(ls, lv, o);
      } else {
        var i :| 0 <= i < |q'| && q'[i] == o;
        assert ls[k] in ls && q[i] in ls[k].orders;
        MemberBag(ls, ls[k], q[i]);
        assert q[i].filled == Traded(l, q[i].id);
      }
    }
  }

  /** Unlinking or requeueing orders does not touch what they have filled. */
  lemma PutReconciled(dir: Side, ls: seq<Level>, k: nat, q: seq<Order>, l: Ledger)
    requires ReconciledSide(ls, l) && Sorted(dir, ls) && k < |ls|
    requires forall o :: o in q ==> o.filled == Traded(l, o.id)
    ensures ReconciledSide(PutQueue(ls, k, q), l)
  {
    PutMembers(dir, ls, k, q);
  }

  lemma SettleReconciled(lim: Limits, s: State, hand: multiset<nat>, side: Side, k: nat, j: nat)
    requires Shape(lim, s, hand) && Spot(s.Book(side), k, j) && Reconciled(s)
    ensures Reconciled(SettleAt(s, side, k, j))
  {
    var ls := s.Book(side);
    var q := ls[k].orders;
    assert ls[k] in ls;
    assert forall o :: o in q ==> o.filled == Traded(s.ledger, o.id);
    PutReconciled(side, ls, k, Without(q, j), s.ledger);
    PutReconciled(side, ls, k, Without(q, j) + [q[j].(remaining := q[j].NextTranche())], s.ledger);
  }

  lemma RestReconciled(lim: Limits, s: State, o: Order)
    requires Shape(lim, s, multiset{o.id}) && Reconciled(s) && o.filled == Traded(s.ledger, o.id)
    ensures Reconciled(Rest(s, o))
  {
    if s.freeLevels != 0 {
      var ls := s.Book(o.side);
      InsertMembers(o.side, ls, o.price, o);
      var k := Slot(o.side, ls, o.price);
      var q := QueueAt(o.side, ls, o.price);
      if q != [] { assert ls[k] in ls; }
      forall lv, x | lv in Insert(o.side, ls, o.price, o) && x in lv.orders ensures x.filled == Traded(s.ledger, x.id) {
        if lv !in ls { assert lv.orders == q + [o]; }
      }
    }
  }

  // ---------------------------------------------------------------- crossing

  lemma PutUncrossed(s: State, side: Side, k: nat, q: seq<Order>)
    requires Uncrossed(s) && k < |s.Book(side)|
    ensures Uncrossed(s.WithBook(side, PutQueue(s.Book(side), k, q)))
  {
    var ls := s.Book(side);
    forall lv | lv in PutQueue(ls, k, q) ensures exists o :: o in ls && o.price == lv.price {
      var i :| 0 <= i < |PutQueue(ls, k, q)| && PutQueue(ls, k, q)[i] == lv;
      var i' := if q == [] && i >= k then i + 1 else i;
      assert ls[i'] in ls && ls[i'].price == lv.price;
    }
  }

  lemma RestUncrossed(lim: Limits, s: State, o: Order)
    requires Shape(lim, s, multiset{o.id}) && Uncrossed(s)
    requires forall lv :: lv in s.Book(o.side.Opposite()) ==> Better(o.side.Opposite(), o.price, lv.price)
    ensures Uncrossed(Rest(s, o))
  {
    if s.freeLevels != 0 {
      InsertMembers(o.side, s.Book(o.side), o.price, o);
    }
  }
}
