/**
  How many orders of a list share a limit price, and what changes of a list keep it from growing.
 */
module Crowds {
  import opened Types
  import opened Queues
  import opened Levels
  import opened EngineState
  import opened Trading

  /** The order has, or will have once triggered, the limit price p. */
  predicate Bids(o: Order, p: int) { (o.kind == Limit || o.kind == StopLimit) && o.price == p }

  function PricedIn(q: seq<Order>, p: int): nat {
    if q == [] then 0 else (if Bids(q[0], p) then 1 else 0) + PricedIn(q[1..], p)
  }

  /** Orders of a list with limit price p. */
  function Priced(ls: seq<Level>, p: int): nat {
    if ls == [] then 0 else PricedIn(ls[0].orders, p) + Priced(ls[1..], p)
  }

  // ---------------------------------------------------------------- counting

  lemma {:induction false} PricedInConcat(a: seq<Order>, b: seq<Order>, p: int)
    ensures PricedIn(a + b, p) == PricedIn(a, p) + PricedIn(b, p)
  {
    if a == [] {
      assert a + b == b;
    } else {
      assert (a + b)[1..] == a[1..] + b;
      PricedInConcat(a[1..], b, p);
    }
  }

  lemma PricedOne(o: Order, p: int)
    ensures PricedIn([o], p) == if Bids(o, p) then 1 else 0
  {
    assert [o][1..] == [];
  }

  lemma PricedInAt(q: seq<Order>, j: nat, p: int)
    requires j < |q|
    ensures PricedIn(q, p) == PricedIn(Without(q, j), p) + if Bids(q[j], p) then 1 else 0
  {
    hide PricedIn;
    assert q == q[..j] + ([q[j]] + q[j+1..]);
    PricedInConcat(q[..j], [q[j]] + q[j+1..], p);
    PricedInConcat([q[j]], q[j+1..], p);
    PricedInConcat(q[..j], q[j+1..], p);
    PricedOne(q[j], p);
  }

  lemma PricedInSwap(q: seq<Order>, j: nat, o: Order, p: int)
    requires j < |q| && (Bids(o, p) <==> Bids(q[j], p))
    ensures PricedIn(q[j := o], p) == PricedIn(q, p)
  {
    hide PricedIn;
    PricedInAt(q, j, p);
    PricedInAt(q[j := o], j, p);
    assert Without(q[j := o], j) == Without(q, j);
  }

  lemma {:induction false} PricedAll(q: seq<Order>, p: int)
    requires forall o :: o in q ==> Bids(o, p)
    ensures PricedIn(q, p) == |q|
  {
    if q != [] { PricedAll(q[1..], p); }
  }

  lemma {:induction false} PricedConcat(a: seq<Level>, b: seq<Level>, p: int)
    ensures Priced(a + b, p) == Priced(a, p) + Priced(b, p)
  {
    if a == [] {
      assert a + b == b;
    } else {
      assert (a + b)[1..] == a[1..] + b;
      PricedConcat(a[1..], b, p);
    }
  }

  lemma PricedLevel(lv: Level, p: int)
    ensures Priced([lv], p) == PricedIn(lv.orders, p)
  {
    assert [lv][1..] == [];
  }

  lemma PricedSplit(ls: seq<Level>, k: nat, p: int)
    requires k < |ls|
    ensures Priced(ls, p) == Priced(ls[..k], p) + PricedIn(ls[k].orders, p) + Priced(ls[k+1..], p)
  {
    hide Priced;
    assert ls == ls[..k] + ([ls[k]] + ls[k+1..]);
    PricedConcat(ls[..k], [ls[k]] + ls[k+1..], p);
    PricedConcat([ls[k]], ls[k+1..], p);
    PricedLevel(ls[k], p);
  }

  lemma PutPriced(ls: seq<Level>, k: nat, q: seq<Order>, p: int)
    requires k < |ls|
    ensures Priced(PutQueue(ls, k, q), p) == Priced(ls, p) - PricedIn(ls[k].orders, p) + PricedIn(q, p)
  {
    hide Priced, PricedIn;
    PricedSplit(ls, k, p);
    if q == [] {
      PricedConcat(ls[..k], ls[k+1..], p);
      assert PricedIn(q, p) == 0 by { PricedNone(p); }
    } else {
      PutSplit(ls, k, q);
      PricedSplit(PutQueue(ls, k, q), k, p);
    }
  }

  lemma PricedNone(p: int)
    ensures PricedIn([], p) == 0
  {
  }

  lemma InsertPriced(dir: Side, ls: seq<Level>, price: int, o: Order, p: int)
    ensures Priced(Insert(dir, ls, price, o), p) == Priced(ls, p) + if Bids(o, p) then 1 else 0
  {
    hide Priced, PricedIn;
    var k := Slot(dir, ls, price);
    PricedOne(o, p);
    if k < |ls| && ls[k].price == price {
      PutPriced(ls, k, ls[k].orders + [o], p);
      PricedInConcat(ls[k].orders, [o], p);
    } else {
      var lv := MkLevel(price, [o]);
      assert ls[..k] + [lv] + ls[k..] == ls[..k] + ([lv] + ls[k..]) && ls == ls[..k] + ls[k..];
      PricedConcat(ls[..k], [lv] + ls[k..], p);
      PricedConcat([lv], ls[k..], p);
      PricedConcat(ls[..k], ls[k..], p);
      PricedLevel(lv, p);
    }
  }

  // ---------------------------------------------------------------- lists that do not grow

  ghost predicate Thinner(ls0: seq<Level>, ls: seq<Level>) { forall p :: Priced(ls, p) <= Priced(ls0, p) }

  lemma FillPriced(q: seq<Order>, j: nat, n: int, p: int)
    requires j < |q|
    ensures PricedIn(FillQ(q, j, n), p) <= PricedIn(q, p)
  {
    hide PricedIn;
    var o := q[j].Filled(n);
    var next := o.(remaining := o.NextTranche());
    PricedInSwap(q, j, o, p);
    PricedInAt(q, j, p);
    PricedInConcat(Without(q, j), [next], p);
    PricedOne(next, p);
  }

  lemma FillThinner(ls: seq<Level>, k: nat, j: nat, n: int)
    requires Spot(ls, k, j)
    ensures Thinner(ls, PutQueue(ls, k, FillQ(ls[k].orders, j, n)))
  {
    hide Priced, PricedIn, FillQ, PutQueue;
    forall p ensures Priced(PutQueue(ls, k, FillQ(ls[k].orders, j, n)), p) <= Priced(ls, p) {
      PutPriced(ls, k, FillQ(ls[k].orders, j, n), p);
      FillPriced(ls[k].orders, j, n, p);
    }
  }

  lemma WithoutThinner(ls: seq<Level>, k: nat, j: nat)
    requires Spot(ls, k, j)
    ensures Thinner(ls, PutQueue(ls, k, Without(ls[k].orders, j)))
  {
    hide Priced, PricedIn, PutQueue, Without;
    forall p ensures Priced(PutQueue(ls, k, Without(ls[k].orders, j)), p) <= Priced(ls, p) {
      PutPriced(ls, k, Without(ls[k].orders, j), p);
      PricedInAt(ls[k].orders, j, p);
    }
  }

  /** Changing an order's quantities in its place. */
  lemma SwapThinner(ls: seq<Level>, k: nat, j: nat, o: Order)
    requires Spot(ls, k, j) && o.kind == ls[k].orders[j].kind && o.price == ls[k].orders[j].price
    ensures Thinner(ls, PutQueue(ls, k, ls[k].orders[j := o]))
  {
    hide Priced, PricedIn, PutQueue;
    forall p ensures Priced(PutQueue(ls, k, ls[k].orders[j := o]), p) <= Priced(ls, p) {
      PutPriced(ls, k, ls[k].orders[j := o], p);
      PricedInSwap(ls[k].orders, j, o, p);
    }
  }
}
