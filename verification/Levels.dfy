/**
  One side of a book: price levels in best-first order, as kept by OrderBook
  (exchange-core/orderbook.cc) and StopBook (exchange-core/stop_book.cc).  A side is a
  sequence of levels whose totals and counts are caches of the queue they hold.
 */
module Levels {
  import opened Types
  import opened Queues

  ghost predicate Sorted(dir: Side, ls: seq<Level>) {
    forall i, j :: 0 <= i < j < |ls| ==> Better(dir, ls[i].price, ls[j].price)
  }

  /** The cached aggregates agree with the queue, which is never empty. */
  ghost predicate CachesOk(lv: Level) {
    lv.orders != [] && lv.count == |lv.orders| && lv.total == SumRem(lv.orders)
  }

  ghost predicate WellFormed(dir: Side, ls: seq<Level>) {
    Sorted(dir, ls) && forall lv :: lv in ls ==> CachesOk(lv)
  }

  function MkLevel(price: int, q: seq<Order>): Level { Level(price, SumRem(q), |q|, q) }

  /** Replace the queue of level k; a level left without orders is unlinked. */
  function PutQueue(ls: seq<Level>, k: nat, q: seq<Order>): seq<Level>
    requires k < |ls|
  {
    if q == [] then ls[..k] + ls[k+1..] else ls[k := MkLevel(ls[k].price, q)]
  }

  /** How many levels are strictly better than `price`. */
  function Slot(dir: Side, ls: seq<Level>, price: int): (k: nat)
    ensures k <= |ls|
    ensures forall i :: 0 <= i < k ==> Better(dir, ls[i].price, price)
    ensures k < |ls| ==> !Better(dir, ls[k].price, price)
  {
    if ls == [] || !Better(dir, ls[0].price, price) then 0 else 1 + Slot(dir, ls[1..], price)
  }

  /** Append an order to the queue at `price`, linking a new level where none exists. */
  function Insert(dir: Side, ls: seq<Level>, price: int, o: Order): seq<Level> {
    var k := Slot(dir, ls, price);
    if k < |ls| && ls[k].price == price then PutQueue(ls, k, ls[k].orders + [o])
    else ls[..k] + [MkLevel(price, [o])] + ls[k..]
  }

  ghost predicate HasPrice(ls: seq<Level>, price: int) { exists lv :: lv in ls && lv.price == price }

  /** Identifiers of all orders on a side, with multiplicity. */
  function Bag(ls: seq<Level>): multiset<nat> {
    if ls == [] then multiset{} else IdBag(ls[0].orders) + Bag(ls[1..])
  }

  function OrderCount(ls: seq<Level>): nat {
    if ls == [] then 0 else |ls[0].orders| + OrderCount(ls[1..])
  }

  // ---------------------------------------------------------------- operations

  /** find_level: linear search for an exact price. */
  method FindLevel(ls: seq<Level>, price: int) returns (k: int)
    ensures -1 <= k < |ls|
    ensures k >= 0 ==> ls[k].price == price
    ensures k < 0 ==> !HasPrice(ls, price)
  {
    var i := 0;
    while i < |ls|
      invariant 0 <= i <= |ls|
      invariant forall j :: 0 <= j < i ==> ls[j].price != price
    {
      if ls[i].price == price { return i; }
      i := i + 1;
    }
    return -1;
  }

  /** link_level: insert a new level before the first worse one, or at the back. */
  method LinkLevel(dir: Side, ls: seq<Level>, lv: Level) returns (r: seq<Level>)
    requires Sorted(dir, ls) && !HasPrice(ls, lv.price)
    ensures r == ls[..Slot(dir, ls, lv.price)] + [lv] + ls[Slot(dir, ls, lv.price)..]
    ensures Sorted(dir, r)
  {
    var i := 0;
    while i < |ls| && !Better(dir, lv.price, ls[i].price)
      invariant 0 <= i <= |ls|
      invariant forall j :: 0 <= j < i ==> Better(dir, ls[j].price, lv.price)
    {
      assert ls[i] in ls;
      i := i + 1;
    }
    r := ls[..i] + [lv] + ls[i..];
    assert i == Slot(dir, ls, lv.price);
  }

  /** insert_order / insert_stop.  `linked` tells whether the spare level was consumed. */
  method InsertOrder(dir: Side, ls: seq<Level>, o: Order, price: int) returns (r: seq<Level>, linked: bool)
    requires WellFormed(dir, ls)
    ensures r == Insert(dir, ls, price, o)
    ensures linked <==> !HasPrice(ls, price)
  {
    var k := FindLevel(ls, price);
    SlotPrice(dir, ls, price);
    r, linked := ls, k < 0;
    if k < 0 {
      r := LinkLevel(dir, ls, Level(price, 0, 0, []));
      k := Slot(dir, ls, price);
    } else {
      QueueAtLevel(dir, ls, k);
      assert CachesOk(ls[k]);
    }
    var lv := r[k];
    SumRemSnoc(lv.orders, o);
    lv := Level(lv.price, lv.total + o.remaining, lv.count + 1, lv.orders + [o]);
    if linked {
      assert [] + [o] == [o];
      Relink(ls, k, r[k], lv);
    }
    r := r[k := lv];
  }

  lemma Relink(ls: seq<Level>, k: nat, a: Level, b: Level)
    requires k <= |ls|
    ensures (ls[..k] + [a] + ls[k..])[k := b] == ls[..k] + [b] + ls[k..]
  {
  }

  /** remove_order / remove_stop.  `freed` tells whether the level was unlinked. */
  method RemoveOrder(ls: seq<Level>, k: nat, j: nat) returns (r: seq<Level>, freed: bool)
    requires k < |ls| && ls[k].count == |ls[k].orders| && j < |ls[k].orders|
    ensures freed <==> |ls[k].orders| == 1
    ensures r == if freed then ls[..k] + ls[k+1..]
                 else ls[k := Level(ls[k].price, ls[k].total - ls[k].orders[j].remaining, ls[k].count - 1, Without(ls[k].orders, j))]
    ensures CachesOk(ls[k]) ==> r == PutQueue(ls, k, Without(ls[k].orders, j))
  {
    var lv := ls[k];
    SumRemWithout(lv.orders, j);
    lv := Level(lv.price, lv.total - lv.orders[j].remaining, lv.count - 1, Without(lv.orders, j));
    if lv.count == 0 {
      r, freed := ls[..k] + ls[k+1..], true;
    } else {
      r, freed := ls[k := lv], false;
    }
  }

  // ---------------------------------------------------------------- lemmas

  lemma {:induction false} BagConcat(a: seq<Level>, b: seq<Level>)
    ensures Bag(a + b) == Bag(a) + Bag(b)
  {
    if a == [] {
      assert a + b == b;
    } else {
      assert (a + b)[1..] == a[1..] + b;
      BagConcat(a[1..], b);
    }
  }

  lemma BagSplit(ls: seq<Level>, k: nat)
    requires k < |ls|
    ensures Bag(ls) == Bag(ls[..k]) + IdBag(ls[k].orders) + Bag(ls[k+1..])
  {
    assert ls == ls[..k] + ls[k..];
    BagConcat(ls[..k], ls[k..]);
    assert ls[k..][1..] == ls[k+1..];
  }

  lemma {:induction false} CountConcat(a: seq<Level>, b: seq<Level>)
    ensures OrderCount(a + b) == OrderCount(a) + OrderCount(b)
  {
    if a == [] {
      assert a + b == b;
    } else {
      assert (a + b)[1..] == a[1..] + b;
      CountConcat(a[1..], b);
    }
  }

  lemma CountSplit(ls: seq<Level>, k: nat)
    requires k < |ls|
    ensures OrderCount(ls) == OrderCount(ls[..k]) + |ls[k].orders| + OrderCount(ls[k+1..])
  {
    assert ls == ls[..k] + ls[k..];
    CountConcat(ls[..k], ls[k..]);
    assert ls[k..][1..] == ls[k+1..];
  }

  /** Writing an exhausted order anew at the back of its queue adds to the level what it now shows. */
  lemma MoveParts(ls: seq<Level>, k: nat, j: nat, o: Order)
    requires k < |ls| && CachesOk(ls[k]) && j < |ls[k].orders| && ls[k].orders[j].remaining == 0
    ensures PutQueue(ls, k, Without(ls[k].orders, j) + [o]) ==
      ls[k := Level(ls[k].price, ls[k].total + o.remaining, ls[k].count, Without(ls[k].orders, j) + [o])]
  {
    SumRemWithout(ls[k].orders, j);
    SumRemSnoc(Without(ls[k].orders, j), o);
  }

  lemma PutSplit(ls: seq<Level>, k: nat, q: seq<Order>)
    requires k < |ls| && q != []
    ensures PutQueue(ls, k, q)[..k] == ls[..k] && PutQueue(ls, k, q)[k+1..] == ls[k+1..]
    ensures PutQueue(ls, k, q)[k] == MkLevel(ls[k].price, q)
  {
  }

  lemma PutWellFormed(dir: Side, ls: seq<Level>, k: nat, q: seq<Order>)
    requires WellFormed(dir, ls) && k < |ls|
    ensures WellFormed(dir, PutQueue(ls, k, q))
  {
  }

  lemma PutBag(ls: seq<Level>, k: nat, q: seq<Order>)
    requires k < |ls|
    ensures Bag(PutQueue(ls, k, q)) + IdBag(ls[k].orders) == Bag(ls) + IdBag(q)
  {
    BagSplit(ls, k);
    if q == [] {
      BagConcat(ls[..k], ls[k+1..]);
    } else {
      PutSplit(ls, k, q);
      BagSplit(PutQueue(ls, k, q), k);
    }
  }

  lemma PutCount(ls: seq<Level>, k: nat, q: seq<Order>)
    requires k < |ls|
    ensures OrderCount(PutQueue(ls, k, q)) == OrderCount(ls) - |ls[k].orders| + |q|
  {
    CountSplit(ls, k);
    if q == [] {
      CountConcat(ls[..k], ls[k+1..]);
    } else {
      PutSplit(ls, k, q);
      CountSplit(PutQueue(ls, k, q), k);
    }
  }

  /** After PutQueue the side holds the other levels and, at the level's price, the new queue. */
  lemma PutMembers(dir: Side, ls: seq<Level>, k: nat, q: seq<Order>)
    requires Sorted(dir, ls) && k < |ls|
    ensures forall lv :: lv in PutQueue(ls, k, q) <==>
      (lv in ls && lv.price != ls[k].price) || (q != [] && lv == MkLevel(ls[k].price, q))
  {
    hide MkLevel;
    if q == [] { DropMembers(dir, ls, k); } else { SetMembers(dir, ls, k, MkLevel(ls[k].price, q)); }
  }

  lemma DropMembers(dir: Side, ls: seq<Level>, k: nat)
    requires Sorted(dir, ls) && k < |ls|
    ensures forall lv :: lv in ls[..k] + ls[k+1..] <==> lv in ls && lv.price != ls[k].price
  {
    var r := ls[..k] + ls[k+1..];
    forall lv | lv in ls && lv.price != ls[k].price ensures lv in r {
      var i :| 0 <= i < |ls| && ls[i] == lv;
      assert r[if i < k then i else i - 1] == lv;
    }
  }

  lemma SetMembers(dir: Side, ls: seq<Level>, k: nat, x: Level)
    requires Sorted(dir, ls) && k < |ls|
    ensures forall lv :: lv in ls[k := x] <==> (lv in ls && lv.price != ls[k].price) || lv == x
  {
    var r := ls[k := x];
    assert r[k] == x;
    forall lv | lv in ls && lv.price != ls[k].price ensures lv in r {
      var i :| 0 <= i < |ls| && ls[i] == lv;
      assert r[i] == lv;
    }
  }

  /** Insert keeps the side well formed and adds exactly one order. */
  lemma InsertOk(dir: Side, ls: seq<Level>, price: int, o: Order)
    requires WellFormed(dir, ls)
    ensures WellFormed(dir, Insert(dir, ls, price, o))
    ensures Bag(Insert(dir, ls, price, o)) == Bag(ls) + multiset{o.id}
    ensures OrderCount(Insert(dir, ls, price, o)) == OrderCount(ls) + 1
    ensures |Insert(dir, ls, price, o)| == |ls| + if HasPrice(ls, price) then 0 else 1
  {
    var k := Slot(dir, ls, price);
    SlotPrice(dir, ls, price);
    if k < |ls| && ls[k].price == price {
      var q := ls[k].orders + [o];
      PutWellFormed(dir, ls, k, q);
      PutBag(ls, k, q);
      PutCount(ls, k, q);
      IdBagSnoc(ls[k].orders, o);
      BagCancel(Bag(PutQueue(ls, k, q)), IdBag(ls[k].orders), Bag(ls), multiset{o.id});
    } else {
      LinkOk(dir, ls, k, price, o);
    }
  }

  lemma LinkOk(dir: Side, ls: seq<Level>, k: nat, price: int, o: Order)
    requires WellFormed(dir, ls) && k == Slot(dir, ls, price) && (k < |ls| ==> ls[k].price != price)
    ensures WellFormed(dir, ls[..k] + [MkLevel(price, [o])] + ls[k..])
    ensures Bag(ls[..k] + [MkLevel(price, [o])] + ls[k..]) == Bag(ls) + multiset{o.id}
    ensures OrderCount(ls[..k] + [MkLevel(price, [o])] + ls[k..]) == OrderCount(ls) + 1
  {
    var lv := MkLevel(price, [o]);
    LinkSorted(dir, ls, k, lv);
    LinkBag(ls, k, lv);
    LinkCount(ls, k, lv);
    assert [] + [o] == [o];
    IdBagSnoc([], o);
  }

  lemma LinkBag(ls: seq<Level>, k: nat, lv: Level)
    requires k <= |ls|
    ensures Bag(ls[..k] + [lv] + ls[k..]) == Bag(ls) + IdBag(lv.orders)
  {
    hide Bag, IdBag;
    var a, b := ls[..k], ls[k..];
    BagConcat(a + [lv], b);
    BagConcat(a, [lv]);
    BagConcat(a, b);
    assert ls == a + b;
    BagOne(lv);
    assert (Bag(a) + IdBag(lv.orders)) + Bag(b) == (Bag(a) + Bag(b)) + IdBag(lv.orders);
  }

  lemma BagOne(lv: Level)
    ensures Bag([lv]) == IdBag(lv.orders)
  {
    assert [lv][1..] == [];
  }

  lemma LinkCount(ls: seq<Level>, k: nat, lv: Level)
    requires k <= |ls|
    ensures OrderCount(ls[..k] + [lv] + ls[k..]) == OrderCount(ls) + |lv.orders|
  {
    hide OrderCount;
    CountConcat(ls[..k] + [lv], ls[k..]);
    CountConcat(ls[..k], [lv]);
    CountConcat(ls[..k], ls[k..]);
    CountOne(lv);
    assert ls == ls[..k] + ls[k..];
  }

  lemma CountOne(lv: Level)
    ensures OrderCount([lv]) == |lv.orders|
  {
    assert [lv][1..] == [];
  }

  lemma BagCancel(a: multiset<nat>, b: multiset<nat>, c: multiset<nat>, d: multiset<nat>)
    requires a + b == c + (b + d)
    ensures a == c + d
  {
    forall x ensures a[x] == c[x] + d[x] {
      assert (a + b)[x] == (c + (b + d))[x];
    }
  }

  lemma LinkSorted(dir: Side, ls: seq<Level>, k: nat, lv: Level)
    requires WellFormed(dir, ls) && k == Slot(dir, ls, lv.price) && (k < |ls| ==> ls[k].price != lv.price)
    requires CachesOk(lv)
    ensures WellFormed(dir, ls[..k] + [lv] + ls[k..])
  {
  }

  lemma SlotPrice(dir: Side, ls: seq<Level>, price: int)
    requires Sorted(dir, ls)
    ensures HasPrice(ls, price) <==>
      Slot(dir, ls, price) < |ls| && ls[Slot(dir, ls, price)].price == price
  {
    var k := Slot(dir, ls, price);
    if HasPrice(ls, price) {
      var i :| 0 <= i < |ls| && ls[i].price == price;
    }
  }

  /** After Insert the side holds the other levels and, at `price`, the old queue plus the order. */
  lemma InsertMembers(dir: Side, ls: seq<Level>, price: int, o: Order)
    requires Sorted(dir, ls)
    ensures forall lv :: lv in Insert(dir, ls, price, o) <==>
      (lv in ls && lv.price != price) || lv == MkLevel(price, QueueAt(dir, ls, price) + [o])
  {
    var k := Slot(dir, ls, price);
    SlotPrice(dir, ls, price);
    var r := Insert(dir, ls, price, o);
    if k < |ls| && ls[k].price == price {
      PutMembers(dir, ls, k, ls[k].orders + [o]);
    } else {
      assert [] + [o] == [o];
      var lv := MkLevel(price, [o]);
      assert r[k] == lv;
      forall x | x in ls ensures x in r {
        var i :| 0 <= i < |ls| && ls[i] == x;
        assert r[if i < k then i else i + 1] == x;
      }
    }
  }

  /** The queue at a price; empty where there is no level. */
  function QueueAt(dir: Side, ls: seq<Level>, price: int): seq<Order> {
    var k := Slot(dir, ls, price);
    if k < |ls| && ls[k].price == price then ls[k].orders else []
  }

  lemma QueueAtLevel(dir: Side, ls: seq<Level>, k: nat)
    requires Sorted(dir, ls) && k < |ls|
    ensures Slot(dir, ls, ls[k].price) == k
    ensures QueueAt(dir, ls, ls[k].price) == ls[k].orders
  {
  }
}
