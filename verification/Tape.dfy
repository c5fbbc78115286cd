/**
  The order-by-order (L3) market data feed and the book a subscriber rebuilds from it.
  The rebuilt book is one flat list of visible orders in arrival order; the queue at a
  price is the sub-list of that price.  It knows nothing of levels, caches or links.
 */
module Tape {
  import opened Types
  import opened Queues
  import opened Levels

  datatype Action = Add | Modify | Cancel | Fill

  /** OrderBookAction (exchange-core/events.h). */
  datatype BookAction = BookAction(id: nat, side: Side, price: int, qty: int, action: Action)

  datatype Entry = Entry(id: nat, side: Side, price: int, qty: int)

  // ---------------------------------------------------------------- the subscriber's view

  function Drop(t: seq<Entry>, id: nat): seq<Entry> {
    if t == [] then [] else (if t[0].id == id then [] else [t[0]]) + Drop(t[1..], id)
  }

  /** Subtract a fill from an order and drop it once nothing is left. */
  function Reduce(t: seq<Entry>, id: nat, n: int): seq<Entry> {
    if t == [] then []
    else (if t[0].id != id then [t[0]]
          else if t[0].qty <= n then []
          else [t[0].(qty := t[0].qty - n)]) + Reduce(t[1..], id, n)
  }

  function Apply(t: seq<Entry>, e: BookAction): seq<Entry> {
    match e.action
    case Add => t + [Entry(e.id, e.side, e.price, e.qty)]
    case Cancel => Drop(t, e.id)
    case Fill => Reduce(t, e.id, e.qty)
    case Modify => t
  }

  function Replay(es: seq<BookAction>): seq<Entry> {
    if es == [] then [] else Apply(Replay(es[..|es|-1]), es[|es|-1])
  }

  lemma ReplaySnoc(es: seq<BookAction>, e: BookAction)
    ensures Replay(es + [e]) == Apply(Replay(es), e)
  {
    assert (es + [e])[..|es|] == es;
  }

  /** The subscriber's queue at one price of one side. */
  function At(t: seq<Entry>, side: Side, price: int): seq<Entry> {
    if t == [] then []
    else (if t[0].side == side && t[0].price == price then [t[0]] else []) + At(t[1..], side, price)
  }

  // ---------------------------------------------------------------- the engine's view

  function Shown(side: Side, price: int, o: Order): seq<Entry> {
    if o.remaining > 0 then [Entry(o.id, side, price, o.remaining)] else []
  }

  /** Orders of a queue as the feed shows them; an exhausted tranche is not shown. */
  function Visible(side: Side, price: int, q: seq<Order>): seq<Entry> {
    if q == [] then []
    else Shown(side, price, q[0]) + Visible(side, price, q[1..])
  }

  /** At every price the subscriber's queue is the engine's queue, in the same order. */
  ghost predicate MirrorsSide(t: seq<Entry>, side: Side, ls: seq<Level>) {
    forall p :: At(t, side, p) == Visible(side, p, QueueAt(side, ls, p))
  }

  ghost predicate Mirrors(es: seq<BookAction>, bids: seq<Level>, asks: seq<Level>) {
    MirrorsSide(Replay(es), Buy, bids) && MirrorsSide(Replay(es), Sell, asks)
  }

  // ---------------------------------------------------------------- lists of entries

  ghost predicate Absent(t: seq<Entry>, id: nat) { forall i :: 0 <= i < |t| ==> t[i].id != id }

  lemma {:induction false} AtConcat(a: seq<Entry>, b: seq<Entry>, side: Side, p: int)
    ensures At(a + b, side, p) == At(a, side, p) + At(b, side, p)
  {
    if a == [] {
      assert a + b == b;
    } else {
      assert (a + b)[1..] == a[1..] + b;
      AtConcat(a[1..], b, side, p);
    }
  }

  lemma {:induction false} DropConcat(a: seq<Entry>, b: seq<Entry>, id: nat)
    ensures Drop(a + b, id) == Drop(a, id) + Drop(b, id)
  {
    if a == [] {
      assert a + b == b;
    } else {
      assert (a + b)[1..] == a[1..] + b;
      DropConcat(a[1..], b, id);
    }
  }

  lemma {:induction false} ReduceConcat(a: seq<Entry>, b: seq<Entry>, id: nat, n: int)
    ensures Reduce(a + b, id, n) == Reduce(a, id, n) + Reduce(b, id, n)
  {
    if a == [] {
      assert a + b == b;
    } else {
      assert (a + b)[1..] == a[1..] + b;
      ReduceConcat(a[1..], b, id, n);
    }
  }

  lemma {:induction false} DropAbsent(t: seq<Entry>, id: nat)
    requires Absent(t, id)
    ensures Drop(t, id) == t
  {
    if t != [] { DropAbsent(t[1..], id); }
  }

  lemma {:induction false} ReduceAbsent(t: seq<Entry>, id: nat, n: int)
    requires Absent(t, id)
    ensures Reduce(t, id, n) == t
  {
    if t != [] { ReduceAbsent(t[1..], id, n); }
  }

  lemma {:induction false} AtDrop(t: seq<Entry>, id: nat, side: Side, p: int)
    ensures At(Drop(t, id), side, p) == Drop(At(t, side, p), id)
  {
    if t != [] {
      AtDrop(t[1..], id, side, p);
      AtConcat(if t[0].id == id then [] else [t[0]], Drop(t[1..], id), side, p);
      DropConcat(if t[0].side == side && t[0].price == p then [t[0]] else [], At(t[1..], side, p), id);
    }
  }

  lemma {:induction false} AtReduce(t: seq<Entry>, id: nat, n: int, side: Side, p: int)
    ensures At(Reduce(t, id, n), side, p) == Reduce(At(t, side, p), id, n)
  {
    if t != [] {
      AtReduce(t[1..], id, n, side, p);
      var h := if t[0].id != id then [t[0]] else if t[0].qty <= n then [] else [t[0].(qty := t[0].qty - n)];
      AtConcat(h, Reduce(t[1..], id, n), side, p);
      ReduceConcat(if t[0].side == side && t[0].price == p then [t[0]] else [], At(t[1..], side, p), id, n);
    }
  }

  // ---------------------------------------------------------------- visible queues

  lemma {:induction false} VisibleConcat(side: Side, p: int, a: seq<Order>, b: seq<Order>)
    ensures Visible(side, p, a + b) == Visible(side, p, a) + Visible(side, p, b)
  {
    if a == [] {
      assert a + b == b;
    } else {
      assert (a + b)[1..] == a[1..] + b;
      VisibleConcat(side, p, a[1..], b);
    }
  }

  lemma {:induction false} VisibleAbsent(side: Side, p: int, q: seq<Order>, id: nat)
    requires id !in Ids(q)
    ensures Absent(Visible(side, p, q), id)
  {
    if q != [] {
      assert Ids(q)[0] == q[0].id;
      forall i | 0 <= i < |q[1..]| ensures Ids(q[1..])[i] == Ids(q)[i+1] {}
      VisibleAbsent(side, p, q[1..], id);
    }
  }

  lemma VisibleSplit(side: Side, p: int, q: seq<Order>, j: nat)
    requires j < |q|
    ensures Visible(side, p, q) ==
      Visible(side, p, q[..j]) + Visible(side, p, [q[j]]) + Visible(side, p, q[j+1..])
  {
    assert q == (q[..j] + [q[j]]) + q[j+1..];
    VisibleConcat(side, p, q[..j] + [q[j]], q[j+1..]);
    VisibleConcat(side, p, q[..j], [q[j]]);
  }

  lemma NeighboursAbsent(side: Side, p: int, q: seq<Order>, j: nat)
    requires j < |q| && NoDup(q)
    ensures Absent(Visible(side, p, q[..j]), q[j].id) && Absent(Visible(side, p, q[j+1..]), q[j].id)
  {
    VisibleAbsent(side, p, q[..j], q[j].id);
    VisibleAbsent(side, p, q[j+1..], q[j].id);
  }

  /** Taking an order out of a queue is what a Cancel tells the subscriber. */
  lemma VisibleWithout(side: Side, p: int, q: seq<Order>, j: nat)
    requires j < |q| && NoDup(q)
    ensures Visible(side, p, Without(q, j)) == Drop(Visible(side, p, q), q[j].id)
  {
    var a, b, c := Visible(side, p, q[..j]), Visible(side, p, [q[j]]), Visible(side, p, q[j+1..]);
    VisibleSplit(side, p, q, j);
    VisibleConcat(side, p, q[..j], q[j+1..]);
    NeighboursAbsent(side, p, q, j);
    DropConcat(a + b, c, q[j].id);
    DropConcat(a, b, q[j].id);
    DropAbsent(a, q[j].id);
    DropAbsent(c, q[j].id);
    assert Drop(b, q[j].id) == [];
    assert a + [] == a;
  }

  /** Filling an order in its place is what a Fill tells the subscriber. */
  lemma VisibleTake(side: Side, p: int, q: seq<Order>, j: nat, n: int)
    requires j < |q| && NoDup(q) && 0 < n <= q[j].remaining
    ensures Visible(side, p, q[j := q[j].Filled(n)]) == Reduce(Visible(side, p, q), q[j].id, n)
  {
    var q' := q[j := q[j].Filled(n)];
    var a, b, c := Visible(side, p, q[..j]), Visible(side, p, [q[j]]), Visible(side, p, q[j+1..]);
    VisibleSplit(side, p, q, j);
    VisibleSplit(side, p, q', j);
    assert q'[..j] == q[..j] && q'[j+1..] == q[j+1..];
    NeighboursAbsent(side, p, q, j);
    ReduceConcat(a + b, c, q[j].id, n);
    ReduceConcat(a, b, q[j].id, n);
    ReduceAbsent(a, q[j].id, n);
    ReduceAbsent(c, q[j].id, n);
    assert Reduce(b, q[j].id, n) == Visible(side, p, [q'[j]]);
  }

  /** An exhausted tranche is already invisible, so unlinking it shows nothing. */
  lemma VisibleUnlink(side: Side, p: int, q: seq<Order>, j: nat)
    requires j < |q| && q[j].remaining <= 0
    ensures Visible(side, p, Without(q, j)) == Visible(side, p, q)
  {
    hide Visible;
    VisibleSplit(side, p, q, j);
    VisibleConcat(side, p, q[..j], q[j+1..]);
    InvisibleOne(side, p, q[j]);
  }

  lemma InvisibleOne(side: Side, p: int, o: Order)
    requires o.remaining <= 0
    ensures Visible(side, p, [o]) == []
  {
  }

  // ---------------------------------------------------------------- queues of a side

  lemma QueueAtPut(dir: Side, ls: seq<Level>, k: nat, q: seq<Order>, p: int)
    requires Sorted(dir, ls) && k < |ls|
    ensures QueueAt(dir, PutQueue(ls, k, q), p) == if p == ls[k].price then q else QueueAt(dir, ls, p)
  {
    var r := PutQueue(ls, k, q);
    PutSorted(dir, ls, k, q);
    PutMembers(dir, ls, k, q);
    QueueOf(dir, ls, p);
    QueueOf(dir, r, p);
    if HasPrice(ls, p) && p != ls[k].price {
      var lv :| lv in ls && lv.price == p;
      assert lv in r;
    }
    if p == ls[k].price && q != [] {
      assert MkLevel(p, q) in r;
    }
  }

  lemma PutSorted(dir: Side, ls: seq<Level>, k: nat, q: seq<Order>)
    requires Sorted(dir, ls) && k < |ls|
    ensures Sorted(dir, PutQueue(ls, k, q))
  {
  }

  /** QueueAt by membership: the queue of the level at p, or empty. */
  lemma QueueOf(dir: Side, ls: seq<Level>, p: int)
    requires Sorted(dir, ls)
    ensures forall lv :: lv in ls && lv.price == p ==> QueueAt(dir, ls, p) == lv.orders
    ensures !HasPrice(ls, p) ==> QueueAt(dir, ls, p) == []
  {
    SlotPrice(dir, ls, p);
    forall lv | lv in ls && lv.price == p ensures QueueAt(dir, ls, p) == lv.orders {
      var i :| 0 <= i < |ls| && ls[i] == lv;
      QueueAtLevel(dir, ls, i);
    }
  }

  lemma QueueAtInsert(dir: Side, ls: seq<Level>, price: int, o: Order, p: int)
    requires WellFormed(dir, ls)
    ensures QueueAt(dir, Insert(dir, ls, price, o), p) ==
      if p == price then QueueAt(dir, ls, price) + [o] else QueueAt(dir, ls, p)
  {
    var r := Insert(dir, ls, price, o);
    InsertOk(dir, ls, price, o);
    InsertMembers(dir, ls, price, o);
    QueueOf(dir, ls, p);
    QueueOf(dir, r, p);
    if p == price {
      assert MkLevel(price, QueueAt(dir, ls, price) + [o]) in r;
    } else if HasPrice(ls, p) {
      var lv :| lv in ls && lv.price == p;
      assert lv in r;
    }
  }

  /** Two levels' orders are both in the side's bag. */
  lemma TwoLevels(ls: seq<Level>, i: nat, k: nat, id: nat)
    requires i < |ls| && k < |ls| && i != k
    ensures Bag(ls)[id] >= IdBag(ls[i].orders)[id] + IdBag(ls[k].orders)[id]
  {
    var lo, hi := if i < k then i else k, if i < k then k else i;
    BagSplit(ls, hi);
    assert ls[..hi][lo] == ls[lo];
    BagSplit(ls[..hi], lo);
  }

  /** An order of level k is in no other queue of the side when identifiers are unique. */
  lemma OnlyHere(dir: Side, ls: seq<Level>, k: nat, j: nat, p: int)
    requires Sorted(dir, ls) && k < |ls| && j < |ls[k].orders| && p != ls[k].price
    requires Bag(ls)[ls[k].orders[j].id] <= 1
    ensures ls[k].orders[j].id !in Ids(QueueAt(dir, ls, p))
  {
    var id := ls[k].orders[j].id;
    var i := Slot(dir, ls, p);
    if i < |ls| && ls[i].price == p {
      IdBagMember(ls[k].orders, j);
      TwoLevels(ls, i, k, id);
      assert IdBag(ls[i].orders)[id] == 0;
    }
  }

  lemma NowhereAt(dir: Side, ls: seq<Level>, id: nat, p: int)
    requires Bag(ls)[id] == 0
    ensures id !in Ids(QueueAt(dir, ls, p))
  {
    var i := Slot(dir, ls, p);
    if i < |ls| { BagSplit(ls, i); }
  }
}
