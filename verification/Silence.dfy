/**
  Changes the order feed does not tell: an order rewritten in its place.  The replayed feed is then
  behind the book exactly when what the order shows has changed.
 */
module Silence {
  import opened Types
  import opened Queues
  import opened Levels
  import opened Tape
  import opened EngineState
  import opened Steps

  lemma {:induction false} VisibleIs(side: Side, p: int, q: seq<Order>, i: nat)
    requires AllPositive(q) && i < |q|
    ensures |Visible(side, p, q)| == |q| && Visible(side, p, q)[i] == Entry(q[i].id, side, p, q[i].remaining)
  {
    if |q| > 1 { VisibleIs(side, p, q[1..], if i == 0 then 0 else i - 1); }
  }

  lemma {:induction false} VisibleFrom(side: Side, p: int, q: seq<Order>, k: nat) returns (i: nat)
    requires k < |Visible(side, p, q)|
    ensures i < |q| && Visible(side, p, q)[k] == Entry(q[i].id, side, p, q[i].remaining)
  {
    var n := |Shown(side, p, q[0])|;
    if k < n { return 0; }
    i := VisibleFrom(side, p, q[1..], k - n);
    i := i + 1;
  }

  lemma {:induction false} VisibleHas(side: Side, p: int, q: seq<Order>, o: Order)
    requires o in q && o.remaining > 0
    ensures Entry(o.id, side, p, o.remaining) in Visible(side, p, q)
  {
    if o != q[0] { VisibleHas(side, p, q[1..], o); }
  }

  /** The order at a spot rewritten. */
  function Swapped(s: State, side: Side, k: nat, j: nat, o: Order): State
    requires Spot(s.Book(side), k, j)
  {
    s.WithBook(side, PutQueue(s.Book(side), k, s.Book(side)[k].orders[j := o]))
  }

  /** Rewriting an order keeps the feed true exactly when it shows what it showed. */
  lemma SwapMirrors(s: State, side: Side, k: nat, j: nat, o: Order)
    requires MirrorsBook(s) && Sorted(side, s.Book(side)) && Spot(s.Book(side), k, j) && AllPositive(s.Book(side)[k].orders)
    requires o.id == s.Book(side)[k].orders[j].id && o.remaining > 0
    ensures MirrorsBook(Swapped(s, side, k, j, o)) <==> o.remaining == s.Book(side)[k].orders[j].remaining
  {
    hide Visible, At, Replay, Sorted, PutQueue;
    var ls := s.Book(side);
    var q, p, t := ls[k].orders, ls[k].price, Replay(s.feed);
    var q' := q[j := o];
    MirrorAtLevel(t, side, ls, k);
    VisibleIs(side, p, q, j);
    VisibleIs(side, p, q', j);
    QueueAtPut(side, ls, k, q', p);
    if o.remaining == q[j].remaining {
      forall i | 0 <= i < |q| ensures Visible(side, p, q)[i] == Visible(side, p, q')[i] {
        VisibleIs(side, p, q, i);
        VisibleIs(side, p, q', i);
      }
      assert Visible(side, p, q) == Visible(side, p, q');
      MirrorPut(t, t, side, ls, k, q');
    } else if MirrorsBook(Swapped(s, side, k, j, o)) {
      MirrorAt(Swapped(s, side, k, j, o), side, p);
    }
  }

  lemma SamePlace(q: seq<Order>, i: nat, j: nat)
    requires NoDup(q) && i < |q| && j < |q| && q[i].id == q[j].id
    ensures i == j
  {
  }

  // ---------------------------------------------------------------- falling behind

  ghost predicate Behind(t: seq<Entry>, id: nat, n: int) { forall i :: 0 <= i < |t| && t[i].id == id ==> t[i].qty < n }

  /** Order o at price p shows more than the feed knows of it. */
  ghost predicate Lags(s: State, side: Side, p: int, o: Order) {
    o in QueueAt(side, s.Book(side), p) && o.remaining > 0 && Behind(At(Replay(s.feed), side, p), o.id, o.remaining)
  }

  ghost predicate Astray(s: State, id: nat) { exists side, p, o :: Lags(s, side, p, o) && o.id == id }

  lemma AstrayUntold(s: State, id: nat)
    requires Astray(s, id)
    ensures !MirrorsBook(s)
  {
    var side, p, o :| Lags(s, side, p, o) && o.id == id;
    if MirrorsBook(s) {
      MirrorAt(s, side, p);
      VisibleHas(side, p, QueueAt(side, s.Book(side), p), o);
    }
  }

  /** An order that comes to show more goes astray. */
  lemma SwapStrays(s: State, side: Side, k: nat, j: nat, o: Order)
    requires MirrorsBook(s) && Sorted(side, s.Book(side)) && Spot(s.Book(side), k, j) && NoDup(s.Book(side)[k].orders)
    requires o.id == s.Book(side)[k].orders[j].id && o.remaining > s.Book(side)[k].orders[j].remaining >= 0
    ensures Astray(Swapped(s, side, k, j, o), o.id)
  {
    hide Visible, At, Replay, Sorted, PutQueue;
    var ls := s.Book(side);
    var q, p, t := ls[k].orders, ls[k].price, Replay(s.feed);
    MirrorAtLevel(t, side, ls, k);
    QueueAtPut(side, ls, k, q[j := o], p);
    forall x | 0 <= x < |At(t, side, p)| && At(t, side, p)[x].id == o.id ensures At(t, side, p)[x].qty < o.remaining {
      var i := VisibleFrom(side, p, q, x);
      SamePlace(q, i, j);
    }
    assert q[j := o][j] == o;
    assert Lags(Swapped(s, side, k, j, o), side, p, o);
  }

  lemma BehindMore(t: seq<Entry>, id: nat, m: int, n: int)
    requires Behind(t, id, m) && m <= n
    ensures Behind(t, id, n)
  {
  }

  /** And stays astray whatever else comes to show more. */
  lemma SwapStaysAstray(s: State, side: Side, k: nat, j: nat, o: Order, id: nat)
    requires Astray(s, id) && Sorted(side, s.Book(side)) && Spot(s.Book(side), k, j)
    requires o.id == s.Book(side)[k].orders[j].id && o.remaining >= s.Book(side)[k].orders[j].remaining
    ensures Astray(Swapped(s, side, k, j, o), id)
  {
    hide At, Replay, Sorted, PutQueue, QueueAt, Behind;
    var ls := s.Book(side);
    var q, s' := ls[k].orders, Swapped(s, side, k, j, o);
    var sd, p, x :| Lags(s, sd, p, x) && x.id == id;
    QueueAtPut(side, ls, k, q[j := o], p);
    if sd == side && p == ls[k].price {
      QueueAtLevel(side, ls, k);
      var i :| 0 <= i < |q| && q[i] == x;
      assert q[j := o][i] == if i == j then o else x;
      if i == j { BehindMore(At(Replay(s.feed), side, p), id, x.remaining, o.remaining); }
      assert Lags(s', sd, p, if i == j then o else x);
    } else {
      assert Lags(s', sd, p, x);
    }
  }
}
