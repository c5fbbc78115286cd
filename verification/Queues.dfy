/**
  Queues of orders at one price: total visible quantity, identifiers, and the
  effect of a list of fills on a queue.
 */
module Queues {
  import opened Types

  /** Total visible quantity of a queue. */
  function SumRem(q: seq<Order>): int {
    if q == [] then 0 else q[0].remaining + SumRem(q[1..])
  }

  function Ids(q: seq<Order>): seq<nat> { seq(|q|, i requires 0 <= i < |q| => q[i].id) }

  ghost predicate NoDup(q: seq<Order>) {
    forall i, j :: 0 <= i < j < |q| ==> q[i].id != q[j].id
  }

  ghost predicate AllPositive(q: seq<Order>) { forall i :: 0 <= i < |q| ==> q[i].remaining > 0 }

  /** The queue with the order at position j taken out. */
  function Without(q: seq<Order>, j: nat): seq<Order>
    requires j < |q|
  { q[..j] + q[j+1..] }

  lemma {:induction false} SumRemConcat(a: seq<Order>, b: seq<Order>)
    ensures SumRem(a + b) == SumRem(a) + SumRem(b)
  {
    if a == [] {
      assert a + b == b;
    } else {
      assert (a + b)[1..] == a[1..] + b;
      SumRemConcat(a[1..], b);
    }
  }

  lemma SumRemSnoc(q: seq<Order>, o: Order)
    ensures SumRem(q + [o]) == SumRem(q) + o.remaining
  {
    SumRemConcat(q, [o]);
  }

  lemma SumRemSplit(q: seq<Order>, j: nat)
    requires j < |q|
    ensures SumRem(q) == SumRem(q[..j]) + q[j].remaining + SumRem(q[j+1..])
  {
    assert q == q[..j] + q[j..];
    SumRemConcat(q[..j], q[j..]);
    assert q[j..][1..] == q[j+1..];
  }

  lemma SumRemUpdate(q: seq<Order>, j: nat, o: Order)
    requires j < |q|
    ensures SumRem(q[j := o]) == SumRem(q) - q[j].remaining + o.remaining
  {
    SumRemSplit(q, j);
    SumRemSplit(q[j := o], j);
    assert q[j := o][..j] == q[..j];
    assert q[j := o][j+1..] == q[j+1..];
  }

  lemma SumRemWithout(q: seq<Order>, j: nat)
    requires j < |q|
    ensures SumRem(Without(q, j)) == SumRem(q) - q[j].remaining
  {
    SumRemSplit(q, j);
    SumRemConcat(q[..j], q[j+1..]);
  }

  lemma {:induction false} SumRemNonneg(q: seq<Order>)
    requires forall i :: 0 <= i < |q| ==> q[i].remaining >= 0
    ensures SumRem(q) >= 0
  {
    if q != [] { SumRemNonneg(q[1..]); }
  }

  /** A queue of non-negative orders holds at least what any one of them holds. */
  lemma SumRemAtLeast(q: seq<Order>, j: nat)
    requires j < |q|
    requires forall i :: 0 <= i < |q| ==> q[i].remaining >= 0
    ensures SumRem(q) >= q[j].remaining >= 0
  {
    SumRemSplit(q, j);
    SumRemNonneg(q[..j]);
    SumRemNonneg(q[j+1..]);
  }

  /** Identifiers of a queue, with multiplicity. */
  function IdBag(q: seq<Order>): multiset<nat> { multiset(Ids(q)) }

  lemma IdBagSnoc(q: seq<Order>, o: Order)
    ensures IdBag(q + [o]) == IdBag(q) + multiset{o.id}
  {
    assert Ids(q + [o]) == Ids(q) + [o.id];
  }

  lemma IdBagWithout(q: seq<Order>, j: nat)
    requires j < |q|
    ensures IdBag(q) == IdBag(Without(q, j)) + multiset{q[j].id}
  {
    assert Ids(Without(q, j)) == Ids(q)[..j] + Ids(q)[j+1..];
    assert Ids(q) == Ids(q)[..j] + [q[j].id] + Ids(q)[j+1..];
  }

  lemma IdBagUpdate(q: seq<Order>, j: nat, o: Order)
    requires j < |q| && o.id == q[j].id
    ensures Ids(q[j := o]) == Ids(q)
  {
  }

  /** An order's identifier occurs in the bag, and at most once where the bag has no repeats. */
  lemma IdBagMember(q: seq<Order>, j: nat)
    requires j < |q|
    ensures IdBag(q)[q[j].id] >= 1
  {
    assert q[j].id == Ids(q)[j];
    assert q[j].id in Ids(q);
  }

  lemma IdBagUnique(q: seq<Order>)
    requires forall id :: IdBag(q)[id] <= 1
    ensures NoDup(q)
  {
    forall i, j | 0 <= i < j < |q| ensures q[i].id != q[j].id {
      IdBagWithout(q, j);
      IdBagMember(Without(q, j), i);
      assert IdBag(q)[q[j].id] == IdBag(Without(q, j))[q[j].id] + 1;
    }
  }

  /** Quantity a list of fills gives to one order. */
  function FillsFor(fs: seq<Fill>, id: nat): int {
    if fs == [] then 0
    else (if fs[0].resting == id then fs[0].quantity else 0) + FillsFor(fs[1..], id)
  }

  function TotalFills(fs: seq<Fill>): int {
    if fs == [] then 0 else fs[0].quantity + TotalFills(fs[1..])
  }

  lemma {:induction false} FillsForConcat(a: seq<Fill>, b: seq<Fill>, id: nat)
    ensures FillsFor(a + b, id) == FillsFor(a, id) + FillsFor(b, id)
  {
    if a == [] {
      assert a + b == b;
    } else {
      assert (a + b)[1..] == a[1..] + b;
      FillsForConcat(a[1..], b, id);
    }
  }

  lemma {:induction false} TotalFillsConcat(a: seq<Fill>, b: seq<Fill>)
    ensures TotalFills(a + b) == TotalFills(a) + TotalFills(b)
  {
    if a == [] {
      assert a + b == b;
    } else {
      assert (a + b)[1..] == a[1..] + b;
      TotalFillsConcat(a[1..], b);
    }
  }

  lemma {:induction false} FillsForNonneg(fs: seq<Fill>, id: nat)
    requires forall i :: 0 <= i < |fs| ==> fs[i].quantity > 0
    ensures FillsFor(fs, id) >= 0
    ensures FillsFor(fs, id) == 0 <==> forall i :: 0 <= i < |fs| ==> fs[i].resting != id
  {
    if fs != [] {
      FillsForNonneg(fs[1..], id);
      if FillsFor(fs, id) == 0 {
        forall i | 0 <= i < |fs| ensures fs[i].resting != id {
          if i > 0 { assert fs[i] == fs[1..][i-1]; }
        }
      }
      if forall i :: 0 <= i < |fs| ==> fs[i].resting != id {
        forall i | 0 <= i < |fs[1..]| ensures fs[1..][i].resting != id { assert fs[1..][i] == fs[i+1]; }
      }
    }
  }

  lemma {:induction false} TotalFillsNonneg(fs: seq<Fill>)
    requires forall i :: 0 <= i < |fs| ==> fs[i].quantity > 0
    ensures TotalFills(fs) >= 0
    ensures fs != [] ==> TotalFills(fs) > 0
  {
    if fs != [] { TotalFillsNonneg(fs[1..]); }
  }

  /** The queue after every fill in `fs` has been taken from its order. */
  function Wound(q: seq<Order>, fs: seq<Fill>): (r: seq<Order>)
    ensures |r| == |q|
    ensures forall i :: 0 <= i < |q| ==> r[i] == q[i].Filled(FillsFor(fs, q[i].id))
  {
    seq(|q|, i requires 0 <= i < |q| => q[i].Filled(FillsFor(fs, q[i].id)))
  }

  /** Position of an order in a queue. */
  ghost predicate Holds(q: seq<Order>, j: nat, id: nat) { j < |q| && q[j].id == id }

  /**
    What every matching policy promises of the fills it writes for an aggressor of size
    `qty` against the queue `q`: entries name orders of the queue, carry the level's price
    and a positive quantity; no order is overfilled; together they take exactly
    min(qty, visible total); and each entry reports what its order has left once the
    entries up to it are taken.
   */
  ghost predicate Allocates(q: seq<Order>, price: int, qty: int, fs: seq<Fill>) {
    && (forall k :: 0 <= k < |fs| ==> fs[k].price == price && fs[k].quantity > 0)
    && Reports(q, fs)
    && (forall i :: 0 <= i < |q| ==> FillsFor(fs, q[i].id) <= q[i].remaining)
    && TotalFills(fs) == Min(qty, SumRem(q))
  }

  /** Every entry names an order of `q` and reports its remainder at that point. */
  ghost predicate Reports(q: seq<Order>, fs: seq<Fill>) {
    forall k :: 0 <= k < |fs| ==> ReportsAt(q, fs, k)
  }

  ghost predicate ReportsAt(q: seq<Order>, fs: seq<Fill>, k: nat)
    requires k < |fs|
  {
    exists j: nat :: Holds(q, j, fs[k].resting) &&
      fs[k].restingRemaining == q[j].remaining - FillsFor(fs[..k+1], q[j].id)
  }
}
