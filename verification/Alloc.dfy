/**
  Building blocks shared by the matching policies of exchange-core/match_algo.h: a draft
  list of fills, kept beside the quantity each order of the queue has been given so far.
 */
module Alloc {
  import opened Types
  import opened Queues

  /** The level a policy may be run on: no repeated order, all showing, cached total right. */
  ghost predicate Ready(lv: Level) {
    NoDup(lv.orders) && AllPositive(lv.orders) && lv.total == SumRem(lv.orders)
  }

  /** A policy's promise: fills as Allocates says, taken from the orders and the aggressor. */
  ghost predicate Matched(lv: Level, remaining: int, fs: seq<Fill>, q: seq<Order>, left: int) {
    && q == Wound(lv.orders, fs)
    && left == remaining - TotalFills(fs)
    && (if remaining <= 0 then fs == [] else Allocates(lv.orders, lv.price, remaining, fs))
  }

  // ---------------------------------------------------------------- sums

  ghost function SumInt(a: seq<int>): int {
    if a == [] then 0 else a[0] + SumInt(a[1..])
  }

  lemma {:induction false} SumIntUpdate(a: seq<int>, i: nat, x: int)
    requires i < |a|
    ensures SumInt(a[i := x]) == SumInt(a) - a[i] + x
  {
    if i == 0 {
      assert a[0 := x][1..] == a[1..];
    } else {
      assert a[i := x][1..] == a[1..][i-1 := x];
      SumIntUpdate(a[1..], i - 1, x);
    }
  }

  lemma {:induction false} SumIntZero(n: nat)
    ensures SumInt(seq(n, i => 0)) == 0
  {
    if n > 0 {
      assert seq(n, i => 0)[1..] == seq(n - 1, i => 0);
      SumIntZero(n - 1);
    }
  }

  /** Giving every order no more than it shows gives no more than the queue shows, with
      equality only if every order is full. */
  lemma {:induction false} SumWithin(q: seq<Order>, a: seq<int>)
    requires |a| == |q| && forall i :: 0 <= i < |q| ==> a[i] <= q[i].remaining
    ensures SumInt(a) <= SumRem(q)
    ensures SumInt(a) == SumRem(q) <==> forall i :: 0 <= i < |q| ==> a[i] == q[i].remaining
  {
    if q != [] {
      SumWithin(q[1..], a[1..]);
      if SumInt(a) == SumRem(q) {
        forall i | 0 <= i < |q| ensures a[i] == q[i].remaining {
          if i > 0 { assert a[1..][i-1] == q[1..][i-1].remaining; }
        }
      }
      if forall i :: 0 <= i < |q| ==> a[i] == q[i].remaining {
        forall i | 0 <= i < |q[1..]| ensures a[1..][i] == q[1..][i].remaining { assert a[i+1] == q[i+1].remaining; }
      }
    }
  }

  // ---------------------------------------------------------------- drafts

  ghost predicate UniqueEntries(fs: seq<Fill>) {
    forall i, j :: 0 <= i < j < |fs| ==> fs[i].resting != fs[j].resting
  }

  ghost predicate Entries(q: seq<Order>, price: int, fs: seq<Fill>) {
    forall k :: 0 <= k < |fs| ==> fs[k].price == price && fs[k].quantity > 0 && fs[k].resting in Ids(q)
  }

  /** Fills with one entry per order, giving a[i] to the i-th order of the queue. */
  ghost predicate Draft(q: seq<Order>, price: int, fs: seq<Fill>, a: seq<int>) {
    && Entries(q, price, fs) && UniqueEntries(fs)
    && |a| == |q| && (forall i :: 0 <= i < |q| ==> FillsFor(fs, q[i].id) == a[i])
    && TotalFills(fs) == SumInt(a)
  }

  lemma NoDraft(q: seq<Order>, price: int)
    ensures Draft(q, price, [], seq(|q|, i => 0))
  {
    SumIntZero(|q|);
  }

  lemma {:induction false} UniqueQuantity(fs: seq<Fill>, k: nat)
    requires UniqueEntries(fs) && k < |fs|
    ensures FillsFor(fs, fs[k].resting) == fs[k].quantity
  {
    var id := fs[k].resting;
    assert fs == fs[..k] + ([fs[k]] + fs[k+1..]);
    FillsForConcat(fs[..k], [fs[k]] + fs[k+1..], id);
    FillsForConcat([fs[k]], fs[k+1..], id);
    NotGiven(fs[..k], id);
    NotGiven(fs[k+1..], id);
  }

  lemma {:induction false} NotGiven(fs: seq<Fill>, id: nat)
    requires forall i :: 0 <= i < |fs| ==> fs[i].resting != id
    ensures FillsFor(fs, id) == 0
  {
    if fs != [] { NotGiven(fs[1..], id); }
  }

  lemma TotalFillsBump(fs: seq<Fill>, k: nat, n: int)
    requires k < |fs|
    ensures TotalFills(fs[k := fs[k].(quantity := fs[k].quantity + n)]) == TotalFills(fs) + n
  {
    var fs' := fs[k := fs[k].(quantity := fs[k].quantity + n)];
    assert fs == fs[..k] + ([fs[k]] + fs[k+1..]);
    assert fs' == fs[..k] + ([fs'[k]] + fs[k+1..]);
    TotalFillsConcat(fs[..k], [fs[k]] + fs[k+1..]);
    TotalFillsConcat(fs[..k], [fs'[k]] + fs[k+1..]);
  }

  lemma FillsForBump(fs: seq<Fill>, k: nat, n: int, id: nat)
    requires k < |fs|
    ensures FillsFor(fs[k := fs[k].(quantity := fs[k].quantity + n)], id)
         == FillsFor(fs, id) + if fs[k].resting == id then n else 0
  {
    var fs' := fs[k := fs[k].(quantity := fs[k].quantity + n)];
    assert fs == fs[..k] + ([fs[k]] + fs[k+1..]);
    assert fs' == fs[..k] + ([fs'[k]] + fs[k+1..]);
    FillsForConcat(fs[..k], [fs[k]] + fs[k+1..], id);
    FillsForConcat(fs[..k], [fs'[k]] + fs[k+1..], id);
  }

  // ---------------------------------------------------------------- who is named first

  /** The first positive entry, or the length. */
  function FirstPos(b: seq<int>): (i: nat)
    ensures i <= |b| && (forall k :: 0 <= k < i ==> b[k] <= 0) && (i < |b| ==> b[i] > 0)
  {
    if b == [] || b[0] > 0 then 0 else 1 + FirstPos(b[1..])
  }

  /** What each order of a queue shows. */
  function Rems(q: seq<Order>): (r: seq<int>)
    ensures |r| == |q| && forall i :: 0 <= i < |q| ==> r[i] == q[i].remaining
  {
    seq(|q|, i requires 0 <= i < |q| => q[i].remaining)
  }

  /** The identifier of the first order with something in `b`. */
  function FirstId(q: seq<Order>, b: seq<int>): nat { if FirstPos(b) < |q| then q[FirstPos(b)].id else 0 }

  /** A pass that goes on from fs0 leaves its first entry where it is; from nothing, it begins with `id`. */
  ghost predicate Heads(fs0: seq<Fill>, id: nat, fs: seq<Fill>) {
    if fs0 == [] then fs == [] || fs[0].resting == id else fs != [] && fs[0].resting == fs0[0].resting
  }

  /** The first entry is for order i. */
  ghost predicate LedBy(q: seq<Order>, fs: seq<Fill>, i: nat) { i < |q| && fs != [] && fs[0].resting == q[i].id }

  /** The first order with something in `b`; with nothing in `b`, order x. */
  function FirstOf(b: seq<int>, x: nat): nat { if FirstPos(b) < |b| then FirstPos(b) else x }

  lemma HeadsSame(fs: seq<Fill>, id: nat)
    ensures Heads(fs, id, fs)
  {
  }

  lemma HeadsOn(fs0: seq<Fill>, id: nat, fs: seq<Fill>, r: seq<Fill>)
    requires Heads(fs0, id, fs) && r != [] && (if fs == [] then r[0].resting == id else r[0].resting == fs[0].resting)
    ensures Heads(fs0, id, r)
  {
  }

  lemma HeadsTrans(fs0: seq<Fill>, id: nat, fs: seq<Fill>, r: seq<Fill>)
    requires Heads(fs0, id, fs) && Heads(fs, id, r)
    ensures Heads(fs0, id, r)
  {
  }

  /** A pass that begins with order y goes on from nothing, or from a list that begins with order x. */
  lemma HeadsLead(q: seq<Order>, fs0: seq<Fill>, x: nat, y: nat, fs: seq<Fill>)
    requires (fs0 != [] ==> LedBy(q, fs0, x)) && y < |q| && Heads(fs0, q[y].id, fs) && fs != []
    ensures LedBy(q, fs, if fs0 != [] then x else y)
  {
  }

  lemma HeadAll(q: seq<Order>)
    requires q != [] && AllPositive(q)
    ensures FirstId(q, Rems(q)) == q[0].id
  {
  }

  /** Nothing written means nothing given. */
  lemma NoneGiven(q: seq<Order>, price: int, fs: seq<Fill>, a: seq<int>)
    requires Draft(q, price, fs, a)
    ensures fs == [] ==> SumInt(a) == 0 && forall i :: 0 <= i < |q| ==> a[i] == 0
    ensures fs != [] ==> SumInt(a) > 0 && exists i :: 0 <= i < |q| && a[i] > 0
  {
    TotalFillsNonneg(fs);
    if fs != [] {
      assert fs[0].resting in Ids(q);
      var i :| 0 <= i < |q| && Ids(q)[i] == fs[0].resting;
      FillsForNonneg(fs, q[i].id);
      assert a[i] > 0;
    }
  }

  /** The quantity an order has been given: a search of the entries. */
  method Given(fs: seq<Fill>, id: nat) returns (n: int)
    requires UniqueEntries(fs)
    ensures n == FillsFor(fs, id)
  {
    for i := 0 to |fs|
      invariant forall k :: 0 <= k < i ==> fs[k].resting != id
    {
      if fs[i].resting == id {
        UniqueQuantity(fs, i);
        return fs[i].quantity;
      }
    }
    NotGiven(fs, id);
    return 0;
  }

  /** Give n more to the i-th order: bump its entry, or append one. */
  method Credit(q: seq<Order>, price: int, fs: seq<Fill>, i: nat, n: int, ghost a: seq<int>) returns (r: seq<Fill>)
    requires NoDup(q) && Draft(q, price, fs, a) && i < |q| && n > 0
    ensures Draft(q, price, r, a[i := a[i] + n])
    ensures r != [] && r[0].resting == if fs == [] then q[i].id else fs[0].resting
  {
    var id := q[i].id;
    assert Ids(q)[i] == id;
    SumIntUpdate(a, i, a[i] + n);
    for k := 0 to |fs|
      invariant forall m :: 0 <= m < k ==> fs[m].resting != id
    {
      if fs[k].resting == id {
        r := fs[k := fs[k].(quantity := fs[k].quantity + n)];
        TotalFillsBump(fs, k, n);
        forall j | 0 <= j < |q| ensures FillsFor(r, q[j].id) == a[i := a[i] + n][j] {
          FillsForBump(fs, k, n, q[j].id);
        }
        return;
      }
    }
    r := fs + [Fill(id, price, n, 0)];
    TotalFillsConcat(fs, [Fill(id, price, n, 0)]);
    forall j | 0 <= j < |q| ensures FillsFor(r, q[j].id) == a[i := a[i] + n][j] {
      FillsForConcat(fs, [Fill(id, price, n, 0)], q[j].id);
    }
  }

  /** The order an entry points at. */
  method Locate(q: seq<Order>, id: nat) returns (j: nat)
    requires NoDup(q) && id in Ids(q)
    ensures Holds(q, j, id)
  {
    ghost var i :| 0 <= i < |Ids(q)| && Ids(q)[i] == id;
    j := 0;
    while q[j].id != id
      invariant j <= i
      decreases i - j
    {
      j := j + 1;
    }
  }

  /** The last phase of a policy: take the fills from the orders and report what is left. */
  method ApplyFills(q: seq<Order>, fs: seq<Fill>) returns (r: seq<Order>, gs: seq<Fill>)
    requires NoDup(q) && forall k :: 0 <= k < |fs| ==> fs[k].resting in Ids(q)
    ensures r == Wound(q, fs)
    ensures SameFills(fs, gs) && Reports(q, gs)
  {
    r, gs := q, fs;
    assert Wound(q, fs[..0]) == q;
    for i := 0 to |fs|
      invariant |gs| == |fs| && SameFills(fs, gs)
      invariant r == Wound(q, fs[..i])
      invariant forall k :: 0 <= k < i ==> ReportsAt(q, gs, k)
    {
      var j := Locate(q, fs[i].resting);
      assert fs[..i+1] == fs[..i] + [fs[i]];
      forall m | 0 <= m < |q|
        ensures FillsFor(fs[..i+1], q[m].id) == FillsFor(fs[..i], q[m].id) + if m == j then fs[i].quantity else 0
      {
        FillsForConcat(fs[..i], [fs[i]], q[m].id);
      }
      r := r[j := r[j].Filled(fs[i].quantity)];
      assert r == Wound(q, fs[..i+1]);
      ghost var before := gs;
      gs := gs[i := gs[i].(restingRemaining := r[j].remaining)];
      SameFor(fs, gs, i + 1, q[j].id);
      assert ReportsAt(q, gs, i) by { assert Holds(q, j, gs[i].resting); }
      forall k | 0 <= k < i ensures ReportsAt(q, gs, k) {
        assert ReportsAt(q, before, k) && gs[..k+1] == before[..k+1];
      }
    }
    assert fs[..|fs|] == fs;
  }

  /** Two lists of fills that differ at most in the reported remainders. */
  ghost predicate SameFills(fs: seq<Fill>, gs: seq<Fill>) {
    |fs| == |gs| && forall k :: 0 <= k < |fs| ==> gs[k] == fs[k].(restingRemaining := gs[k].restingRemaining)
  }

  lemma {:induction false} SameTotals(fs: seq<Fill>, gs: seq<Fill>, id: nat)
    requires SameFills(fs, gs)
    ensures FillsFor(gs, id) == FillsFor(fs, id) && TotalFills(gs) == TotalFills(fs)
  {
    if fs != [] { SameTotals(fs[1..], gs[1..], id); }
  }

  lemma SameFor(fs: seq<Fill>, gs: seq<Fill>, k: nat, id: nat)
    requires SameFills(fs, gs) && k <= |fs|
    ensures FillsFor(gs[..k], id) == FillsFor(fs[..k], id)
  {
    SameTotals(fs[..k], gs[..k], id);
  }

  /** A finished draft keeps a policy's promise. */
  lemma DraftMatched(lv: Level, remaining: int, fs: seq<Fill>, a: seq<int>, gs: seq<Fill>)
    requires remaining > 0 && Draft(lv.orders, lv.price, fs, a) && SameFills(fs, gs) && Reports(lv.orders, gs)
    requires forall i :: 0 <= i < |a| ==> a[i] <= lv.orders[i].remaining
    requires SumInt(a) == Min(remaining, SumRem(lv.orders))
    ensures Matched(lv, remaining, gs, Wound(lv.orders, fs), remaining - SumInt(a))
    ensures forall i :: 0 <= i < |a| ==> FillsFor(gs, lv.orders[i].id) == a[i]
    ensures UniqueEntries(gs)
  {
    SameTotals(fs, gs, 0);
    forall i | 0 <= i < |a| ensures FillsFor(gs, lv.orders[i].id) == FillsFor(fs, lv.orders[i].id) {
      SameTotals(fs, gs, lv.orders[i].id);
    }
    assert Wound(lv.orders, gs) == Wound(lv.orders, fs);
  }

  /** One entry per order at most, so never more entries than orders. */
  lemma {:induction false} EntriesBound(q: seq<Order>, fs: seq<Fill>)
    requires UniqueEntries(fs) && forall k :: 0 <= k < |fs| ==> fs[k].resting in Ids(q)
    ensures |fs| <= |q|
  {
    DistinctCount(fs);
    var ids := set i | 0 <= i < |q| :: Ids(q)[i];
    assert Named(fs) <= ids;
    SubsetSize(Named(fs), ids);
    IdCount(Ids(q));
  }

  /** The orders that a list of fills names. */
  ghost function Named(fs: seq<Fill>): set<nat> { set k | 0 <= k < |fs| :: fs[k].resting }

  lemma {:induction false} DistinctCount(fs: seq<Fill>)
    requires UniqueEntries(fs)
    ensures |Named(fs)| == |fs|
  {
    if fs != [] {
      var m := |fs| - 1;
      DistinctCount(fs[..m]);
      assert Named(fs) == Named(fs[..m]) + {fs[m].resting};
    }
  }

  lemma {:induction false} IdCount(ids: seq<nat>)
    ensures |set i | 0 <= i < |ids| :: ids[i]| <= |ids|
  {
    if ids != [] {
      var m := |ids| - 1;
      IdCount(ids[..m]);
      assert (set i | 0 <= i < |ids| :: ids[i]) == (set i | 0 <= i < m :: ids[..m][i]) + {ids[m]};
    }
  }

  lemma {:induction false} SubsetSize(a: set<nat>, b: set<nat>)
    requires a <= b
    ensures |a| <= |b|
  {
    assert b == a + (b - a);
  }

  // ---------------------------------------------------------------- taking a whole level

  lemma {:induction false} GiftsOne(q: seq<Order>, j: nat, n: int, a: seq<int>)
    requires NoDup(q) && j < |q| == |a| && forall i :: 0 <= i < |q| ==> a[i] == if q[i].id == q[j].id then n else 0
    ensures SumInt(a) == n
  {
    SumIntZero(|q|);
    var z := seq(|q|, i => 0);
    SumIntUpdate(z, j, n);
    assert z[j := n] == a by {
      forall i | 0 <= i < |q| && i != j ensures a[i] == 0 { assert q[i].id != q[j].id; }
    }
  }

  lemma {:induction false} SumIntAdd(a: seq<int>, b: seq<int>, c: seq<int>)
    requires |a| == |b| == |c| && forall i :: 0 <= i < |a| ==> c[i] == a[i] + b[i]
    ensures SumInt(c) == SumInt(a) + SumInt(b)
  {
    if a != [] { SumIntAdd(a[1..], b[1..], c[1..]); }
  }

  /** What the orders of a queue are given is what the fills hand out. */
  lemma {:induction false} GiftsTotal(q: seq<Order>, fs: seq<Fill>, a: seq<int>)
    requires NoDup(q) && (forall k :: 0 <= k < |fs| ==> fs[k].resting in Ids(q))
    requires |a| == |q| && forall i :: 0 <= i < |q| ==> a[i] == FillsFor(fs, q[i].id)
    ensures SumInt(a) == TotalFills(fs)
  {
    if fs == [] {
      SumIntZero(|q|);
      assert a == seq(|q|, i => 0);
    } else {
      assert fs[0].resting in Ids(q);
      var j :| 0 <= j < |q| && Ids(q)[j] == fs[0].resting;
      var b := seq(|q|, i requires 0 <= i < |q| => FillsFor(fs[1..], q[i].id));
      var c := seq(|q|, i requires 0 <= i < |q| => if q[i].id == q[j].id then fs[0].quantity else 0);
      GiftsTotal(q, fs[1..], b);
      GiftsOne(q, j, fs[0].quantity, c);
      SumIntAdd(c, b, a);
    }
  }

  /** An aggressor as large as the level fills every order. */
  lemma WholeTaken(q: seq<Order>, price: int, n: int, fs: seq<Fill>, i: nat)
    requires NoDup(q) && Allocates(q, price, n, fs) && n >= SumRem(q) && i < |q|
    ensures FillsFor(fs, q[i].id) == q[i].remaining
  {
    NamesInQueue(q, fs);
    var a := seq(|q|, j requires 0 <= j < |q| => FillsFor(fs, q[j].id));
    GiftsTotal(q, fs, a);
    SumWithin(q, a);
  }

  lemma NamesInQueue(q: seq<Order>, fs: seq<Fill>)
    requires Reports(q, fs)
    ensures forall k :: 0 <= k < |fs| ==> fs[k].resting in Ids(q)
  {
    forall k | 0 <= k < |fs| ensures fs[k].resting in Ids(q) {
      assert ReportsAt(q, fs, k);
      var j: nat :| Holds(q, j, fs[k].resting);
      assert Ids(q)[j] == fs[k].resting;
    }
  }

  lemma {:induction false} IdsDistinct(q: seq<Order>)
    requires NoDup(q)
    ensures |set i | 0 <= i < |q| :: q[i].id| == |q|
  {
    if q != [] {
      var m := |q| - 1;
      IdsDistinct(q[..m]);
      assert (set i | 0 <= i < |q| :: q[i].id) == (set i | 0 <= i < m :: q[..m][i].id) + {q[m].id};
    }
  }

  /** Where every order gets something there are as many entries as orders. */
  lemma EntriesCover(q: seq<Order>, fs: seq<Fill>)
    requires NoDup(q) && forall i :: 0 <= i < |q| ==> FillsFor(fs, q[i].id) != 0
    ensures |fs| >= |q|
  {
    var names := seq(|fs|, k requires 0 <= k < |fs| => fs[k].resting);
    var named, ids := set k | 0 <= k < |names| :: names[k], set i | 0 <= i < |q| :: q[i].id;
    IdCount(names);
    IdsDistinct(q);
    forall i | 0 <= i < |q| ensures q[i].id in named {
      if forall k :: 0 <= k < |fs| ==> fs[k].resting != q[i].id { NotGiven(fs, q[i].id); }
      var k :| 0 <= k < |fs| && fs[k].resting == q[i].id;
      assert names[k] == q[i].id;
    }
    SubsetSize(ids, named);
  }

  /** How many orders of a queue are given something. */
  ghost function Served(a: seq<int>): nat { if a == [] then 0 else (if a[0] > 0 then 1 else 0) + Served(a[1..]) }

  lemma {:induction false} ServedNone(a: seq<int>)
    requires forall i :: 0 <= i < |a| ==> a[i] <= 0
    ensures Served(a) == 0
  {
    if a != [] { ServedNone(a[1..]); }
  }

  lemma {:induction false} ServedUpdate(a: seq<int>, j: nat)
    requires j < |a| && a[j] > 0
    ensures Served(a[j := 0]) == Served(a) - 1
  {
    if j > 0 {
      assert a[j := 0][1..] == a[1..][j - 1 := 0];
      ServedUpdate(a[1..], j - 1);
    } else {
      assert a[0 := 0][1..] == a[1..];
    }
  }

  lemma PlaceOf(q: seq<Order>, id: nat) returns (i: nat)
    requires id in Ids(q)
    ensures i < |q| && q[i].id == id
  {
    i :| i < |q| && Ids(q)[i] == id;
  }

  /** With one entry per order there are as many entries as orders served. */
  lemma {:induction false} ServedCount(q: seq<Order>, fs: seq<Fill>, a: seq<int>)
    requires NoDup(q) && UniqueEntries(fs) && |a| == |q| && (forall i :: 0 <= i < |q| ==> a[i] == FillsFor(fs, q[i].id))
    requires forall k :: 0 <= k < |fs| ==> fs[k].quantity > 0 && fs[k].resting in Ids(q)
    ensures |fs| == Served(a)
    decreases |fs|
  {
    if fs == [] {
      ServedNone(a);
    } else {
      var j := PlaceOf(q, fs[0].resting);
      NotGiven(fs[1..], fs[0].resting);
      forall i | 0 <= i < |q| ensures a[j := 0][i] == FillsFor(fs[1..], q[i].id) {
        if i < j { assert q[i].id != q[j].id; } else if i > j { assert q[j].id != q[i].id; }
      }
      ServedCount(q, fs[1..], a[j := 0]);
      ServedUpdate(a, j);
    }
  }
}
