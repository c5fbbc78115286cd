/**
  Proportional matching policies of exchange-core/match_algo.h: ProRataMatch,
  ThresholdProRataMatch and AllocationMatch.  All three give each order the floor of its
  exact share and differ in who gets what the floors leave over.
 */
module ProRata {
  import opened Types
  import opened Queues
  import opened Alloc

  // ---------------------------------------------------------------- shares

  ghost predicate AllNonneg(q: seq<Order>) { forall i :: 0 <= i < |q| ==> q[i].remaining >= 0 }

  /** The floor of an order's proportional share of t lots out of a level showing `total`. */
  function Share(o: Order, t: int, total: int): int
    requires total > 0
  {
    o.remaining * t / total
  }

  ghost function SumShares(q: seq<Order>, t: int, total: int): int
    requires total > 0
  {
    if q == [] then 0 else Share(q[0], t, total) + SumShares(q[1..], t, total)
  }

  lemma DivBounds(x: int, d: int)
    requires d > 0
    ensures d * (x / d) <= x < d * (x / d) + d
  {
  }

  lemma DivBelow(x: int, d: int, r: int)
    requires d > 0 && x < d * r
    ensures x / d < r
  {
    DivBounds(x, d);
    MulCancel(d, x / d, r);
  }

  lemma DivAbove(x: int, d: int, r: int)
    requires d > 0 && d * r <= x
    ensures r <= x / d
  {
    DivBounds(x, d);
    MulAdd(d, x / d, 1);
    MulCancel(d, r, x / d + 1);
  }

  lemma ShareBounds(r: int, t: int, total: int)
    requires 0 <= r && 0 <= t <= total && 0 < total
    ensures 0 <= r * t / total <= r
    ensures 0 < r && t < total ==> r * t / total < r
    ensures t == total ==> r * t / total == r
    ensures total * (r * t / total) <= r * t < total * (r * t / total) + total
  {
    var x := r * t;
    DivBounds(x, total);
    MulMono(r, 0, t);
    MulMono(r, t, total);
    DivAbove(x, total, 0);
    MulAdd(total, r, 1);
    DivBelow(x, total, r + 1);
    if 0 < r && t < total {
      MulStrict(r, t, total);
      DivBelow(x, total, r);
    }
    if t == total { DivAbove(x, total, r); }
  }

  lemma MulMono(c: int, x: int, y: int)
    requires c >= 0 && x <= y
    ensures c * x <= c * y
  {
    assert c * (y - x) >= 0;
  }

  lemma MulStrict(c: int, x: int, y: int)
    requires c > 0 && x < y
    ensures c * x < c * y
  {
    assert c * (y - x) > 0;
  }

  lemma MulAdd(c: int, x: int, y: int)
    ensures c * (x + y) == c * x + c * y && (x + y) * c == x * c + y * c
  {
  }

  lemma MulCancel(c: int, x: int, y: int)
    requires c > 0 && c * x < c * y
    ensures x < y
  {
    if x >= y { MulMono(c, y, x); }
  }

  lemma {:induction false} SharesBound(q: seq<Order>, t: int, total: int)
    requires AllNonneg(q) && 0 <= t <= total && 0 < total
    ensures total * SumShares(q, t, total) <= SumRem(q) * t
    ensures q != [] ==> SumRem(q) * t < total * SumShares(q, t, total) + total * |q|
  {
    if q != [] {
      var r, rest := q[0].remaining, q[1..];
      SharesBound(rest, t, total);
      ShareBounds(r, t, total);
      MulAdd(t, r, SumRem(rest));
      MulAdd(total, Share(q[0], t, total), SumShares(rest, t, total));
      MulAdd(total, 1, |rest|);
      if rest == [] { assert SumRem(rest) * t == 0; }
    }
  }

  /** The floors never give out more than there is. */
  lemma SharesWithin(q: seq<Order>, t: int)
    requires AllNonneg(q) && 0 <= t <= SumRem(q) && 0 < SumRem(q)
    ensures SumShares(q, t, SumRem(q)) <= t
  {
    var total, s := SumRem(q), SumShares(q, t, SumRem(q));
    SharesBound(q, t, total);
    if s > t { MulStrict(total, t, s); assert false; }
  }

  /** What the floors leave over is less than the number of orders. */
  lemma ResidueSmall(q: seq<Order>, t: int)
    requires q != [] && AllPositive(q) && 0 <= t <= SumRem(q) && 0 < SumRem(q)
    ensures 0 <= t - SumShares(q, t, SumRem(q)) < |q|
  {
    var total, s := SumRem(q), SumShares(q, t, SumRem(q));
    SharesBound(q, t, total);
    SharesWithin(q, t);
    assert total * s + total * |q| == total * (s + |q|);
    MulCancel(total, t, s + |q|);
  }

  lemma ShowsSomething(q: seq<Order>)
    requires q != [] && AllPositive(q)
    ensures SumRem(q) > 0
  {
    SumRemAtLeast(q, 0);
  }

  // ---------------------------------------------------------------- the shared first phase

  ghost predicate AtLeast(x: int, threshold: int) { x >= threshold && x > 0 }

  /** Base shares below the threshold count as nothing. */
  ghost function Base(o: Order, t: int, total: int, threshold: int): int
    requires total > 0
  {
    if AtLeast(Share(o, t, total), threshold) then Share(o, t, total) else 0
  }

  ghost function Bases(q: seq<Order>, t: int, total: int, threshold: int): seq<int>
    requires total > 0
  {
    seq(|q|, i requires 0 <= i < |q| => Base(q[i], t, total, threshold))
  }

  lemma {:induction false} SumBases(q: seq<Order>, t: int, total: int, threshold: int)
    requires total > 0 && AllNonneg(q) && 0 <= t <= total
    ensures SumInt(Bases(q, t, total, threshold)) <= SumShares(q, t, total)
    ensures threshold <= 0 ==> SumInt(Bases(q, t, total, threshold)) == SumShares(q, t, total)
  {
    if q != [] {
      var b := Bases(q, t, total, threshold);
      SumBases(q[1..], t, total, threshold);
      assert b[1..] == Bases(q[1..], t, total, threshold);
      ShareBounds(q[0].remaining, t, total);
    }
  }

  /** Phase 1: an entry for every order whose share meets the threshold. */
  method BasePass(lv: Level, t: int, threshold: int) returns (fs: seq<Fill>, given: int)
    requires NoDup(lv.orders) && AllNonneg(lv.orders) && lv.total == SumRem(lv.orders) && 0 < t <= lv.total
    ensures Draft(lv.orders, lv.price, fs, Bases(lv.orders, t, lv.total, threshold))
    ensures given == SumInt(Bases(lv.orders, t, lv.total, threshold)) <= t
    ensures Heads([], FirstId(lv.orders, Bases(lv.orders, t, lv.total, threshold)), fs)
  {
    var q := lv.orders;
    ghost var b := Bases(q, t, lv.total, threshold);
    ghost var a: seq<int> := seq(|q|, i => 0);
    NoDraft(q, lv.price);
    fs, given := [], 0;
    for i := 0 to |q|
      invariant Draft(q, lv.price, fs, a) && given == SumInt(a)
      invariant forall k :: 0 <= k < |q| ==> a[k] == if k < i then b[k] else 0
      invariant Heads([], FirstId(q, b), fs)
    {
      var alloc := q[i].remaining * t / lv.total;
      if alloc >= threshold && alloc > 0 {
        BaseHead(q, lv.price, fs, a, b, i);
        SumIntUpdate(a, i, alloc);
        fs := Credit(q, lv.price, fs, i, alloc, a);
        a := a[i := a[i] + alloc];
        given := given + alloc;
      }
    }
    assert a == b;
    SumBases(q, t, lv.total, threshold);
    SharesWithin(q, t);
  }

  lemma BaseHead(q: seq<Order>, price: int, fs: seq<Fill>, a: seq<int>, b: seq<int>, i: nat)
    requires Draft(q, price, fs, a) && i < |q| == |b| && b[i] > 0 && forall k :: 0 <= k < i ==> a[k] == b[k]
    ensures fs == [] ==> FirstId(q, b) == q[i].id
  {
    NoneGiven(q, price, fs, a);
  }

  /** Two passes: the first entry is the first pass's first, or else the second's. */
  lemma SharesLead(q: seq<Order>, price: int, fs: seq<Fill>, b: seq<int>, x: nat, r: seq<Fill>, a: seq<int>, gs: seq<Fill>)
    requires Draft(q, price, fs, b) && Heads([], FirstId(q, b), fs)
    requires x < |q| && Heads(fs, q[x].id, r) && Draft(q, price, r, a) && SumInt(a) > 0 && SameFills(r, gs)
    ensures LedBy(q, gs, FirstOf(b, x))
  {
    NoneGiven(q, price, fs, b);
    NoneGiven(q, price, r, a);
  }

  // ---------------------------------------------------------------- ProRataMatch

  /** `a` is `b` and one lot more for each of the first n. */
  ghost predicate OneMore(b: seq<int>, n: int, a: seq<int>) {
    |a| == |b| && forall k :: 0 <= k < |b| ==> a[k] == b[k] + if k < n then 1 else 0
  }

  lemma OneMoreNext(b: seq<int>, i: nat, a: seq<int>)
    requires OneMore(b, i, a) && i < |b|
    ensures OneMore(b, i + 1, a[i := a[i] + 1]) && SumInt(a[i := a[i] + 1]) == SumInt(a) + 1
  {
    SumIntUpdate(a, i, a[i] + 1);
  }

  /** The lots the floors leave over: one each, head to tail. */
  method ResiduePass(q: seq<Order>, price: int, fs: seq<Fill>, residue: int, ghost b: seq<int>) returns (r: seq<Fill>, ghost a: seq<int>)
    requires NoDup(q) && q != [] && Draft(q, price, fs, b) && 0 <= residue <= |q|
    ensures Draft(q, price, r, a) && OneMore(b, residue, a) && SumInt(a) == SumInt(b) + residue && Heads(fs, q[0].id, r)
  {
    hide Draft, Heads;
    r, a := fs, b;
    HeadsSame(fs, q[0].id);
    var remainder, i := residue, 0;
    DraftAt(q, price, fs, b, 0);
    while remainder > 0 && i < |q|
      invariant 0 <= i <= |q| && remainder == residue - i && |a| == |q| == |b|
      invariant Draft(q, price, r, a) && OneMore(b, i, a) && SumInt(a) == SumInt(b) + i && Heads(fs, q[0].id, r)
      invariant i > 0 ==> r != []
    {
      OneMoreNext(b, i, a);
      ghost var r0 := r;
      r := Credit(q, price, r, i, 1, a);
      HeadsOn(fs, q[0].id, r0, r);
      a := a[i := a[i] + 1];
      remainder := remainder - 1;
      i := i + 1;
    }
  }

  /**
    Each order gets the floor of its exact share, and the lots the floors leave over go one
    each to the first orders in time priority.
   */
  method ProRataMatch(lv: Level, remaining: int) returns (fs: seq<Fill>, q: seq<Order>, left: int)
    requires Ready(lv)
    ensures Matched(lv, remaining, fs, q, left) && UniqueEntries(fs)
    ensures remaining > 0 && lv.orders != [] ==> lv.total > 0
    ensures remaining > 0 && lv.orders != [] ==>
      var t := Min(remaining, lv.total);
      var residue := t - SumShares(lv.orders, t, lv.total);
      0 <= residue < |lv.orders| &&
      forall i :: 0 <= i < |lv.orders| ==>
        FillsFor(fs, lv.orders[i].id) == Share(lv.orders[i], t, lv.total) + if i < residue then 1 else 0
    ensures remaining > 0 && lv.orders != [] ==>
      LedBy(lv.orders, fs, FirstOf(Bases(lv.orders, Min(remaining, lv.total), lv.total, 0), 0))
  {
    hide Draft, Heads;
    fs, q, left := [], lv.orders, remaining;
    assert Wound(q, []) == q;
    if remaining <= 0 || lv.orders == [] { return; }
    ShowsSomething(lv.orders);
    var toFill := Min(remaining, lv.total);
    var given;
    fs, given := BasePass(lv, toFill, 0);
    ghost var b := Bases(q, toFill, lv.total, 0);
    SumBases(q, toFill, lv.total, 0);
    ResidueSmall(q, toFill);
    forall k | 0 <= k < |q|
      ensures b[k] == Share(q[k], toFill, lv.total)
      ensures toFill < lv.total ==> b[k] < q[k].remaining
      ensures b[k] <= q[k].remaining
      ensures toFill == lv.total ==> b[k] == q[k].remaining
    {
      ShareBounds(q[k].remaining, toFill, lv.total);
    }
    SumWithin(q, b);
    ghost var fs0 := fs;
    ghost var a;
    fs, a := ResiduePass(q, lv.price, fs, toFill - given, b);
    DraftNames(q, lv.price, fs, a);
    var gs;
    q, gs := ApplyFills(q, fs);
    SharesLead(lv.orders, lv.price, fs0, b, 0, fs, a, gs);
    DraftMatched(lv, remaining, fs, a, gs);
    fs, left := gs, remaining - toFill;
  }

  // ---------------------------------------------------------------- topping up

  /** `a` was topped up from `b` in time priority: nobody gains before all earlier are full. */
  ghost predicate ToppedUp(q: seq<Order>, b: seq<int>, a: seq<int>) {
    && |a| == |b| == |q|
    && (forall i :: 0 <= i < |q| ==> b[i] <= a[i] <= q[i].remaining)
    && (forall i, j :: 0 <= i < j < |q| && a[j] > b[j] ==> a[i] == q[i].remaining)
  }

  /** Hand out `extra` lots head to tail, each order up to what it shows. */
  method TopUp(q: seq<Order>, price: int, fs: seq<Fill>, extra: int, ghost b: seq<int>)
    returns (r: seq<Fill>, ghost a: seq<int>)
    requires NoDup(q) && Draft(q, price, fs, b) && forall i :: 0 <= i < |q| ==> b[i] <= q[i].remaining
    requires 0 <= extra && SumInt(b) + extra <= SumRem(q)
    ensures Draft(q, price, r, a) && ToppedUp(q, b, a)
    ensures SumInt(a) == SumInt(b) + extra && Heads(fs, FirstId(q, Rems(q)), r)
  {
    hide Heads, Topping, ToppedUp, FirstId, Draft;
    r, a := fs, b;
    HeadsSame(fs, FirstId(q, Rems(q)));
    ToppingStarts(q, price, fs, b);
    var left, i := extra, 0;
    while left > 0 && i < |q|
      invariant 0 <= i <= |q| && 0 <= left
      invariant Draft(q, price, r, a) && Topping(q, b, a, i, left) && SumInt(a) == SumInt(b) + extra - left
      invariant Heads(fs, FirstId(q, Rems(q)), r)
    {
      DraftAt(q, price, r, a, i);
      var already := Given(r, q[i].id);
      var add := Min(left, q[i].remaining - already);
      ToppingOn(q, b, a, i, left, add);
      if add > 0 {
        TopHead(q, price, r, a, b, i, left);
        ghost var r0 := r;
        r := Credit(q, price, r, i, add, a);
        HeadsOn(fs, FirstId(q, Rems(q)), r0, r);
        a := a[i := a[i] + add];
        left := left - add;
      }
      i := i + 1;
    }
    ToppingEnds(q, b, a, i, left);
  }

  lemma DraftAt(q: seq<Order>, price: int, fs: seq<Fill>, a: seq<int>, i: nat)
    requires Draft(q, price, fs, a) && i < |q|
    ensures |a| == |q| && UniqueEntries(fs) && FillsFor(fs, q[i].id) == a[i]
  {
  }

  lemma DraftNames(q: seq<Order>, price: int, fs: seq<Fill>, a: seq<int>)
    requires Draft(q, price, fs, a)
    ensures |a| == |q| && forall k :: 0 <= k < |fs| ==> fs[k].resting in Ids(q)
  {
  }

  /** Head to tail, the first i orders have been visited and `left` is still to be handed out. */
  ghost predicate Topping(q: seq<Order>, b: seq<int>, a: seq<int>, i: nat, left: int) {
    && ToppedUp(q, b, a) && i <= |q|
    && (forall k :: i <= k < |q| ==> a[k] == b[k])
    && (left > 0 ==> forall k :: 0 <= k < i ==> a[k] == q[k].remaining)
  }

  lemma ToppingStarts(q: seq<Order>, price: int, fs: seq<Fill>, b: seq<int>)
    requires Draft(q, price, fs, b) && forall i :: 0 <= i < |q| ==> b[i] <= q[i].remaining
    ensures |b| == |q| && forall left: int :: Topping(q, b, b, 0, left)
  {
  }

  lemma ToppingOn(q: seq<Order>, b: seq<int>, a: seq<int>, i: nat, left: int, add: int)
    requires Topping(q, b, a, i, left) && i < |q| && left > 0 && |a| == |q| && add == Min(left, q[i].remaining - a[i])
    ensures add >= 0 && SumInt(a[i := a[i] + add]) == SumInt(a) + add && Topping(q, b, a[i := a[i] + add], i + 1, left - add)
    ensures add == 0 ==> a[i := a[i] + add] == a
  {
    SumIntUpdate(a, i, a[i] + add);
  }

  lemma ToppingEnds(q: seq<Order>, b: seq<int>, a: seq<int>, i: nat, left: int)
    requires Topping(q, b, a, i, left) && (left <= 0 || i == |q|) && 0 <= left && SumInt(a) + left <= SumRem(q)
    ensures left == 0 && ToppedUp(q, b, a)
  {
    SumWithin(q, a);
  }

  lemma TopHead(q: seq<Order>, price: int, fs: seq<Fill>, a: seq<int>, b: seq<int>, i: nat, left: int)
    requires Draft(q, price, fs, a) && Topping(q, b, a, i, left) && left > 0 && i < |q| && q[i].remaining > a[i]
    ensures fs == [] ==> FirstId(q, Rems(q)) == q[i].id
  {
    NoneGiven(q, price, fs, a);
  }

  // ---------------------------------------------------------------- ThresholdProRataMatch

  /**
    Orders whose floor share is below the threshold get nothing proportionally; what that
    and rounding leave over is handed out in time priority.
   */
  method ThresholdMatch(lv: Level, remaining: int, threshold: int) returns (fs: seq<Fill>, q: seq<Order>, left: int)
    requires Ready(lv)
    ensures Matched(lv, remaining, fs, q, left) && UniqueEntries(fs)
    ensures remaining > 0 && lv.orders != [] ==> lv.total > 0
    ensures remaining > 0 && lv.orders != [] ==>
      ToppedUp(lv.orders, Bases(lv.orders, Min(remaining, lv.total), lv.total, threshold), Gifts(lv.orders, fs))
    ensures remaining > 0 && lv.orders != [] ==>
      LedBy(lv.orders, fs, FirstOf(Bases(lv.orders, Min(remaining, lv.total), lv.total, threshold), 0))
  {
    hide Heads;
    fs, q, left := [], lv.orders, remaining;
    assert Wound(q, []) == q;
    if remaining <= 0 || lv.orders == [] { return; }
    ShowsSomething(lv.orders);
    var toFill := Min(remaining, lv.total);
    var given;
    fs, given := BasePass(lv, toFill, threshold);
    ghost var b := Bases(q, toFill, lv.total, threshold);
    forall k | 0 <= k < |q| ensures b[k] <= q[k].remaining {
      ShareBounds(q[k].remaining, toFill, lv.total);
    }
    ghost var fs0 := fs;
    ghost var a;
    HeadAll(q);
    fs, a := TopUp(q, lv.price, fs, toFill - given, b);
    var gs;
    q, gs := ApplyFills(q, fs);
    SharesLead(lv.orders, lv.price, fs0, b, 0, fs, a, gs);
    DraftMatched(lv, remaining, fs, a, gs);
    fs, left := gs, remaining - toFill;
    assert Gifts(lv.orders, fs) == a;
  }

  /** What a list of fills gives each order of a queue. */
  ghost function Gifts(q: seq<Order>, fs: seq<Fill>): seq<int> {
    seq(|q|, i requires 0 <= i < |q| => FillsFor(fs, q[i].id))
  }

  // ---------------------------------------------------------------- AllocationMatch

  /** Order j comes before order i for left-over lots: it is larger, or as large and earlier. */
  ghost predicate Outranks(q: seq<Order>, j: nat, i: nat)
    requires j < |q| && i < |q|
  {
    q[j].remaining > q[i].remaining || (q[j].remaining == q[i].remaining && j < i)
  }

  /** `a` was topped up from `b` in size priority. */
  ghost predicate LargestFirst(q: seq<Order>, b: seq<int>, a: seq<int>) {
    && |a| == |b| == |q|
    && (forall i :: 0 <= i < |q| ==> b[i] <= a[i] <= q[i].remaining)
    && (forall i, j :: 0 <= i < |q| && 0 <= j < |q| && Outranks(q, j, i) && a[i] > b[i] ==> a[j] == q[j].remaining)
  }

  /** The largest order that can still take a lot; the earliest of equals. */
  method LargestOpen(q: seq<Order>, fs: seq<Fill>, price: int, ghost a: seq<int>) returns (best: int)
    requires Draft(q, price, fs, a) && AllPositive(q)
    ensures -1 <= best < |q|
    ensures best < 0 ==> forall i :: 0 <= i < |q| ==> a[i] >= q[i].remaining
    ensures best >= 0 ==> a[best] < q[best].remaining
    ensures best >= 0 ==>
      forall j :: 0 <= j < |q| && Outranks(q, j, best) ==> a[j] >= q[j].remaining
  {
    best := -1;
    var bestQty := -1;
    for i := 0 to |q|
      invariant -1 <= best < i
      invariant best < 0 ==> bestQty == -1 && forall j :: 0 <= j < i ==> a[j] >= q[j].remaining
      invariant best >= 0 ==> bestQty == q[best].remaining && a[best] < q[best].remaining
      invariant best >= 0 ==>
        forall j :: 0 <= j < i && Outranks(q, j, best) ==> a[j] >= q[j].remaining
      invariant best >= 0 ==> forall j :: 0 <= j < i && a[j] < q[j].remaining ==> q[j].remaining <= bestQty
    {
      var already := Given(fs, q[i].id);
      var capacity := q[i].remaining - already;
      if capacity > 0 && q[i].remaining > bestQty {
        best, bestQty := i, q[i].remaining;
      }
    }
  }

  /** The order that comes before every other one for left-over lots. */
  function Largest(q: seq<Order>): (i: nat)
    requires q != []
    ensures i < |q| && forall j :: 0 <= j < |q| && j != i ==> Outranks(q, i, j)
  {
    LargestOf(q, |q|)
  }

  function LargestOf(q: seq<Order>, n: nat): (i: nat)
    requires 0 < n <= |q|
    ensures i < n && forall j :: 0 <= j < n && j != i ==>
      q[j].remaining <= q[i].remaining && (j < i ==> q[j].remaining < q[i].remaining)
  {
    if n == 1 then 0 else
      var m := LargestOf(q, n - 1);
      if q[n - 1].remaining > q[m].remaining then n - 1 else m
  }

  lemma SizeHead(q: seq<Order>, price: int, fs: seq<Fill>, a: seq<int>, best: nat)
    requires Draft(q, price, fs, a) && AllPositive(q) && best < |q|
    requires forall j :: 0 <= j < |q| && Outranks(q, j, best) ==> a[j] >= q[j].remaining
    ensures fs == [] ==> best == Largest(q)
  {
    NoneGiven(q, price, fs, a);
  }

  lemma LargestStep(q: seq<Order>, b: seq<int>, a: seq<int>, best: nat)
    requires LargestFirst(q, b, a) && best < |q| && a[best] < q[best].remaining
    requires forall j :: 0 <= j < |q| && Outranks(q, j, best) ==> a[j] >= q[j].remaining
    ensures LargestFirst(q, b, a[best := a[best] + 1])
  {
  }

  /** Hand out `extra` lots one by one to the largest order that can take it. */
  method SizePass(q: seq<Order>, price: int, fs: seq<Fill>, extra: int, ghost b: seq<int>)
    returns (r: seq<Fill>, ghost a: seq<int>)
    requires NoDup(q) && AllPositive(q) && Draft(q, price, fs, b)
    requires forall i :: 0 <= i < |q| ==> b[i] <= q[i].remaining
    requires 0 <= extra && SumInt(b) + extra <= SumRem(q)
    ensures Draft(q, price, r, a) && LargestFirst(q, b, a)
    ensures SumInt(a) == SumInt(b) + extra && (q != [] ==> Heads(fs, q[Largest(q)].id, r))
  {
    hide Heads;
    r, a := fs, b;
    if q != [] { HeadsSame(fs, q[Largest(q)].id); }
    var remainder := extra;
    while remainder > 0
      invariant 0 <= remainder && SumInt(a) == SumInt(b) + extra - remainder
      invariant Draft(q, price, r, a) && LargestFirst(q, b, a) && (q != [] ==> Heads(fs, q[Largest(q)].id, r))
    {
      var best := LargestOpen(q, r, price, a);
      SumWithin(q, a);
      if best < 0 {
        assert false;
        break;
      }
      SumIntUpdate(a, best, a[best] + 1);
      LargestStep(q, b, a, best);
      SizeHead(q, price, r, a, best);
      ghost var r0 := r;
      r := Credit(q, price, r, best, 1, a);
      HeadsOn(fs, q[Largest(q)].id, r0, r);
      a := a[best := a[best] + 1];
      remainder := remainder - 1;
    }
  }

  /**
    Each order gets the floor of its exact share; each left-over lot goes to the largest
    order that can still take one.
   */
  method AllocationMatch(lv: Level, remaining: int) returns (fs: seq<Fill>, q: seq<Order>, left: int)
    requires Ready(lv)
    ensures Matched(lv, remaining, fs, q, left) && UniqueEntries(fs)
    ensures remaining > 0 && lv.orders != [] ==> lv.total > 0
    ensures remaining > 0 && lv.orders != [] ==>
      LargestFirst(lv.orders, Bases(lv.orders, Min(remaining, lv.total), lv.total, 0), Gifts(lv.orders, fs))
    ensures remaining > 0 && lv.orders != [] ==>
      LedBy(lv.orders, fs, FirstOf(Bases(lv.orders, Min(remaining, lv.total), lv.total, 0), Largest(lv.orders)))
  {
    hide Heads;
    fs, q, left := [], lv.orders, remaining;
    assert Wound(q, []) == q;
    if remaining <= 0 || lv.orders == [] { return; }
    ShowsSomething(lv.orders);
    var toFill := Min(remaining, lv.total);
    var given;
    fs, given := BasePass(lv, toFill, 0);
    ghost var b := Bases(q, toFill, lv.total, 0);
    forall k | 0 <= k < |q| ensures b[k] <= q[k].remaining {
      ShareBounds(q[k].remaining, toFill, lv.total);
    }
    ghost var fs0 := fs;
    ghost var a;
    fs, a := SizePass(q, lv.price, fs, toFill - given, b);
    var gs;
    q, gs := ApplyFills(q, fs);
    SharesLead(lv.orders, lv.price, fs0, b, Largest(lv.orders), fs, a, gs);
    DraftMatched(lv, remaining, fs, a, gs);
    fs, left := gs, remaining - toFill;
    assert Gifts(lv.orders, fs) == a;
  }
}
