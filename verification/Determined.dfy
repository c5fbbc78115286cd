/**
  A policy's rule (exchange-core/match_algo.h, ice/gtbpr_match.h) leaves nothing open: two lists of fills
  that follow it on the same level for the same quantity give every order the same.
 */
module Determined {
  import opened Types
  import opened Queues
  import opened Alloc
  import opened ProRata
  import opened Priority
  import opened Split
  import opened Gtbpr
  import opened Policies

  /** Nobody gets more in one while another gets less. */
  ghost predicate Ranked(a: seq<int>, b: seq<int>) {
    |a| == |b| && forall i, j :: 0 <= i < |a| && 0 <= j < |a| && a[i] < b[i] ==> a[j] <= b[j]
  }

  lemma {:induction false} NoLess(a: seq<int>, b: seq<int>)
    requires |a| == |b| && (forall i :: 0 <= i < |a| ==> a[i] <= b[i])
    ensures SumInt(a) <= SumInt(b) && (SumInt(a) == SumInt(b) ==> a == b)
  {
    if a != [] {
      NoLess(a[1..], b[1..]);
      assert a == [a[0]] + a[1..] && b == [b[0]] + b[1..];
    }
  }

  lemma RankedSame(a: seq<int>, b: seq<int>)
    requires Ranked(a, b) && SumInt(a) == SumInt(b)
    ensures a == b
  {
    if i :| 0 <= i < |a| && a[i] < b[i] {
      NoLess(a, b);
    } else {
      NoLess(b, a);
    }
  }

  // ---------------------------------------------------------------- topping up

  lemma ToppedRanked(q: seq<Order>, b: seq<int>, x: seq<int>, y: seq<int>)
    requires ToppedUp(q, b, x) && ToppedUp(q, b, y)
    ensures Ranked(x, y)
  {
    forall i, j | 0 <= i < |x| && 0 <= j < |x| && x[i] < y[i] ensures x[j] <= y[j] {
      assert y[i] > b[i] && x[i] < q[i].remaining;
    }
  }

  lemma ToppedInRanked(q: seq<Order>, g: Group, b: seq<int>, x: seq<int>, y: seq<int>)
    requires ToppedUpIn(q, g, b, x) && ToppedUpIn(q, g, b, y)
    ensures Ranked(x, y)
  {
    forall i, j | 0 <= i < |x| && 0 <= j < |x| && x[i] < y[i] ensures x[j] <= y[j] {
      assert y[i] > b[i] && x[i] < q[i].remaining && g.Has(q[i]);
    }
  }

  lemma LargestRanked(q: seq<Order>, b: seq<int>, x: seq<int>, y: seq<int>)
    requires LargestFirst(q, b, x) && LargestFirst(q, b, y)
    ensures Ranked(x, y)
  {
    forall i, j | 0 <= i < |x| && 0 <= j < |x| && x[i] < y[i] ensures x[j] <= y[j] {
      assert y[i] > b[i] && x[i] < q[i].remaining;
      assert i == j || Outranks(q, i, j) || Outranks(q, j, i);
    }
  }

  lemma RoundRanked(q: seq<Order>, b: seq<int>, x: seq<int>, y: seq<int>)
    requires RoundRobin(q, b, x) && RoundRobin(q, b, y)
    ensures Ranked(x, y)
  {
    var p: nat, i: nat :| RoundRobinAt(q, b, x, p, i);
    var p': nat, i': nat :| RoundRobinAt(q, b, y, p', i');
    if p < p' || (p == p' && i <= i') { RoundMore(q, b, x, p, i, y, p', i'); } else { RoundMore(q, b, y, p', i', x, p, i); }
  }

  lemma RoundMore(q: seq<Order>, b: seq<int>, x: seq<int>, p: nat, i: nat, y: seq<int>, p': nat, i': nat)
    requires RoundRobinAt(q, b, x, p, i) && RoundRobinAt(q, b, y, p', i') && (p < p' || (p == p' && i <= i'))
    ensures forall k :: 0 <= k < |q| ==> x[k] <= y[k]
  {
  }

  lemma FirstUnique(q: seq<Order>, g: Group, n: int, b: seq<int>, c: seq<int>)
    requires GroupFirst(q, g, n, b) && GroupFirst(q, g, n, c)
    ensures b == c
  {
    ToppedInRanked(q, g, seq(|q|, i => 0), b, c);
    RankedSame(b, c);
  }

  lemma ServedUnique(q: seq<Order>, g: Group, n: int, x: seq<int>, y: seq<int>)
    requires ServedFirst(q, g, n, x) && ServedFirst(q, g, n, y)
    ensures Ranked(x, y)
  {
    hide GroupFirst, ToppedUpIn, Ranked;
    var b :| GroupFirst(q, g, n, b) && ToppedUpIn(q, Everyone, b, x);
    var c :| GroupFirst(q, g, n, c) && ToppedUpIn(q, Everyone, c, y);
    FirstUnique(q, g, n, b, c);
    ToppedInRanked(q, Everyone, b, x, y);
  }

  lemma TopUnique(q: seq<Order>, n: int, topPct: int, mmPct: int, x: seq<int>, y: seq<int>)
    requires TopThenMm(q, n, topPct, mmPct, x) && TopThenMm(q, n, topPct, mmPct, y)
    ensures Ranked(x, y)
  {
    hide GroupFirst, ToppedUpIn, Ranked, MmDue, TopDue;
    var b, c :| GroupFirst(q, TopGroup(q), TopDue(q, n, topPct), b) && MmThenAll(q, n, mmPct, b, c, x);
    var b', c' :| GroupFirst(q, TopGroup(q), TopDue(q, n, topPct), b') && MmThenAll(q, n, mmPct, b', c', y);
    FirstUnique(q, TopGroup(q), TopDue(q, n, topPct), b, b');
    ToppedInRanked(q, MarketMakers, b, c, c');
    RankedSame(c, c');
    ToppedInRanked(q, Everyone, c, x, y);
  }

  lemma SplitUnique(q: seq<Order>, n: int, m: int, x: seq<int>, y: seq<int>)
    requires SplitGifts(q, n, m, x) && SplitGifts(q, n, m, y)
    ensures x == y
  {
    hide Proportional, After, FifoDue;
    var c :| Proportional(After(q, n), m, c) && |c| == |q| && forall i :: 0 <= i < |q| ==> x[i] == FifoDue(q, n, i) + c[i];
    var d :| Proportional(After(q, n), m, d) && |d| == |q| && forall i :: 0 <= i < |q| ==> y[i] == FifoDue(q, n, i) + d[i];
    RestUnique(After(q, n), m, c, d);
  }

  lemma RestUnique(q: seq<Order>, m: int, c: seq<int>, d: seq<int>)
    requires Proportional(q, m, c) && Proportional(q, m, d)
    ensures c == d
  {
    if m > 0 {
      ToppedRanked(q, Bases(q, m, SumRem(q), 0), c, d);
      RankedSame(c, d);
    }
  }

  // ---------------------------------------------------------------- every policy

  lemma SameTotal(lv: Level, n: int, fs: seq<Fill>, gs: seq<Fill>)
    requires Ready(lv) && Allocates(lv.orders, lv.price, n, fs) && Allocates(lv.orders, lv.price, n, gs)
    ensures SumInt(Gifts(lv.orders, fs)) == SumInt(Gifts(lv.orders, gs))
  {
    NamesInQueue(lv.orders, fs);
    NamesInQueue(lv.orders, gs);
    GiftsTotal(lv.orders, fs, Gifts(lv.orders, fs));
    GiftsTotal(lv.orders, gs, Gifts(lv.orders, gs));
  }

  lemma GiftsUnique(p: Policy, lv: Level, n: int, fs: seq<Fill>, gs: seq<Fill>)
    requires Ready(lv) && Plans(p, lv, n, fs) && Plans(p, lv, n, gs)
    ensures Gifts(lv.orders, fs) == Gifts(lv.orders, gs)
  {
    var q, t := lv.orders, Min(n, lv.total);
    var x, y := Gifts(q, fs), Gifts(q, gs);
    SameTotal(lv, n, fs, gs);
    hide Allocates, ToppedUp, LargestFirst, SplitGifts, ServedFirst, TopThenMm, RoundRobin, Bases, TimedBases, FifoFills,
         SumShares, Share, Served, ServedTwice, EndsInside, Ranked, Gifts;
    match p
    case Fifo =>
    case ProRataShare => ShareUnique(lv, t, fs, gs);
    case Threshold(min) => ToppedRanked(q, Bases(q, t, lv.total, min), x, y); RankedSame(x, y);
    case LargestShare => LargestRanked(q, Bases(q, t, lv.total, 0), x, y); RankedSame(x, y);
    case SplitFifo(pct) => SplitUnique(q, t * pct / 100, t - t * pct / 100, x, y);
    case Lmm(pct) => ServedUnique(q, MarketMakers, Min(n * pct / 100, GroupRem(q, MarketMakers)), x, y); RankedSame(x, y);
    case TopLmm(topPct, mmPct) => TopUnique(q, n, topPct, mmPct, x, y); RankedSame(x, y);
    case TimeWeighted => RoundRanked(q, TimedBases(q, t, DEFAULT_CONFIG, 0), x, y); RankedSame(x, y);
  }

  lemma ShareUnique(lv: Level, t: int, fs: seq<Fill>, gs: seq<Fill>)
    requires lv.total > 0 && |Gifts(lv.orders, fs)| == |Gifts(lv.orders, gs)| == |lv.orders|
    requires forall i :: 0 <= i < |lv.orders| ==>
      Gifts(lv.orders, fs)[i] == Share(lv.orders[i], t, lv.total) + if i < t - SumShares(lv.orders, t, lv.total) then 1 else 0
    requires forall i :: 0 <= i < |lv.orders| ==>
      Gifts(lv.orders, gs)[i] == Share(lv.orders[i], t, lv.total) + if i < t - SumShares(lv.orders, t, lv.total) then 1 else 0
    ensures Gifts(lv.orders, fs) == Gifts(lv.orders, gs)
  {
    hide Gifts, Share, SumShares;
  }
}
