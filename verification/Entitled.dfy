/**
  What three of the policies (exchange-core/match_algo.h) owe each order, in whole numbers: the floors, who is
  below a threshold, and who comes first for what is left over.
 */
module Entitled {
  import opened Types
  import opened Queues
  import opened Alloc
  import opened ProRata
  import opened Priority
  import opened Split

  /** Threshold matching: a floor that reaches the threshold is honoured, a smaller one counts for nothing, and more
      than that goes to an order only when all before it are full. */
  lemma ThresholdOwes(q: seq<Order>, t: int, threshold: int, a: seq<int>, i: nat)
    requires SumRem(q) > 0 && i < |q| && ToppedUp(q, Bases(q, t, SumRem(q), threshold), a)
    ensures var floor := q[i].remaining * t / SumRem(q);
      var owed := if floor >= threshold && floor > 0 then floor else 0;
      owed <= a[i] <= q[i].remaining && (a[i] > owed ==> forall j :: 0 <= j < i ==> a[j] == q[j].remaining)
  {
    hide SumRem;
  }

  /** Largest-first matching: every floor is honoured, and more goes to an order only when all that are larger, or as
      large and earlier, are full. */
  lemma LargestOwes(q: seq<Order>, t: int, a: seq<int>, i: nat, j: nat)
    requires SumRem(q) > 0 && t >= 0 && AllNonneg(q) && i < |q| && j < |q| && LargestFirst(q, Bases(q, t, SumRem(q), 0), a)
    ensures q[i].remaining * t / SumRem(q) <= a[i] <= q[i].remaining
    ensures a[i] > q[i].remaining * t / SumRem(q) && (q[j].remaining > q[i].remaining || (q[j].remaining == q[i].remaining && j < i)) ==>
      a[j] == q[j].remaining
  {
    hide SumRem;
    assert q[i].remaining >= 0;
    MulMono(q[i].remaining, 0, t);
    assert Outranks(q, j, i) <==> q[j].remaining > q[i].remaining || (q[j].remaining == q[i].remaining && j < i);
  }

  /** Split matching: what the first part leaves an order in time priority, and of the second part the floor of its
      share of what is then left. */
  lemma SplitOwes(lv: Level, first: int, rest: int, a: seq<int>, i: nat)
    requires Ready(lv) && 0 <= first && 0 < rest && first + rest <= lv.total && i < |lv.orders| && SplitGifts(lv.orders, first, rest, a)
    ensures var q := lv.orders;
      var ahead := SumRem(q[..i]);
      var due := if first <= ahead then 0 else Min(first - ahead, q[i].remaining);
      due + (q[i].remaining - due) * rest / (SumRem(q) - first) <= a[i] <= q[i].remaining
  {
    hide SumRem, FifoFills, NoDup, Proportional;
    var q, w := lv.orders, After(lv.orders, first);
    FirstPhase(lv, first, Wound(q, FifoFills(q, lv.price, first)));
    var c :| Proportional(w, rest, c) && |c| == |q| && forall k :: 0 <= k < |q| ==> a[k] == FifoDue(q, first, k) + c[k];
    assert w[i] == q[i].Filled(FifoDue(q, first, i));
    RestOwes(w, rest, c, i);
  }

  lemma RestOwes(w: seq<Order>, rest: int, c: seq<int>, i: nat)
    requires AllNonneg(w) && rest > 0 && i < |w| && Proportional(w, rest, c)
    ensures SumRem(w) > 0 && |c| == |w| && w[i].remaining * rest / SumRem(w) <= c[i] <= w[i].remaining
  {
    hide SumRem;
    assert w[i].remaining >= 0;
    MulMono(w[i].remaining, 0, rest);
  }
}
