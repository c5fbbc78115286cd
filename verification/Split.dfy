/**
  SplitFifoProRataMatch of exchange-core/match_algo.h: a percentage of the quantity in time
  priority, the rest proportionally to what the orders then still show.
 */
module Split {
  import opened Types
  import opened Queues
  import opened Alloc
  import opened ProRata
  import opened Priority

  lemma WoundTwice(q: seq<Order>, fs: seq<Fill>, gs: seq<Fill>)
    ensures Wound(Wound(q, fs), gs) == Wound(q, fs + gs)
  {
    forall i | 0 <= i < |q| ensures Wound(Wound(q, fs), gs)[i] == Wound(q, fs + gs)[i] {
      FillsForConcat(fs, gs, q[i].id);
    }
  }

  /** Reports of a second round of fills continue those of the first. */
  lemma ReportsContinue(q: seq<Order>, fs: seq<Fill>, gs: seq<Fill>)
    requires Reports(q, fs) && Reports(Wound(q, fs), gs)
    ensures Reports(q, fs + gs)
  {
    var all, w := fs + gs, Wound(q, fs);
    forall k | 0 <= k < |all| ensures ReportsAt(q, all, k) {
      if k < |fs| {
        assert ReportsAt(q, fs, k) && all[..k+1] == fs[..k+1];
      } else {
        var m := k - |fs|;
        assert ReportsAt(w, gs, m);
        var j: nat :| Holds(w, j, gs[m].resting) && gs[m].restingRemaining == w[j].remaining - FillsFor(gs[..m+1], w[j].id);
        assert all[..k+1] == fs + gs[..m+1];
        FillsForConcat(fs, gs[..m+1], q[j].id);
        assert Holds(q, j, all[k].resting);
      }
    }
  }

  /**
    In whatever way a policy allocates, an order's entry reports nothing left only if it is
    the order's last: earlier entries of the same order report more than zero.
   */
  lemma ZeroOnlyLast(q: seq<Order>, price: int, n: int, fs: seq<Fill>, k: nat, m: nat)
    requires NoDup(q) && Allocates(q, price, n, fs) && k < m < |fs| && fs[k].resting == fs[m].resting
    ensures fs[k].restingRemaining > 0
  {
    assert ReportsAt(q, fs, k);
    var j: nat :| Holds(q, j, fs[k].resting) && fs[k].restingRemaining == q[j].remaining - FillsFor(fs[..k+1], q[j].id);
    assert fs == fs[..k+1] + fs[k+1..];
    FillsForConcat(fs[..k+1], fs[k+1..], q[j].id);
    assert fs[k+1..][m-k-1] == fs[m];
    FillsForNonneg(fs[k+1..], q[j].id);
  }

  /** The proportional second phase on what the first one left showing. */
  method ProRataRest(price: int, q: seq<Order>, n: int) returns (fs: seq<Fill>, r: seq<Order>, ghost b: seq<int>, ghost a: seq<int>)
    requires NoDup(q) && AllNonneg(q) && 0 < n <= SumRem(q)
    ensures r == Wound(q, fs) && Reports(q, fs) && Draft(q, price, fs, a)
    ensures b == Bases(q, n, SumRem(q), 0) && ToppedUp(q, b, a) && SumInt(a) == n
    ensures AllPositive(q) ==> LedBy(q, fs, FirstOf(b, 0))
  {
    hide Heads, LedBy, FirstId;
    var given;
    fs, given := BasePass(Level(price, SumRem(q), |q|, q), n, 0);
    b := Bases(q, n, SumRem(q), 0);
    forall k | 0 <= k < |q| ensures b[k] <= q[k].remaining {
      ShareBounds(q[k].remaining, n, SumRem(q));
    }
    ghost var fs0 := fs;
    fs, a := TopUp(q, price, fs, n - given, b);
    var gs;
    r, gs := ApplyFills(q, fs);
    if AllPositive(q) {
      HeadAll(q);
      SharesLead(q, price, fs0, b, 0, fs, a, gs);
    }
    SameDraft(q, price, fs, gs, a);
    assert Wound(q, gs) == r by { forall i | 0 <= i < |q| ensures Wound(q, gs)[i] == r[i] { SameTotals(fs, gs, q[i].id); } }
    fs := gs;
  }

  lemma SameDraft(q: seq<Order>, price: int, fs: seq<Fill>, gs: seq<Fill>, a: seq<int>)
    requires Draft(q, price, fs, a) && SameFills(fs, gs)
    ensures Draft(q, price, gs, a)
  {
    SameTotals(fs, gs, 0);
    forall i | 0 <= i < |q| ensures FillsFor(gs, q[i].id) == a[i] { SameTotals(fs, gs, q[i].id); }
  }

  /** The quantity of a queue after some fills. */
  lemma {:induction false} SumRemWound(q: seq<Order>, w: seq<Order>, a: seq<int>)
    requires |w| == |a| == |q| && forall i :: 0 <= i < |q| ==> w[i].remaining == q[i].remaining - a[i]
    ensures SumRem(w) == SumRem(q) - SumInt(a)
  {
    if q != [] { SumRemWound(q[1..], w[1..], a[1..]); }
  }

  method SumShown(q: seq<Order>) returns (n: int)
    ensures n == SumRem(q)
  {
    n := 0;
    assert q[..0] == [] && q[..|q|] == q;
    for i := 0 to |q|
      invariant n == SumRem(q[..i])
    {
      assert q[..i+1] == q[..i] + [q[i]];
      SumRemSnoc(q[..i], q[i]);
      n := n + q[i].remaining;
    }
  }

  /** The queue once its first n lots are taken in time priority. */
  ghost function After(q: seq<Order>, n: int): seq<Order> {
    seq(|q|, i requires 0 <= i < |q| => q[i].Filled(FifoDue(q, n, i)))
  }

  /** `c` hands m lots out proportionally to what a queue shows, topped up in time priority. */
  ghost predicate Proportional(q: seq<Order>, m: int, c: seq<int>) {
    && SumInt(c) == m
    && if m > 0 then SumRem(q) > 0 && ToppedUp(q, Bases(q, m, SumRem(q), 0), c) else c == seq(|q|, i => 0)
  }

  /** `a` is n lots in time priority and then m lots proportionally to what is left. */
  ghost predicate SplitGifts(q: seq<Order>, n: int, m: int, a: seq<int>) {
    && |a| == |q|
    && exists c :: Proportional(After(q, n), m, c) && |c| == |q| && forall i :: 0 <= i < |q| ==> a[i] == FifoDue(q, n, i) + c[i]
  }

  /** What the first phase leaves. */
  lemma FirstPhase(lv: Level, n: int, q: seq<Order>)
    requires Ready(lv) && 0 <= n <= SumRem(lv.orders) && q == Wound(lv.orders, FifoFills(lv.orders, lv.price, n))
    ensures q == After(lv.orders, n) && NoDup(q) && AllNonneg(q) && SumRem(q) == SumRem(lv.orders) - n
  {
    var q0 := lv.orders;
    var a := seq(|q0|, i requires 0 <= i < |q0| => FifoDue(q0, n, i));
    forall i | 0 <= i < |q0| ensures q[i] == q0[i].Filled(a[i]) && 0 <= a[i] <= q0[i].remaining {
      FifoGives(q0, lv.price, n, i);
    }
    SumRemWound(q0, q, a);
    FifoDueSum(q0, n, a);
  }

  lemma {:induction false} FifoDueSum(q: seq<Order>, n: int, a: seq<int>)
    requires AllPositive(q) && 0 <= n <= SumRem(q)
    requires |a| == |q| && forall i :: 0 <= i < |q| ==> a[i] == FifoDue(q, n, i)
    ensures SumInt(a) == n
  {
    if q != [] {
      var f := Min(n, q[0].remaining);
      assert SumRem(q[..0]) == 0;
      SumRemNonneg(q[1..]);
      forall i | 0 <= i < |q[1..]| ensures a[1..][i] == FifoDue(q[1..], n - f, i) {
        assert q[..i+1][1..] == q[1..][..i];
        SumRemNonneg(q[1..][..i]);
      }
      FifoDueSum(q[1..], n - f, a[1..]);
    }
  }

  /** Two phases joined. */
  lemma JoinPhases(lv: Level, remaining: int, n: int, q1: seq<Order>, gs: seq<Fill>, c: seq<int>)
    requires Ready(lv) && remaining > 0 && 0 <= n <= SumRem(lv.orders)
    requires q1 == Wound(lv.orders, FifoFills(lv.orders, lv.price, n)) == After(lv.orders, n)
    requires Draft(q1, lv.price, gs, c) && Reports(q1, gs)
    requires forall i :: 0 <= i < |q1| ==> c[i] <= q1[i].remaining
    requires n + SumInt(c) == Min(remaining, SumRem(lv.orders))
    ensures var fs := FifoFills(lv.orders, lv.price, n) + gs;
      Matched(lv, remaining, fs, Wound(q1, gs), remaining - n - SumInt(c)) &&
      forall i :: 0 <= i < |lv.orders| ==> FillsFor(fs, lv.orders[i].id) == FifoDue(lv.orders, n, i) + c[i]
  {
    var f1 := FifoFills(lv.orders, lv.price, n);
    FifoMatched(lv, n);
    if n > 0 { FifoEntries(lv.orders, lv.price, n); }
    WoundTwice(lv.orders, f1, gs);
    ReportsContinue(lv.orders, f1, gs);
    TotalFillsConcat(f1, gs);
    forall i | 0 <= i < |lv.orders| ensures FillsFor(f1 + gs, lv.orders[i].id) == FifoDue(lv.orders, n, i) + c[i] {
      FillsForConcat(f1, gs, lv.orders[i].id);
      FifoGives(lv.orders, lv.price, n, i);
      assert FillsFor(gs, q1[i].id) == c[i];
    }
  }

  lemma JoinGifts(q0: seq<Order>, n: int, m: int, fs: seq<Fill>, c: seq<int>)
    requires |c| == |q0| && Proportional(After(q0, n), m, c)
    requires forall i :: 0 <= i < |q0| ==> FillsFor(fs, q0[i].id) == FifoDue(q0, n, i) + c[i]
    ensures SplitGifts(q0, n, m, Gifts(q0, fs))
  {
    var a := Gifts(q0, fs);
    assert forall i :: 0 <= i < |q0| ==> a[i] == FifoDue(q0, n, i) + c[i];
  }

  // ---------------------------------------------------------------- how many entries

  /** Time priority serves the orders it names, all but the last of them in full, and no others. */
  lemma {:induction false} FifoNames(q: seq<Order>, price: int, n: int, i: nat)
    requires AllPositive(q) && i < |q|
    ensures |FifoFills(q, price, n)| <= |q|
    ensures i < |FifoFills(q, price, n)| <==> FifoDue(q, n, i) > 0
    ensures i + 1 < |FifoFills(q, price, n)| ==> FifoDue(q, n, i) == q[i].remaining
  {
    if n <= 0 {
      SumRemNonneg(q[..i]);
      return;
    }
    var f := Min(n, q[0].remaining);
    assert SumRem(q[..0]) == 0;
    if i > 0 {
      FifoNames(q[1..], price, n - f, i - 1);
      assert q[..i][1..] == q[1..][..i-1];
      SumRemNonneg(q[1..][..i-1]);
    } else if |q| > 1 {
      FifoNames(q[1..], price, n - f, 0);
      assert SumRem(q[1..][..0]) == 0;
    } else {
      assert FifoFills(q[1..], price, n - f) == [];
    }
  }

  /** Some order is filled in part when time priority hands out n lots. */
  ghost predicate EndsInside(q: seq<Order>, n: int) { exists i :: 0 <= i < |q| && 0 < FifoDue(q, n, i) < q[i].remaining }

  /** The first order the second phase may serve. */
  ghost function RestFrom(q: seq<Order>, price: int, n: int): int {
    |FifoFills(q, price, n)| - if EndsInside(q, n) then 1 else 0
  }

  lemma RestBegins(q: seq<Order>, price: int, n: int)
    requires AllPositive(q)
    ensures 0 <= RestFrom(q, price, n) <= |q|
    ensures forall i :: 0 <= i < |q| ==> (After(q, n)[i].remaining > 0 <==> i >= RestFrom(q, price, n))
    ensures forall i :: 0 <= i < |q| ==> After(q, n)[i].remaining >= 0
  {
    var m := |FifoFills(q, price, n)|;
    if q != [] { FifoNames(q, price, n, 0); }
    if EndsInside(q, n) {
      var i :| 0 <= i < |q| && 0 < FifoDue(q, n, i) < q[i].remaining;
      FifoNames(q, price, n, i);
      assert m == i + 1;
    }
    forall i | 0 <= i < |q| ensures After(q, n)[i].remaining >= 0 && (After(q, n)[i].remaining > 0 <==> i >= RestFrom(q, price, n)) {
      FifoNames(q, price, n, i);
    }
  }

  /** Two phases name no more orders twice than time priority leaves half filled. */
  lemma SplitEntries(q: seq<Order>, price: int, n: int, gs: seq<Fill>, c: seq<int>)
    requires NoDup(q) && AllPositive(q) && Draft(After(q, n), price, gs, c)
    requires forall i :: 0 <= i < |q| ==> c[i] <= After(q, n)[i].remaining
    ensures |FifoFills(q, price, n)| + |gs| <= |q| + if EndsInside(q, n) then 1 else 0
  {
    hide EndsInside;
    var w, k := After(q, n), RestFrom(q, price, n);
    RestBegins(q, price, n);
    forall x | 0 <= x < |gs| ensures gs[x].resting in Ids(w[k..]) {
      assert gs[x].resting in Ids(w);
      var i :| 0 <= i < |w| && Ids(w)[i] == gs[x].resting;
      FillsForNonneg(gs, w[i].id);
      assert FillsFor(gs, w[i].id) == c[i] > 0;
      assert Ids(w[k..])[i - k] == gs[x].resting;
    }
    EntriesBound(w[k..], gs);
  }

  /** And exactly as many when the second phase takes all that is left. */
  lemma SplitEntriesAll(q: seq<Order>, price: int, n: int, gs: seq<Fill>, c: seq<int>)
    requires NoDup(q) && AllPositive(q) && Draft(After(q, n), price, gs, c)
    requires forall i :: 0 <= i < |q| ==> c[i] == After(q, n)[i].remaining
    ensures |FifoFills(q, price, n)| + |gs| == |q| + if EndsInside(q, n) then 1 else 0
  {
    var w, k := After(q, n), RestFrom(q, price, n);
    RestBegins(q, price, n);
    SplitEntries(q, price, n, gs, c);
    forall x | k <= x < |w| ensures FillsFor(gs, w[x].id) != 0 { assert c[x] > 0; }
    assert NoDup(w[k..]);
    hide EndsInside, After, FifoFills, Draft, FifoDue;
    forall i | 0 <= i < |w[k..]| ensures FillsFor(gs, w[k..][i].id) != 0 { assert w[k..][i] == w[k + i]; }
    EntriesCover(w[k..], gs);
  }

  lemma {:induction false} FifoServesAll(q: seq<Order>, price: int, n: int)
    requires AllPositive(q) && n >= SumRem(q)
    ensures |FifoFills(q, price, n)| == |q|
  {
    if q != [] {
      SumRemNonneg(q[1..]);
      FifoServesAll(q[1..], price, n - q[0].remaining);
    }
  }

  /** The entries of both phases, n lots in the first and m in the second. */
  lemma SplitCount(lv: Level, n: int, m: int, gs: seq<Fill>, c: seq<int>)
    requires Ready(lv) && lv.orders != [] && 0 <= n && 0 <= m && n + m <= lv.total
    requires Draft(After(lv.orders, n), lv.price, gs, c) && SumInt(c) == m && (m == 0 ==> gs == [])
    requires forall i :: 0 <= i < |lv.orders| ==> c[i] <= After(lv.orders, n)[i].remaining
    ensures var k := |FifoFills(lv.orders, lv.price, n)| + |gs|;
      && k <= |lv.orders| + (if n > 0 && m > 0 then 1 else 0)
      && (n + m == lv.total ==> k == |lv.orders| + if m > 0 && EndsInside(lv.orders, n) then 1 else 0)
  {
    var q, price := lv.orders, lv.price;
    SplitEntries(q, price, n, gs, c);
    FifoNames(q, price, n, 0);
    if n == 0 { NothingInside(q); }
    if n + m == lv.total {
      if m == 0 {
        FifoServesAll(q, price, n);
      } else {
        AllLeft(lv, n, c);
        SplitEntriesAll(q, price, n, gs, c);
      }
    }
  }

  lemma NothingInside(q: seq<Order>)
    requires AllPositive(q)
    ensures !EndsInside(q, 0)
  {
    forall i | 0 <= i < |q| ensures FifoDue(q, 0, i) == 0 { SumRemNonneg(q[..i]); }
  }

  lemma AllLeft(lv: Level, n: int, c: seq<int>)
    requires Ready(lv) && 0 <= n <= lv.total && |c| == |lv.orders| && SumInt(c) == lv.total - n
    requires forall i :: 0 <= i < |lv.orders| ==> c[i] <= After(lv.orders, n)[i].remaining
    ensures forall i :: 0 <= i < |lv.orders| ==> c[i] == After(lv.orders, n)[i].remaining
  {
    var w := Wound(lv.orders, FifoFills(lv.orders, lv.price, n));
    forall i | 0 <= i < |w| ensures w[i] == After(lv.orders, n)[i] { FifoGives(lv.orders, lv.price, n, i); }
    FirstPhase(lv, n, w);
    SumWithin(w, c);
  }

  /** What n lots in time priority give each order. */
  ghost function Dues(q: seq<Order>, n: int): seq<int> { seq(|q|, i requires 0 <= i < |q| => FifoDue(q, n, i)) }

  /** The orders served by n lots in time priority, and those that get more than that. */
  ghost function ServedTwice(q: seq<Order>, n: int, a: seq<int>): nat
    requires |a| == |q|
  {
    Served(Dues(q, n)) + Served(seq(|q|, i requires 0 <= i < |q| => a[i] - FifoDue(q, n, i)))
  }

  lemma FifoServed(q: seq<Order>, price: int, n: int)
    requires NoDup(q) && AllPositive(q)
    ensures |FifoFills(q, price, n)| == Served(Dues(q, n))
  {
    var fs := FifoFills(q, price, n);
    if n > 0 {
      FifoEntries(q, price, n);
      forall k | 0 <= k < |fs| ensures fs[k].resting in Ids(q) { assert Ids(q)[k] == fs[k].resting; }
    }
    forall i | 0 <= i < |q| ensures FillsFor(fs, q[i].id) == FifoDue(q, n, i) {
      if n >= 0 { FifoGives(q, price, n, i); } else { SumRemNonneg(q[..i]); }
    }
    ServedCount(q, fs, Dues(q, n));
  }

  lemma DraftServed(q: seq<Order>, price: int, fs: seq<Fill>, a: seq<int>)
    requires NoDup(q) && Draft(q, price, fs, a)
    ensures |fs| == Served(a) && |a| == |q|
  {
    ServedCount(q, fs, a);
  }

  lemma TwiceCount(lv: Level, n: int, gs: seq<Fill>, c: seq<int>, fs: seq<Fill>)
    requires Ready(lv) && Draft(After(lv.orders, n), lv.price, gs, c) && NoDup(After(lv.orders, n))
    requires fs == FifoFills(lv.orders, lv.price, n) + gs
    requires forall i :: 0 <= i < |lv.orders| ==> FillsFor(fs, lv.orders[i].id) == FifoDue(lv.orders, n, i) + c[i]
    ensures |fs| == ServedTwice(lv.orders, n, Gifts(lv.orders, fs))
  {
    hide Draft, FifoFills, Served, FillsFor, FifoDue, NoDup, AllPositive, Dues;
    DraftServed(After(lv.orders, n), lv.price, gs, c);
    FifoServed(lv.orders, lv.price, n);
    LaterGifts(lv.orders, n, Gifts(lv.orders, fs), c);
  }

  /** What the second phase gave is what was given less the dues of the first. */
  lemma LaterGifts(q: seq<Order>, n: int, a: seq<int>, c: seq<int>)
    requires |a| == |q| == |c| && forall i :: 0 <= i < |q| ==> a[i] == FifoDue(q, n, i) + c[i]
    ensures ServedTwice(q, n, a) == Served(Dues(q, n)) + Served(c)
  {
    hide FifoDue, Served, Dues;
    assert c == seq(|q|, i requires 0 <= i < |q| => a[i] - FifoDue(q, n, i));
  }

  lemma Parts(n: int, pct: int)
    requires n > 0 && 0 <= pct <= 100
    ensures 0 <= n * pct / 100 <= n && (n * pct / 100 < n <==> pct < 100) && (pct == 0 ==> n * pct / 100 == 0)
  {
    Percent(n, pct);
    if pct < 100 { MulMono(n, pct, 99); }
  }

  method SplitMatch(lv: Level, remaining: int, pct: int) returns (fs: seq<Fill>, q: seq<Order>, left: int)
    requires Ready(lv) && 0 <= pct <= 100
    ensures Matched(lv, remaining, fs, q, left)
    ensures remaining > 0 && lv.orders != [] ==>
      var t := Min(remaining, lv.total);
      SplitGifts(lv.orders, t * pct / 100, t - t * pct / 100, Gifts(lv.orders, fs))
    ensures |fs| <= |lv.orders| + if 0 < pct < 100 then 1 else 0
    ensures remaining > 0 && lv.orders != [] ==>
      |fs| == ServedTwice(lv.orders, Min(remaining, lv.total) * pct / 100, Gifts(lv.orders, fs))
    ensures remaining >= lv.total && lv.orders != [] ==>
      |fs| == |lv.orders| + if pct < 100 && EndsInside(lv.orders, lv.total * pct / 100) then 1 else 0
    ensures remaining > 0 && pct == 100 ==> fs == FifoFills(lv.orders, lv.price, Min(remaining, lv.total))
    ensures remaining > 0 && lv.orders != [] ==>
      var t := Min(remaining, lv.total);
      LedBy(lv.orders, fs, SplitLeader(lv.orders, t * pct / 100, t - t * pct / 100))
  {
    hide EndsInside, SplitGifts, Gifts, LedBy, SplitLeader;
    fs, q, left := [], lv.orders, remaining;
    assert Wound(q, []) == q;
    if lv.orders != [] { ShowsSomething(lv.orders); }
    if remaining <= 0 || lv.orders == [] { return; }
    var toFill := Min(remaining, lv.total);
    Parts(toFill, pct);
    var fifoQty := toFill * pct / 100;
    var rest := toFill - fifoQty;
    hide SumRem, FifoFills, AllPositive, NoDup, Wound;
    fs, q, left := SplitPhases(lv, remaining, fifoQty, rest);
  }

  /** Whom the entries begin with: the head of the queue, unless the first part comes to nothing. */
  ghost function SplitLeader(q: seq<Order>, fifoQty: int, rest: int): nat {
    if fifoQty > 0 || SumRem(q) <= 0 then 0 else FirstOf(Bases(q, rest, SumRem(q), 0), 0)
  }

  lemma SplitLead(lv: Level, n: int, rest: int, q1: seq<Order>, gs: seq<Fill>)
    requires Ready(lv) && lv.orders != [] && 0 <= n && 0 <= rest && 0 < n + rest <= SumRem(lv.orders)
    requires q1 == Wound(lv.orders, FifoFills(lv.orders, lv.price, n))
    requires rest > 0 && SumRem(q1) > 0 && AllPositive(q1) ==>
      LedBy(q1, gs, FirstOf(Bases(q1, Min(rest, SumRem(q1)), SumRem(q1), 0), 0))
    ensures LedBy(lv.orders, FifoFills(lv.orders, lv.price, n) + gs, SplitLeader(lv.orders, n, rest))
  {
    if n == 0 {
      assert q1 == lv.orders;
      assert [] + gs == gs;
    }
  }

  /** Time priority for the first part, proportions for the second. */
  method SplitPhases(lv: Level, remaining: int, fifoQty: int, rest: int) returns (fs: seq<Fill>, q: seq<Order>, left: int)
    requires Ready(lv) && lv.orders != [] && remaining > 0 && 0 <= fifoQty && 0 <= rest && fifoQty + rest == Min(remaining, lv.total)
    ensures Matched(lv, remaining, fs, q, left) && SplitGifts(lv.orders, fifoQty, rest, Gifts(lv.orders, fs))
    ensures |fs| <= |lv.orders| + if fifoQty > 0 && rest > 0 then 1 else 0
    ensures |fs| == ServedTwice(lv.orders, fifoQty, Gifts(lv.orders, fs))
    ensures remaining >= lv.total ==> |fs| == |lv.orders| + if rest > 0 && EndsInside(lv.orders, fifoQty) then 1 else 0
    ensures rest == 0 ==> fs == FifoFills(lv.orders, lv.price, fifoQty)
    ensures LedBy(lv.orders, fs, SplitLeader(lv.orders, fifoQty, rest))
  {
    hide EndsInside, SplitGifts, Matched, Draft, Reports, LedBy, SplitLeader, FirstOf, After,
         Bases, FifoFills, SumInt, ServedTwice, AllPositive, SumRem, NoDup, AllNonneg;
    ShowsSomething(lv.orders);
    var fifoLeft;
    fs, q, fifoLeft := FifoMatch(lv, fifoQty);
    WoundByFifo(lv, fifoQty, fs, q, fifoLeft);
    FirstPhase(lv, fifoQty, q);
    var levelRemaining := SumShown(q);
    ghost var q1 := q;
    var gs := [];
    ghost var c: seq<int> := seq(|q|, i => 0);
    NoDraft(q, lv.price);
    NoReports(q);
    SumIntZero(|q|);
    assert Wound(q, []) == q;
    if rest > 0 && levelRemaining > 0 {
      ghost var b;
      gs, q, b, c := ProRataRest(lv.price, q, Min(rest, levelRemaining));
    }
    DraftLength(q1, lv.price, gs, c);
    JoinPhases(lv, remaining, fifoQty, q1, gs, c);
    assert Proportional(q1, rest, c);
    SplitCount(lv, fifoQty, rest, gs, c);
    SplitLead(lv, fifoQty, rest, q1, gs);
    fs := fs + gs;
    TwiceCount(lv, fifoQty, gs, c, fs);
    JoinGifts(lv.orders, fifoQty, rest, fs, c);
    left := remaining - (fifoQty + rest);
  }

  lemma DraftLength(q: seq<Order>, price: int, fs: seq<Fill>, a: seq<int>)
    requires Draft(q, price, fs, a)
    ensures |a| == |q|
  {
  }

  lemma NoReports(q: seq<Order>)
    ensures Reports(q, [])
  {
  }

  lemma WoundByFifo(lv: Level, n: int, fs: seq<Fill>, q: seq<Order>, left: int)
    requires Matched(lv, n, fs, q, left)
    ensures q == Wound(lv.orders, fs)
  {
  }
}
