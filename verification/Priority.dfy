/**
  Priority matching policies of exchange-core/match_algo.h: FifoMatch, FifoLmmMatch and
  FifoTopLmmMatch.  Each runs head-to-tail passes over the queue, the first ones limited to
  a group of orders.
 */
module Priority {
  import opened Types
  import opened Queues
  import opened Alloc
  import opened ProRata

  // ---------------------------------------------------------------- FifoMatch

  /** Head to tail, each order as much as possible. */
  function FifoFills(q: seq<Order>, price: int, n: int): seq<Fill> {
    if q == [] || n <= 0 then []
    else
      var f := Min(n, q[0].remaining);
      [Fill(q[0].id, price, f, q[0].remaining - f)] + FifoFills(q[1..], price, n - f)
  }

  /** What time priority entitles the i-th order to: what the earlier ones leave of n. */
  ghost function FifoDue(q: seq<Order>, n: int, i: nat): int
    requires i < |q|
  {
    var leftOver := n - SumRem(q[..i]);
    if leftOver <= 0 then 0 else Min(leftOver, q[i].remaining)
  }

  lemma {:induction false} FifoOnlyQueue(q: seq<Order>, price: int, n: int, id: nat)
    requires id !in Ids(q)
    ensures FillsFor(FifoFills(q, price, n), id) == 0
  {
    if q != [] && n > 0 {
      assert Ids(q)[0] == q[0].id;
      assert Ids(q[1..]) == Ids(q)[1..];
      var f := Min(n, q[0].remaining);
      FifoOnlyQueue(q[1..], price, n - f, id);
      assert FifoFills(q, price, n)[1..] == FifoFills(q[1..], price, n - f);
    }
  }

  lemma {:induction false} FifoGives(q: seq<Order>, price: int, n: int, i: nat)
    requires NoDup(q) && AllPositive(q) && i < |q|
    ensures FillsFor(FifoFills(q, price, n), q[i].id) == FifoDue(q, n, i)
  {
    if n <= 0 {
      SumRemNonneg(q[..i]);
    } else {
      var f := Min(n, q[0].remaining);
      var rest := FifoFills(q[1..], price, n - f);
      assert FifoFills(q, price, n)[1..] == rest;
      if i == 0 {
        assert SumRem(q[..0]) == 0;
        forall k | 0 <= k < |q[1..]| ensures Ids(q[1..])[k] != q[0].id {}
        FifoOnlyQueue(q[1..], price, n - f, q[0].id);
      } else {
        FifoGives(q[1..], price, n - f, i - 1);
        assert q[..i][1..] == q[1..][..i-1];
        SumRemNonneg(q[1..][..i-1]);
      }
    }
  }

  lemma {:induction false} FifoEntries(q: seq<Order>, price: int, n: int)
    requires NoDup(q) && AllPositive(q) && n > 0
    ensures var fs := FifoFills(q, price, n);
      && |fs| <= |q|
      && (forall k :: 0 <= k < |fs| ==> fs[k].resting == q[k].id && fs[k].price == price && fs[k].quantity > 0)
      && (forall k :: 0 <= k < |fs| ==> fs[k].restingRemaining == q[k].remaining - fs[k].quantity)
    ensures TotalFills(FifoFills(q, price, n)) == Min(n, SumRem(q))
  {
    if q != [] {
      var f := Min(n, q[0].remaining);
      var fs, rest := FifoFills(q, price, n), FifoFills(q[1..], price, n - f);
      assert fs[1..] == rest;
      if n - f > 0 {
        FifoEntries(q[1..], price, n - f);
        forall k | 0 <= k < |fs|
          ensures fs[k].resting == q[k].id && fs[k].price == price && fs[k].quantity > 0
          ensures fs[k].restingRemaining == q[k].remaining - fs[k].quantity
        {
          if k > 0 { assert fs[k] == rest[k-1] && q[k] == q[1..][k-1]; }
        }
      } else {
        SumRemNonneg(q[1..]);
      }
    }
  }

  lemma FifoMatched(lv: Level, remaining: int)
    requires Ready(lv)
    ensures var fs := FifoFills(lv.orders, lv.price, remaining);
      Matched(lv, remaining, fs, Wound(lv.orders, fs), remaining - TotalFills(fs)) && UniqueEntries(fs)
  {
    var q, fs := lv.orders, FifoFills(lv.orders, lv.price, remaining);
    if remaining > 0 {
      FifoEntries(q, lv.price, remaining);
      forall i | 0 <= i < |q| ensures FillsFor(fs, q[i].id) <= q[i].remaining {
        FifoGives(q, lv.price, remaining, i);
      }
      forall k | 0 <= k < |fs| ensures ReportsAt(q, fs, k) {
        UniqueQuantity(fs[..k+1], k);
        assert Holds(q, k, fs[k].resting);
      }
    }
  }

  method FifoMatch(lv: Level, remaining: int) returns (fs: seq<Fill>, q: seq<Order>, left: int)
    requires Ready(lv)
    ensures fs == FifoFills(lv.orders, lv.price, remaining)
    ensures Matched(lv, remaining, fs, q, left) && UniqueEntries(fs)
  {
    hide FifoFills, TotalFills, FillsFor, Matched;
    fs, q, left := [], lv.orders, remaining;
    FifoStart(lv, remaining);
    var i := 0;
    while i < |q| && left > 0
      invariant 0 <= i == |fs| <= |q| == |lv.orders|
      invariant forall k :: 0 <= k < i ==> fs[k].resting == lv.orders[k].id
      invariant q == Wound(lv.orders, fs) && left == remaining - TotalFills(fs)
      invariant fs + FifoFills(lv.orders[i..], lv.price, left) == FifoFills(lv.orders, lv.price, remaining)
    {
      NotGiven(fs, q[i].id);
      var fillQty := Min(left, q[i].remaining);
      var f := Fill(q[i].id, lv.price, fillQty, q[i].remaining - fillQty);
      assert lv.orders[i..][0] == lv.orders[i] && lv.orders[i..][1..] == lv.orders[i+1..];
      FifoHead(fs, lv.orders[i..], lv.price, left);
      WoundSnoc(lv.orders, fs, f, i);
      TotalFillsSnoc(fs, f);
      q := q[i := q[i].Filled(fillQty)];
      left := left - fillQty;
      fs := fs + [f];
      i := i + 1;
    }
    FifoStop(lv.orders[i..], lv.price, left);
    FifoMatched(lv, remaining);
  }

  lemma FifoStart(lv: Level, remaining: int)
    ensures Wound(lv.orders, []) == lv.orders && TotalFills([]) == 0 && lv.orders[0..] == lv.orders
    ensures [] + FifoFills(lv.orders, lv.price, remaining) == FifoFills(lv.orders, lv.price, remaining)
  {
  }

  lemma FifoStop(q: seq<Order>, price: int, n: int)
    requires q == [] || n <= 0
    ensures FifoFills(q, price, n) == []
  {
  }

  lemma TotalFillsSnoc(fs: seq<Fill>, f: Fill)
    ensures TotalFills(fs + [f]) == TotalFills(fs) + f.quantity
  {
    TotalFillsConcat(fs, [f]);
    assert [f][1..] == [];
  }

  lemma FifoHead(fs: seq<Fill>, q: seq<Order>, price: int, n: int)
    requires q != [] && n > 0
    ensures var f := Min(n, q[0].remaining);
      fs + FifoFills(q, price, n) ==
        (fs + [Fill(q[0].id, price, f, q[0].remaining - f)]) + FifoFills(q[1..], price, n - f)
  {
  }

  /** One more fill, taken from its order. */
  lemma WoundSnoc(q: seq<Order>, fs: seq<Fill>, f: Fill, i: nat)
    requires NoDup(q) && Holds(q, i, f.resting)
    ensures Wound(q, fs + [f]) == Wound(q, fs)[i := Wound(q, fs)[i].Filled(f.quantity)]
  {
    forall k | 0 <= k < |q| ensures FillsFor(fs + [f], q[k].id) == FillsFor(fs, q[k].id) + if k == i then f.quantity else 0 {
      FillsForConcat(fs, [f], q[k].id);
    }
  }

  // ---------------------------------------------------------------- passes over a group

  /** The orders a pass may fill. */
  datatype Group = Everyone | MarketMakers | Just(id: nat) {
    predicate Has(o: Order) {
      match this
      case Everyone => true
      case MarketMakers => o.marketMaker
      case Just(id) => o.id == id
    }
  }

  /** `a` was topped up from `b` in time priority within a group; others gained nothing. */
  ghost predicate ToppedUpIn(q: seq<Order>, g: Group, b: seq<int>, a: seq<int>) {
    && |a| == |b| == |q|
    && (forall i :: 0 <= i < |q| ==> b[i] <= a[i] <= q[i].remaining)
    && (forall i :: 0 <= i < |q| && !g.Has(q[i]) ==> a[i] == b[i])
    && (forall i, j :: 0 <= i < j < |q| && g.Has(q[i]) && a[j] > b[j] ==> a[i] == q[i].remaining)
  }

  /** What a group shows in a queue. */
  function GroupRem(q: seq<Order>, g: Group): int {
    if q == [] then 0 else (if g.Has(q[0]) then q[0].remaining else 0) + GroupRem(q[1..], g)
  }

  /** What each order of a group shows; nothing for the others. */
  function GroupRems(q: seq<Order>, g: Group): (r: seq<int>)
    ensures |r| == |q| && forall i :: 0 <= i < |q| ==> r[i] == if g.Has(q[i]) then q[i].remaining else 0
  {
    seq(|q|, i requires 0 <= i < |q| => if g.Has(q[i]) then q[i].remaining else 0)
  }

  /** A group shows something exactly when one of its orders does. */
  lemma {:induction false} GroupShows(q: seq<Order>, g: Group)
    requires AllPositive(q)
    ensures GroupRem(q, g) >= 0 && (GroupRem(q, g) > 0 <==> FirstPos(GroupRems(q, g)) < |q|)
  {
    if q != [] {
      GroupShows(q[1..], g);
      assert GroupRems(q, g)[1..] == GroupRems(q[1..], g);
    }
  }

  ghost function GroupSum(q: seq<Order>, g: Group, a: seq<int>): int
    requires |a| == |q|
  {
    if q == [] then 0 else (if g.Has(q[0]) then a[0] else 0) + GroupSum(q[1..], g, a[1..])
  }

  lemma {:induction false} GroupSumUpdate(q: seq<Order>, g: Group, a: seq<int>, i: nat, x: int)
    requires |a| == |q| && i < |a|
    ensures GroupSum(q, g, a[i := x]) == GroupSum(q, g, a) + if g.Has(q[i]) then x - a[i] else 0
  {
    if i == 0 {
      assert a[0 := x][1..] == a[1..];
    } else {
      assert a[i := x][1..] == a[1..][i-1 := x];
      GroupSumUpdate(q[1..], g, a[1..], i - 1, x);
    }
  }

  lemma {:induction false} GroupSumMono(q: seq<Order>, g: Group, b: seq<int>, a: seq<int>)
    requires |a| == |b| == |q| && forall i :: 0 <= i < |q| && g.Has(q[i]) ==> b[i] <= a[i]
    ensures GroupSum(q, g, b) <= GroupSum(q, g, a)
  {
    if q != [] { GroupSumMono(q[1..], g, b[1..], a[1..]); }
  }

  /** A group whose every order is full has been given all it showed. */
  lemma {:induction false} GroupFull(q: seq<Order>, g: Group, a: seq<int>)
    requires |a| == |q| && forall i :: 0 <= i < |q| && g.Has(q[i]) ==> a[i] == q[i].remaining
    ensures GroupSum(q, g, a) == GroupRem(q, g)
  {
    if q != [] { GroupFull(q[1..], g, a[1..]); }
  }

  lemma {:induction false} GroupSumZero(q: seq<Order>, g: Group, a: seq<int>)
    requires |a| == |q| && forall i :: 0 <= i < |q| && g.Has(q[i]) ==> a[i] == 0
    ensures GroupSum(q, g, a) == 0
  {
    if q != [] { GroupSumZero(q[1..], g, a[1..]); }
  }

  /** The state of a policy that fills orders as it goes. */
  ghost predicate Running(q0: seq<Order>, price: int, fs: seq<Fill>, q: seq<Order>, a: seq<int>) {
    && Draft(q0, price, fs, a)
    && q == Wound(q0, fs)
    && (forall k, i :: 0 <= k < |fs| && 0 <= i < |q0| && q0[i].id == fs[k].resting
          ==> fs[k].restingRemaining == q0[i].remaining - fs[k].quantity)
  }

  lemma RunningMatched(lv: Level, remaining: int, fs: seq<Fill>, q: seq<Order>, a: seq<int>)
    requires Ready(lv) && remaining > 0 && Running(lv.orders, lv.price, fs, q, a)
    requires forall i :: 0 <= i < |a| ==> a[i] <= lv.orders[i].remaining
    requires SumInt(a) == Min(remaining, SumRem(lv.orders))
    ensures Matched(lv, remaining, fs, q, remaining - SumInt(a)) && Gifts(lv.orders, fs) == a && UniqueEntries(fs)
  {
    var q0 := lv.orders;
    forall k | 0 <= k < |fs| ensures ReportsAt(q0, fs, k) {
      var j :| 0 <= j < |Ids(q0)| && Ids(q0)[j] == fs[k].resting;
      UniqueQuantity(fs[..k+1], k);
      assert Holds(q0, j, fs[k].resting);
    }
  }

  /** Give n to the i-th order now: its entry, its quantities and its reported remainder. */
  method Give(q0: seq<Order>, price: int, fs: seq<Fill>, q: seq<Order>, i: nat, n: int, ghost a: seq<int>)
    returns (gs: seq<Fill>, r: seq<Order>)
    requires NoDup(q0) && Running(q0, price, fs, q, a) && i < |q0| && n > 0
    ensures Running(q0, price, gs, r, a[i := a[i] + n])
    ensures (forall k :: 0 <= k < |fs| ==> fs[k].resting != q0[i].id) ==> gs == fs + [Fill(q0[i].id, price, n, q[i].remaining - n)]
    ensures gs != [] && gs[0].resting == if fs == [] then q0[i].id else fs[0].resting
  {
    r := q[i := q[i].Filled(n)];
    for k := 0 to |fs|
      invariant forall m :: 0 <= m < k ==> fs[m].resting != q[i].id
    {
      if fs[k].resting == q[i].id {
        gs := fs[k := fs[k].(quantity := fs[k].quantity + n, restingRemaining := r[i].remaining)];
        GiveMore(q0, price, fs, q, i, n, a, k);
        return;
      }
    }
    gs := fs + [Fill(q[i].id, price, n, r[i].remaining)];
    GiveFirst(q0, price, fs, q, i, n, a);
  }

  lemma GiveMore(q0: seq<Order>, price: int, fs: seq<Fill>, q: seq<Order>, i: nat, n: int, a: seq<int>, k: nat)
    requires NoDup(q0) && Running(q0, price, fs, q, a) && i < |q0| && n > 0 && k < |fs| && fs[k].resting == q0[i].id
    ensures Running(q0, price, fs[k := fs[k].(quantity := fs[k].quantity + n, restingRemaining := q[i].remaining - n)],
                    q[i := q[i].Filled(n)], a[i := a[i] + n])
  {
    var gs := fs[k := fs[k].(quantity := fs[k].quantity + n, restingRemaining := q[i].remaining - n)];
    UniqueQuantity(fs, k);
    BumpDraft(q0, price, fs, gs, k, i, n, a);
    assert q[i := q[i].Filled(n)] == Wound(q0, gs);
  }

  lemma GiveFirst(q0: seq<Order>, price: int, fs: seq<Fill>, q: seq<Order>, i: nat, n: int, a: seq<int>)
    requires NoDup(q0) && Running(q0, price, fs, q, a) && i < |q0| && n > 0
    requires forall k :: 0 <= k < |fs| ==> fs[k].resting != q0[i].id
    ensures Running(q0, price, fs + [Fill(q0[i].id, price, n, q[i].remaining - n)], q[i := q[i].Filled(n)], a[i := a[i] + n])
  {
    var f := Fill(q0[i].id, price, n, q[i].remaining - n);
    assert Ids(q0)[i] == q0[i].id;
    SumIntUpdate(a, i, a[i] + n);
    NotGiven(fs, q0[i].id);
    TotalFillsConcat(fs, [f]);
    WoundSnoc(q0, fs, f, i);
    forall j | 0 <= j < |q0| ensures FillsFor(fs + [f], q0[j].id) == a[i := a[i] + n][j] {
      FillsForConcat(fs, [f], q0[j].id);
    }
  }

  lemma BumpEntries(q: seq<Order>, price: int, fs: seq<Fill>, gs: seq<Fill>, k: nat, n: int)
    requires Entries(q, price, fs) && UniqueEntries(fs) && k < |fs| == |gs| && n > 0 && gs == fs[k := gs[k]]
    requires gs[k] == fs[k].(quantity := fs[k].quantity + n, restingRemaining := gs[k].restingRemaining)
    ensures Entries(q, price, gs) && UniqueEntries(gs)
  {
  }

  lemma BumpDraft(q: seq<Order>, price: int, fs: seq<Fill>, gs: seq<Fill>, k: nat, i: nat, n: int, a: seq<int>)
    requires NoDup(q) && Draft(q, price, fs, a) && i < |q| && k < |fs| && fs[k].resting == q[i].id && n > 0
    requires |gs| == |fs| && gs == fs[k := gs[k]]
    requires gs[k] == fs[k].(quantity := fs[k].quantity + n, restingRemaining := gs[k].restingRemaining)
    ensures Draft(q, price, gs, a[i := a[i] + n])
    ensures forall j :: 0 <= j < |q| ==> FillsFor(gs, q[j].id) == FillsFor(fs, q[j].id) + if j == i then n else 0
  {
    hide Entries, UniqueEntries, TotalFills, SumInt, FillsFor;
    var hs := fs[k := fs[k].(quantity := fs[k].quantity + n)];
    BumpEntries(q, price, fs, gs, k, n);
    TotalFillsBump(fs, k, n);
    SameTotals(hs, gs, 0);
    SumIntUpdate(a, i, a[i] + n);
    forall j | 0 <= j < |q| ensures FillsFor(gs, q[j].id) == FillsFor(fs, q[j].id) + if j == i then n else 0 {
      FillsForBump(fs, k, n, q[j].id);
      SameTotals(hs, gs, q[j].id);
    }
  }

  /** One pass: hand out n head to tail among the group, each order up to what it still shows. */
  method GroupPass(q0: seq<Order>, price: int, fs0: seq<Fill>, q1: seq<Order>, g: Group, n: int, ghost b: seq<int>)
    returns (fs: seq<Fill>, q: seq<Order>, left: int, ghost a: seq<int>)
    requires NoDup(q0) && Running(q0, price, fs0, q1, b) && n >= 0
    requires forall i :: 0 <= i < |q0| ==> b[i] <= q0[i].remaining
    ensures Running(q0, price, fs, q, a) && ToppedUpIn(q0, g, b, a)
    ensures 0 <= left <= n && SumInt(a) == SumInt(b) + n - left
    ensures GroupSum(q0, g, a) == GroupSum(q0, g, b) + n - left
    ensures left > 0 ==> forall i :: 0 <= i < |q0| && g.Has(q0[i]) ==> a[i] == q0[i].remaining
    ensures fs0 == [] && g == Everyone && AllPositive(q0) ==> fs == FifoFills(q0, price, n)
    ensures Heads(fs0, FirstId(q0, GroupRems(q0, g)), fs)
  {
    hide Heads, FirstId, PassState, FifoSoFar, FifoFills, GroupSum, SumInt, ToppedUpIn;
    fs, q, left, a := fs0, q1, n, b;
    ghost var fifo := fs0 == [] && g == Everyone && AllPositive(q0);
    PassBegins(q0, price, g, n, b);
    HeadsSame(fs0, FirstId(q0, GroupRems(q0, g)));
    var i := 0;
    while i < |q| && left > 0
      invariant 0 <= i <= |q| == |q0|
      invariant Running(q0, price, fs, q, a) && PassState(q0, g, n, b, a, i, left)
      invariant fifo ==> FifoSoFar(q0, price, n, fs, i, left)
      invariant Heads(fs0, FirstId(q0, GroupRems(q0, g)), fs)
    {
      var f := if g.Has(q[i]) && q[i].remaining > 0 then Min(left, q[i].remaining) else 0;
      PassStep(q0, g, n, b, a, i, left, f);
      if fifo { FifoOneMore(q0, price, n, fs, q, a, i, left, f); }
      if f > 0 {
        GroupHead(q0, price, fs, q, g, n, b, a, i, left);
        ghost var fs1 := fs;
        fs, q := Give(q0, price, fs, q, i, f, a);
        HeadsOn(fs0, FirstId(q0, GroupRems(q0, g)), fs1, fs);
      } else {
        assert a[i := a[i] + f] == a;
      }
      a := a[i := a[i] + f];
      left := left - f;
      i := i + 1;
    }
    PassEnds(q0, g, n, b, a, i, left);
    if fifo { FifoEnds(q0, price, n, fs, i, left); }
  }

  lemma GroupHead(q0: seq<Order>, price: int, fs: seq<Fill>, q: seq<Order>, g: Group, n: int, b: seq<int>, a: seq<int>, i: nat, left: int)
    requires Running(q0, price, fs, q, a) && PassState(q0, g, n, b, a, i, left) && left > 0
    requires i < |q0| && g.Has(q[i]) && q[i].remaining > 0
    ensures fs == [] ==> FirstId(q0, GroupRems(q0, g)) == q0[i].id
  {
    NoneGiven(q0, price, fs, a);
  }

  lemma PassBegins(q: seq<Order>, price: int, g: Group, n: int, b: seq<int>)
    requires |b| == |q| && n >= 0 && forall i :: 0 <= i < |q| ==> b[i] <= q[i].remaining
    ensures PassState(q, g, n, b, b, 0, n) && FifoSoFar(q, price, n, [], 0, n)
  {
    assert q[0..] == q;
  }

  lemma PassEnds(q: seq<Order>, g: Group, n: int, b: seq<int>, a: seq<int>, i: nat, left: int)
    requires PassState(q, g, n, b, a, i, left) && (i >= |q| || left <= 0)
    ensures ToppedUpIn(q, g, b, a) && 0 <= left <= n && SumInt(a) == SumInt(b) + n - left
    ensures GroupSum(q, g, a) == GroupSum(q, g, b) + n - left
    ensures left > 0 ==> forall k :: 0 <= k < |q| && g.Has(q[k]) ==> k < |a| && a[k] == q[k].remaining
  {
  }

  lemma FifoEnds(q: seq<Order>, price: int, n: int, fs: seq<Fill>, i: nat, left: int)
    requires FifoSoFar(q, price, n, fs, i, left) && (i >= |q| || left <= 0)
    ensures fs == FifoFills(q, price, n)
  {
    FifoStop(q[i..], price, left);
  }

  /** What a pass has done after visiting the first i orders. */
  ghost predicate PassState(q: seq<Order>, g: Group, n: int, b: seq<int>, a: seq<int>, i: nat, left: int) {
    && 0 <= left <= n && ToppedUpIn(q, g, b, a)
    && SumInt(a) == SumInt(b) + n - left && GroupSum(q, g, a) == GroupSum(q, g, b) + n - left
    && (forall k :: i <= k < |q| ==> a[k] == b[k])
    && (left > 0 ==> forall k :: 0 <= k < i && k < |q| && g.Has(q[k]) ==> a[k] == q[k].remaining)
  }

  lemma PassStep(q: seq<Order>, g: Group, n: int, b: seq<int>, a: seq<int>, i: nat, left: int, f: int)
    requires PassState(q, g, n, b, a, i, left) && i < |q| && left > 0
    requires i < |a| && f == if g.Has(q[i]) && q[i].remaining > a[i] then Min(left, q[i].remaining - a[i]) else 0
    ensures PassState(q, g, n, b, a[i := a[i] + f], i + 1, left - f)
  {
    SumIntUpdate(a, i, a[i] + f);
    GroupSumUpdate(q, g, a, i, a[i] + f);
  }

  /** A plain pass from nothing has so far written what FifoMatch would. */
  ghost predicate FifoSoFar(q: seq<Order>, price: int, n: int, fs: seq<Fill>, i: nat, left: int) {
    && i == |fs| <= |q|
    && (forall k :: 0 <= k < i ==> fs[k].resting == q[k].id)
    && fs + FifoFills(q[i..], price, left) == FifoFills(q, price, n)
  }

  lemma FifoOneMore(q0: seq<Order>, price: int, n: int, fs: seq<Fill>, q: seq<Order>, a: seq<int>, i: nat, left: int, f: int)
    requires NoDup(q0) && AllPositive(q0) && Running(q0, price, fs, q, a) && FifoSoFar(q0, price, n, fs, i, left)
    requires i < |q0| && left > 0 && f == if q[i].remaining > 0 then Min(left, q[i].remaining) else 0
    ensures f > 0 && forall k :: 0 <= k < |fs| ==> fs[k].resting != q0[i].id
    ensures FifoSoFar(q0, price, n, fs + [Fill(q0[i].id, price, f, q[i].remaining - f)], i + 1, left - f)
  {
    NotGiven(fs, q0[i].id);
    assert q0[i..][0] == q0[i] && q0[i..][1..] == q0[i+1..];
    FifoHead(fs, q0[i..], price, left);
  }

  // ---------------------------------------------------------------- FifoLmmMatch

  /** `b` gives n lots to a group in time priority and nothing to anyone else. */
  ghost predicate GroupFirst(q: seq<Order>, g: Group, n: int, b: seq<int>) {
    && ToppedUpIn(q, g, seq(|q|, i => 0), b)
    && SumInt(b) == n
  }

  /** A group is served first, with n lots; the rest goes to everyone in time priority. */
  ghost predicate ServedFirst(q: seq<Order>, g: Group, n: int, a: seq<int>) {
    exists b :: GroupFirst(q, g, n, b) && ToppedUpIn(q, Everyone, b, a)
  }

  /** Market makers' visible quantity at the level. */
  method MmResting(q: seq<Order>) returns (n: int)
    ensures n == GroupRem(q, MarketMakers)
  {
    n := 0;
    assert q[..0] == [] && q[..|q|] == q;
    for i := 0 to |q|
      invariant n == GroupRem(q[..i], MarketMakers)
    {
      assert q[..i+1] == q[..i] + [q[i]];
      GroupRemSnoc(q[..i], MarketMakers, q[i]);
      if q[i].marketMaker { n := n + q[i].remaining; }
    }
  }

  lemma {:induction false} GroupRemSnoc(q: seq<Order>, g: Group, o: Order)
    ensures GroupRem(q + [o], g) == GroupRem(q, g) + if g.Has(o) then o.remaining else 0
  {
    if q == [] {
      assert q + [o] == [o];
    } else {
      assert (q + [o])[1..] == q[1..] + [o];
      GroupRemSnoc(q[1..], g, o);
    }
  }

  lemma {:induction false} GroupRemBound(q: seq<Order>, g: Group)
    requires AllPositive(q)
    ensures 0 <= GroupRem(q, g) <= SumRem(q)
  {
    if q != [] { GroupRemBound(q[1..], g); }
  }

  /**
    Market makers are served first with min(floor(remaining * pct / 100), what they show),
    then everyone in time priority.
   */
  method LmmMatch(lv: Level, remaining: int, pct: int) returns (fs: seq<Fill>, q: seq<Order>, left: int)
    requires Ready(lv) && 0 <= pct <= 100
    ensures Matched(lv, remaining, fs, q, left) && UniqueEntries(fs)
    ensures remaining > 0 && lv.orders != [] ==>
      var due := Min(remaining * pct / 100, GroupRem(lv.orders, MarketMakers));
      ServedFirst(lv.orders, MarketMakers, due, Gifts(lv.orders, fs)) &&
      GroupSum(lv.orders, MarketMakers, Gifts(lv.orders, fs)) >= due
    ensures pct == 0 || GroupRem(lv.orders, MarketMakers) == 0 ==> fs == FifoFills(lv.orders, lv.price, remaining)
    ensures remaining > 0 && lv.orders != [] ==> LedBy(lv.orders, fs, MmLeader(lv.orders, remaining, pct))
  {
    hide Heads, LedBy, FirstId, MmLeader, Running, GroupRem, GroupSum, SumInt;
    fs, q, left := [], lv.orders, remaining;
    assert Wound(q, []) == q;
    if remaining <= 0 || lv.orders == [] { return; }
    hide Matched, Wound, SumRem, FifoFills, Gifts;
    var resting := MmResting(lv.orders);
    GroupRemBound(lv.orders, MarketMakers);
    Percent(remaining, pct);
    var alloc := Min(remaining * pct / 100, resting);
    assert pct == 0 || resting == 0 ==> alloc == 0;
    ghost var b;
    fs, q, b := ServeGroup(lv, MarketMakers, alloc);
    ghost var fs0 := fs;
    ghost var a;
    hide ToppedUpIn, GroupFirst, Ready, ServedFirst;
    fs, q, left, a := GroupPass(lv.orders, lv.price, fs, q, Everyone, remaining - alloc, b);
    LmmLead(lv, remaining, pct, fs0, fs, q, a, left);
    LmmDone(lv, remaining, alloc, b, fs, q, left, a);
  }

  /** The two passes of FifoLmmMatch put together. */
  lemma LmmDone(lv: Level, n: int, due: int, b: seq<int>, fs: seq<Fill>, q: seq<Order>, left: int, a: seq<int>)
    requires Ready(lv) && n > 0 && 0 <= due && GroupFirst(lv.orders, MarketMakers, due, b) && ToppedUpIn(lv.orders, Everyone, b, a)
    requires GroupSum(lv.orders, MarketMakers, b) == due && Running(lv.orders, lv.price, fs, q, a) && 0 <= left && SumInt(a) == n - left
    requires left > 0 ==> forall i :: 0 <= i < |lv.orders| && Everyone.Has(lv.orders[i]) ==> a[i] == lv.orders[i].remaining
    ensures Matched(lv, n, fs, q, left) && UniqueEntries(fs) && ServedFirst(lv.orders, MarketMakers, due, Gifts(lv.orders, fs))
    ensures GroupSum(lv.orders, MarketMakers, Gifts(lv.orders, fs)) >= due
  {
    hide GroupSum, Running, Matched, Gifts;
    SumWithin(lv.orders, a);
    GroupSumMono(lv.orders, MarketMakers, b, a);
    RunningMatched(lv, n, fs, q, a);
  }

  /** Whom the entries of FifoLmmMatch begin with: the first market maker, if its percentage comes to a lot. */
  function MmLeader(q: seq<Order>, n: int, pct: int): nat {
    if n * pct / 100 > 0 then FirstOf(GroupRems(q, MarketMakers), 0) else 0
  }

  lemma LmmLead(lv: Level, n: int, pct: int, fs0: seq<Fill>, fs: seq<Fill>, q: seq<Order>, a: seq<int>, left: int)
    requires Ready(lv) && lv.orders != [] && n > 0 && Running(lv.orders, lv.price, fs, q, a) && SumInt(a) == n - left
    requires left > 0 ==> forall i :: 0 <= i < |lv.orders| && Everyone.Has(lv.orders[i]) ==> a[i] == lv.orders[i].remaining
    requires Heads(fs0, FirstId(lv.orders, GroupRems(lv.orders, Everyone)), fs)
    requires var due := Min(n * pct / 100, GroupRem(lv.orders, MarketMakers));
      (fs0 != [] <==> due > 0) && (due > 0 ==> LedBy(lv.orders, fs0, FirstPos(GroupRems(lv.orders, MarketMakers))))
    ensures LedBy(lv.orders, fs, MmLeader(lv.orders, n, pct))
  {
    assert Everyone.Has(lv.orders[0]);
    EveryoneFirst(lv.orders);
    GroupShows(lv.orders, MarketMakers);
    NoneGiven(lv.orders, lv.price, fs, a);
    HeadsLead(lv.orders, fs0, FirstPos(GroupRems(lv.orders, MarketMakers)), 0, fs);
  }

  lemma EveryoneFirst(q: seq<Order>)
    requires q != [] && AllPositive(q)
    ensures FirstId(q, GroupRems(q, Everyone)) == q[0].id
  {
  }

  /** The first pass of a policy, serving a group with n lots it is able to take. */
  method ServeGroup(lv: Level, g: Group, n: int) returns (fs: seq<Fill>, q: seq<Order>, ghost b: seq<int>)
    requires Ready(lv) && 0 <= n <= GroupRem(lv.orders, g)
    ensures Running(lv.orders, lv.price, fs, q, b) && GroupFirst(lv.orders, g, n, b)
    ensures GroupSum(lv.orders, g, b) == n
    ensures fs != [] <==> n > 0
    ensures n > 0 ==> LedBy(lv.orders, fs, FirstPos(GroupRems(lv.orders, g)))
  {
    hide Heads, LedBy, FirstId;
    NoDraft(lv.orders, lv.price);
    ghost var z: seq<int> := seq(|lv.orders|, i => 0);
    GroupSumZero(lv.orders, g, z);
    SumIntZero(|lv.orders|);
    assert Wound(lv.orders, []) == lv.orders;
    var left;
    fs, q, left, b := GroupPass(lv.orders, lv.price, [], lv.orders, g, n, z);
    if left > 0 { GroupFull(lv.orders, g, b); }
    ServedLead(lv, g, n, fs, q, b);
  }

  lemma ServedLead(lv: Level, g: Group, n: int, fs: seq<Fill>, q: seq<Order>, b: seq<int>)
    requires Ready(lv) && 0 <= n <= GroupRem(lv.orders, g) && Running(lv.orders, lv.price, fs, q, b) && SumInt(b) == n
    requires Heads([], FirstId(lv.orders, GroupRems(lv.orders, g)), fs)
    ensures fs != [] <==> n > 0
    ensures n > 0 ==> LedBy(lv.orders, fs, FirstPos(GroupRems(lv.orders, g)))
  {
    NoneGiven(lv.orders, lv.price, fs, b);
    GroupShows(lv.orders, g);
  }

  lemma Percent(n: int, pct: int)
    requires n >= 0 && 0 <= pct <= 100
    ensures 0 <= n * pct / 100 <= n
    ensures pct == 0 ==> n * pct / 100 == 0
  {
    MulMono(n, 0, pct);
    MulMono(n, pct, 100);
  }

  // ---------------------------------------------------------------- FifoTopLmmMatch

  /** The first order flagged as top order, or |q|. */
  function FirstTop(q: seq<Order>): (i: nat)
    ensures i <= |q|
    ensures forall k :: 0 <= k < i ==> !q[k].topOrder
    ensures i < |q| ==> q[i].topOrder
  {
    if q == [] || q[0].topOrder then 0 else 1 + FirstTop(q[1..])
  }

  /** Lots the top order is served with. */
  function TopDue(q: seq<Order>, n: int, pct: int): int {
    if FirstTop(q) < |q| then Min(n * pct / 100, q[FirstTop(q)].remaining) else 0
  }

  function TopGroup(q: seq<Order>): Group {
    if FirstTop(q) < |q| then Just(q[FirstTop(q)].id) else Everyone
  }

  /** Lots the market makers are served with next, given that b has been handed out. */
  ghost function MmDue(q: seq<Order>, n: int, pct: int, b: seq<int>): int
    requires |b| == |q|
  {
    Min(Min(n * pct / 100, GroupRem(q, MarketMakers) - GroupSum(q, MarketMakers, b)), n - SumInt(b))
  }

  /** Top order, then market makers, then everyone. */
  ghost predicate TopThenMm(q: seq<Order>, n: int, topPct: int, mmPct: int, a: seq<int>) {
    exists b, c :: GroupFirst(q, TopGroup(q), TopDue(q, n, topPct), b) && MmThenAll(q, n, mmPct, b, c, a)
  }

  ghost predicate MmThenAll(q: seq<Order>, n: int, mmPct: int, b: seq<int>, c: seq<int>, a: seq<int>) {
    && |b| == |c| == |q| && ToppedUpIn(q, MarketMakers, b, c)
    && SumInt(c) == SumInt(b) + MmDue(q, n, mmPct, b)
    && ToppedUpIn(q, Everyone, c, a)
  }

  lemma {:induction false} GroupRemOne(q: seq<Order>, i: nat)
    requires NoDup(q) && i < |q|
    ensures GroupRem(q, Just(q[i].id)) == q[i].remaining
  {
    var g := Just(q[i].id);
    if i == 0 {
      NoneIn(q[1..], g);
    } else {
      assert q[1..][i-1] == q[i];
      GroupRemOne(q[1..], i - 1);
    }
  }

  lemma {:induction false} NoneIn(q: seq<Order>, g: Group)
    requires forall k :: 0 <= k < |q| ==> !g.Has(q[k])
    ensures GroupRem(q, g) == 0
  {
    if q != [] { NoneIn(q[1..], g); }
  }

  /** What a group still shows once b has been handed out. */
  lemma {:induction false} GroupRemWound(q0: seq<Order>, q: seq<Order>, g: Group, b: seq<int>)
    requires |q| == |b| == |q0| && forall i :: 0 <= i < |q0| ==> q[i] == q0[i].Filled(b[i])
    ensures GroupRem(q, g) == GroupRem(q0, g) - GroupSum(q0, g, b)
  {
    if q0 != [] { GroupRemWound(q0[1..], q[1..], g, b[1..]); }
  }

  /** The first phase: up to topPct per cent for the first top order. */
  method TopPass(lv: Level, n: int, topPct: int) returns (fs: seq<Fill>, q: seq<Order>, ghost b: seq<int>)
    requires Ready(lv) && 0 <= topPct <= 100 && n > 0 && lv.orders != []
    ensures Running(lv.orders, lv.price, fs, q, b)
    ensures GroupFirst(lv.orders, TopGroup(lv.orders), TopDue(lv.orders, n, topPct), b)
    ensures 0 <= TopDue(lv.orders, n, topPct) <= n
    ensures fs != [] <==> TopDue(lv.orders, n, topPct) > 0
    ensures fs != [] ==> LedBy(lv.orders, fs, FirstTop(lv.orders))
  {
    hide LedBy;
    Percent(n, topPct);
    var alloc := n * topPct / 100;
    var i := 0;
    while i < |lv.orders| && !lv.orders[i].topOrder
      invariant 0 <= i <= |lv.orders| && forall k :: 0 <= k < i ==> !lv.orders[k].topOrder
    {
      i := i + 1;
    }
    assert i == FirstTop(lv.orders);
    GroupRemBound(lv.orders, Everyone);
    if i < |lv.orders| {
      GroupRemOne(lv.orders, i);
      JustOne(lv.orders, i);
      fs, q, b := ServeGroup(lv, Just(lv.orders[i].id), Min(alloc, lv.orders[i].remaining));
    } else {
      fs, q, b := ServeGroup(lv, Everyone, 0);
    }
  }

  lemma JustOne(q: seq<Order>, i: nat)
    requires NoDup(q) && AllPositive(q) && i < |q|
    ensures FirstPos(GroupRems(q, Just(q[i].id))) == i
  {
    forall k | 0 <= k < |q| && k != i ensures q[k].id != q[i].id {
      assert Ids(q)[k] == q[k].id && Ids(q)[i] == q[i].id;
    }
    assert GroupRems(q, Just(q[i].id))[i] > 0;
  }

  /** The second phase: up to mmPct per cent of the original quantity for market makers. */
  method MmPass(lv: Level, n: int, mmPct: int, fs0: seq<Fill>, q1: seq<Order>, left0: int, ghost b: seq<int>)
    returns (fs: seq<Fill>, q: seq<Order>, left: int, ghost c: seq<int>)
    requires Ready(lv) && 0 <= mmPct <= 100 && n > 0 && Running(lv.orders, lv.price, fs0, q1, b)
    requires forall i :: 0 <= i < |b| ==> 0 <= b[i] <= lv.orders[i].remaining
    requires left0 == n - SumInt(b) >= 0
    ensures Running(lv.orders, lv.price, fs, q, c) && ToppedUpIn(lv.orders, MarketMakers, b, c)
    ensures SumInt(c) == SumInt(b) + MmDue(lv.orders, n, mmPct, b) && left == n - SumInt(c) >= 0
    ensures MmDue(lv.orders, n, mmPct, b) >= 0 && Heads(fs0, FirstId(lv.orders, GroupRems(lv.orders, MarketMakers)), fs)
    ensures GroupSum(lv.orders, MarketMakers, c) == GroupSum(lv.orders, MarketMakers, b) + MmDue(lv.orders, n, mmPct, b)
  {
    hide Heads, FirstId;
    Percent(n, mmPct);
    var resting := MmResting(q1);
    GroupRemWound(lv.orders, q1, MarketMakers, b);
    GroupNonneg(lv.orders, MarketMakers, b);
    var alloc := Min(Min(n * mmPct / 100, resting), left0);
    var mmLeft;
    fs, q, mmLeft, c := GroupPass(lv.orders, lv.price, fs0, q1, MarketMakers, alloc, b);
    if mmLeft > 0 { GroupFull(lv.orders, MarketMakers, c); }
    left := left0 - alloc;
  }

  lemma {:induction false} GroupNonneg(q: seq<Order>, g: Group, b: seq<int>)
    requires |b| == |q| && forall i :: 0 <= i < |b| ==> 0 <= b[i] <= q[i].remaining
    ensures GroupSum(q, g, b) <= GroupRem(q, g)
  {
    if q != [] { GroupNonneg(q[1..], g, b[1..]); }
  }

  /**
    The first top order is served with up to topPct per cent, market makers with up to mmPct
    per cent of the original quantity, and the rest goes to everyone in time priority.
   */
  method TopLmmMatch(lv: Level, remaining: int, topPct: int, mmPct: int) returns (fs: seq<Fill>, q: seq<Order>, left: int)
    requires Ready(lv) && 0 <= topPct <= 100 && 0 <= mmPct <= 100
    ensures Matched(lv, remaining, fs, q, left) && UniqueEntries(fs)
    ensures remaining > 0 && lv.orders != [] ==> TopThenMm(lv.orders, remaining, topPct, mmPct, Gifts(lv.orders, fs))
    ensures remaining > 0 && lv.orders != [] ==> LedBy(lv.orders, fs, TopLeader(lv.orders, remaining, topPct, mmPct))
  {
    hide Heads, LedBy, FirstId, TopLeader;
    fs, q, left := [], lv.orders, remaining;
    assert Wound(q, []) == q;
    if remaining <= 0 || lv.orders == [] { return; }
    ghost var b, c, a;
    fs, q, b := TopPass(lv, remaining, topPct);
    left := remaining - TopDue(lv.orders, remaining, topPct);
    ghost var fs0 := fs;
    fs, q, left, c := MmPass(lv, remaining, mmPct, fs, q, left, b);
    ghost var fs1, q1 := fs, q;
    fs, q, left, a := GroupPass(lv.orders, lv.price, fs, q, Everyone, left, c);
    TopLead(lv, remaining, topPct, mmPct, fs0, b, fs1, q1, c, fs, q, a, left);
    TopDone(lv, remaining, topPct, mmPct, b, c, fs, q, left, a);
  }

  /** The three passes of FifoTopLmmMatch put together. */
  lemma TopDone(lv: Level, n: int, topPct: int, mmPct: int, b: seq<int>, c: seq<int>, fs: seq<Fill>, q: seq<Order>, left: int, a: seq<int>)
    requires Ready(lv) && n > 0 && GroupFirst(lv.orders, TopGroup(lv.orders), TopDue(lv.orders, n, topPct), b)
    requires MmThenAll(lv.orders, n, mmPct, b, c, a) && Running(lv.orders, lv.price, fs, q, a) && 0 <= left && SumInt(a) == n - left
    requires left > 0 ==> forall i :: 0 <= i < |lv.orders| && Everyone.Has(lv.orders[i]) ==> a[i] == lv.orders[i].remaining
    ensures Matched(lv, n, fs, q, left) && UniqueEntries(fs) && TopThenMm(lv.orders, n, topPct, mmPct, Gifts(lv.orders, fs))
  {
    hide Running, Matched, Gifts, MmDue, TopDue, TopGroup, GroupFirst, SumInt;
    SumWithin(lv.orders, a);
    RunningMatched(lv, n, fs, q, a);
  }

  /** Whom the entries of FifoTopLmmMatch begin with. */
  function TopLeader(q: seq<Order>, n: int, topPct: int, mmPct: int): nat {
    if TopDue(q, n, topPct) > 0 then FirstTop(q) else MmLeader(q, n, mmPct)
  }

  lemma TopLead(lv: Level, n: int, topPct: int, mmPct: int, fs0: seq<Fill>, b: seq<int>,
                fs1: seq<Fill>, q1: seq<Order>, c: seq<int>, fs: seq<Fill>, q: seq<Order>, a: seq<int>, left: int)
    requires Ready(lv) && lv.orders != [] && n > 0 && Running(lv.orders, lv.price, fs, q, a) && SumInt(a) == n - left
    requires left > 0 ==> forall i :: 0 <= i < |lv.orders| && Everyone.Has(lv.orders[i]) ==> a[i] == lv.orders[i].remaining
    requires fs0 != [] <==> TopDue(lv.orders, n, topPct) > 0
    requires fs0 != [] ==> LedBy(lv.orders, fs0, FirstTop(lv.orders))
    requires GroupFirst(lv.orders, TopGroup(lv.orders), TopDue(lv.orders, n, topPct), b) && TopDue(lv.orders, n, topPct) >= 0
    requires Running(lv.orders, lv.price, fs1, q1, c) && SumInt(c) == SumInt(b) + MmDue(lv.orders, n, mmPct, b)
    requires Heads(fs0, FirstId(lv.orders, GroupRems(lv.orders, MarketMakers)), fs1)
    requires Heads(fs1, FirstId(lv.orders, GroupRems(lv.orders, Everyone)), fs)
    ensures LedBy(lv.orders, fs, TopLeader(lv.orders, n, topPct, mmPct))
  {
    assert Everyone.Has(lv.orders[0]);
    EveryoneFirst(lv.orders);
    GroupShows(lv.orders, MarketMakers);
    NoneGiven(lv.orders, lv.price, fs, a);
    NoneGiven(lv.orders, lv.price, fs1, c);
    if fs0 == [] { NothingFirst(lv.orders, b); }
    HeadsLead(lv.orders, fs1, if fs0 != [] then FirstTop(lv.orders) else FirstPos(GroupRems(lv.orders, MarketMakers)), 0, fs);
  }

  lemma NothingFirst(q: seq<Order>, b: seq<int>)
    requires |b| == |q| && SumInt(b) == 0 && forall i :: 0 <= i < |b| ==> b[i] >= 0
    ensures GroupSum(q, MarketMakers, b) == 0
  {
    AllZero(b);
    GroupSumZero(q, MarketMakers, b);
  }

  lemma {:induction false} AllZero(b: seq<int>)
    requires SumInt(b) <= 0 && forall i :: 0 <= i < |b| ==> b[i] >= 0
    ensures SumInt(b) == 0 && forall i :: 0 <= i < |b| ==> b[i] == 0
  {
    if b != [] {
      if SumInt(b[1..]) > 0 { assert false; }
      AllZero(b[1..]);
    }
  }

  /** The entitlements: the top order and the market makers get at least their capped shares. */
  lemma TopThenMmEntitles(q: seq<Order>, n: int, topPct: int, mmPct: int, a: seq<int>)
    requires NoDup(q) && AllPositive(q) && n > 0 && 0 <= topPct <= 100 && 0 <= mmPct <= 100
    requires TopThenMm(q, n, topPct, mmPct, a)
    ensures FirstTop(q) < |q| ==> a[FirstTop(q)] >= Min(n * topPct / 100, q[FirstTop(q)].remaining)
    ensures GroupSum(q, MarketMakers, a) >=
      Min(Min(n * mmPct / 100, GroupRem(q, MarketMakers)), n - TopDue(q, n, topPct))
  {
    var b, c :| GroupFirst(q, TopGroup(q), TopDue(q, n, topPct), b) && MmThenAll(q, n, mmPct, b, c, a);
    var i := FirstTop(q);
    if i < |q| { OnlyGiven(q, i, b); }
    GroupSumMono(q, MarketMakers, c, a);
    GroupGain(q, MarketMakers, b, c);
    GroupSumZero(q, MarketMakers, seq(|q|, k => 0));
    GroupSumMono(q, MarketMakers, seq(|q|, k => 0), b);
  }

  /** Nobody outside the group gained, so the whole gain is the group's. */
  lemma {:induction false} GroupGain(q: seq<Order>, g: Group, b: seq<int>, c: seq<int>)
    requires |b| == |c| == |q| && forall i :: 0 <= i < |q| && !g.Has(q[i]) ==> c[i] == b[i]
    ensures GroupSum(q, g, c) - GroupSum(q, g, b) == SumInt(c) - SumInt(b)
  {
    if q != [] { GroupGain(q[1..], g, b[1..], c[1..]); }
  }

  lemma OnlyGiven(q: seq<Order>, i: nat, b: seq<int>)
    requires NoDup(q) && i < |q| && ToppedUpIn(q, Just(q[i].id), seq(|q|, k => 0), b)
    ensures b[i] == SumInt(b)
  {
    SumIntZero(|q|);
    SumIntUpdate(seq(|q|, k => 0), i, b[i]);
    assert b == seq(|q|, k => 0)[i := b[i]];
  }
}
