/**
  When the fill buffer is too small.  match_order (exchange-core/matching_engine.h) hands every policy a
  buffer of 256 results and no policy looks at its size, so a level writes past it exactly when it has
  more fills than that.
 */
module Overruns {
  import opened Types
  import opened Queues
  import opened Levels
  import opened Tape
  import opened Ledger
  import opened EngineState
  import opened Steps
  import opened Trading
  import opened Alloc
  import opened ProRata
  import opened Priority
  import opened Split
  import opened Policies
  import opened Determined
  import opened Progress
  import opened Lifecycle
  import opened Room
  import opened Opening
  import opened Runs

  // ---------------------------------------------------------------- exactly when

  /** In time priority m places are enough exactly when there are no more orders, or the first m of
      them show all that is asked for. */
  lemma {:induction false} FifoFits(q: seq<Order>, price: int, n: int, m: nat)
    requires AllPositive(q) && n >= 0
    ensures |FifoFills(q, price, n)| <= m <==> |q| <= m || n <= SumRem(q[..m])
  {
    if |q| <= m {
      if q != [] && n > 0 { FifoNames(q, price, n, 0); }
    } else if m == 0 {
      assert SumRem(q[..0]) == 0;
    } else {
      assert q[..m][1..] == q[1..][..m-1];
      SumRemNonneg(q[1..][..m-1]);
      if n > 0 { FifoFits(q[1..], price, n - Min(n, q[0].remaining), m - 1); }
    }
  }

  /** A policy's answer to every quantity a level can be asked for. */
  ghost predicate Plays(p: Policy, lv: Level, writes: int -> seq<Fill>) {
    forall n :: n > 0 ==> Plans(p, lv, n, writes(n))
  }

  lemma {:induction false} ServedTail(c: seq<int>, k: nat)
    requires k <= |c| && forall i :: 0 <= i < k ==> c[i] <= 0
    ensures Served(c) <= |c| - k && (Served(c) == |c| - k <==> forall i :: k <= i < |c| ==> c[i] > 0)
  {
    if c != [] {
      ServedTail(c[1..], if k > 0 then k - 1 else 0);
      assert forall i :: 0 < i < |c| ==> c[i] == c[1..][i - 1];
      if Served(c) == |c| - k {
        forall i | k <= i < |c| ensures c[i] > 0 { if i > 0 { assert c[i] == c[1..][i - 1]; } }
      }
    }
  }

  /** Of f lots in time priority and m after them, the first end inside an order and the others serve
      everyone they find. */
  ghost predicate Doubles(q: seq<Order>, f: int, m: int) {
    EndsInside(q, f) && exists c :: Proportional(After(q, f), m, c) && |c| == |q| && ServesLeft(q, f, c)
  }

  ghost predicate ServesLeft(q: seq<Order>, f: int, c: seq<int>)
    requires |c| == |q|
  {
    forall i :: 0 <= i < |q| && After(q, f)[i].remaining > 0 ==> c[i] > 0
  }

  /** The entries of a split of f lots and m lots. */
  lemma SplitCounts(lv: Level, f: int, m: int, a: seq<int>)
    requires Ready(lv) && 0 <= f && 0 <= m && f + m <= lv.total && SplitGifts(lv.orders, f, m, a)
    ensures ServedTwice(lv.orders, f, a) <= |lv.orders| + 1
    ensures ServedTwice(lv.orders, f, a) == |lv.orders| + 1 <==> Doubles(lv.orders, f, m)
  {
    var q := lv.orders;
    hide EndsInside, Proportional, After, FifoDue, ServesLeft, Served, FifoFills;
    var c :| Proportional(After(q, f), m, c) && |c| == |q| && forall i :: 0 <= i < |q| ==> a[i] == FifoDue(q, f, i) + c[i];
    assert c == seq(|q|, i requires 0 <= i < |q| => a[i] - FifoDue(q, f, i));
    FifoServed(q, lv.price, f);
    TwoPhases(lv, f, m, c);
    forall d | Proportional(After(q, f), m, d) ensures d == c { RestUnique(After(q, f), m, d, c); }
  }

  /** What the first part of a split comes to. */
  function Front(lv: Level, n: int, pct: int): int { Min(n, lv.total) * pct / 100 }

  /** t lots of the level make the split write one entry more than there are orders. */
  ghost predicate OneOver(lv: Level, t: int, pct: int) {
    0 < t <= lv.total && Doubles(lv.orders, Front(lv, t, pct), t - Front(lv, t, pct))
  }

  lemma SplitNeeds(lv: Level, n: int, pct: int, fs: seq<Fill>)
    requires Ready(lv) && lv.orders != [] && 0 <= pct <= 100 && n > 0 && Plans(SplitFifo(pct), lv, n, fs)
    ensures |fs| <= |lv.orders| + 1
    ensures |fs| == |lv.orders| + 1 <==> OneOver(lv, Min(n, lv.total), pct)
  {
    hide Plans, Doubles, SplitGifts, ServedTwice;
    ShowsSomething(lv.orders);
    Parts(Min(n, lv.total), pct);
    SplitPlanned(lv, n, pct, fs);
    SplitCounts(lv, Front(lv, n, pct), Min(n, lv.total) - Front(lv, n, pct), Gifts(lv.orders, fs));
  }

  lemma SplitPlanned(lv: Level, n: int, pct: int, fs: seq<Fill>)
    requires Plans(SplitFifo(pct), lv, n, fs)
    ensures var f := Front(lv, n, pct);
      SplitGifts(lv.orders, f, Min(n, lv.total) - f, Gifts(lv.orders, fs)) && |fs| == ServedTwice(lv.orders, f, Gifts(lv.orders, fs))
  {
    hide SplitGifts, Allocates, ServedTwice, WholeEntries;
  }

  lemma TwoPhases(lv: Level, f: int, m: int, c: seq<int>)
    requires Ready(lv) && 0 <= f && 0 <= m && f + m <= lv.total && Proportional(After(lv.orders, f), m, c) && |c| == |lv.orders|
    ensures var k := |FifoFills(lv.orders, lv.price, f)| + Served(c);
      && k <= |lv.orders| + 1 && (k == |lv.orders| + 1 <==> EndsInside(lv.orders, f) && ServesLeft(lv.orders, f, c))
  {
    var q := lv.orders;
    RestBegins(q, lv.price, f);
    forall i | 0 <= i < |q| ensures c[i] <= After(q, f)[i].remaining {}
    hide After, EndsInside, FifoFills, Proportional;
    ServedTail(c, RestFrom(q, lv.price, f));
  }

  /** The places a level needs for every quantity it can be asked for. */
  ghost function Needs(p: Policy, lv: Level): nat {
    |lv.orders| + if p.SplitFifo? && exists t :: OneOver(lv, t, p.pct) then 1 else 0
  }

  /** For every policy the buffer has room for all quantities exactly when the level needs no more than
      256 places: one for each order and, for a split, one more where an order may be served twice while
      no other goes without. */
  lemma LevelRoom(p: Policy, lv: Level, writes: int -> seq<Fill>)
    requires Ready(lv) && lv.orders != [] && p.Valid() && Plays(p, lv, writes)
    ensures (forall n :: n > 0 ==> |writes(n)| <= MAX_FILLS) <==> Needs(p, lv) <= MAX_FILLS
    ensures |lv.orders| <= PerPrice(p) ==> Needs(p, lv) <= MAX_FILLS
  {
    hide Plans, Doubles, Front;
    ShowsSomething(lv.orders);
    assert Plans(p, lv, lv.total, writes(lv.total));
    PlanCounts(p, lv, lv.total, writes(lv.total));
    forall n | n > 0 ensures |writes(n)| <= Needs(p, lv) {
      assert Plans(p, lv, n, writes(n));
      PlanCounts(p, lv, n, writes(n));
      if p.SplitFifo? { SplitNeeds(lv, n, p.pct, writes(n)); }
    }
    if p.SplitFifo? {
      forall t | OneOver(lv, t, p.pct)
        ensures |writes(t)| == |lv.orders| + 1 && p.Extra() == 1
      {
        assert Plans(p, lv, t, writes(t));
        SplitNeeds(lv, t, p.pct, writes(t));
        PlanCounts(p, lv, t, writes(t));
      }
    }
  }

  lemma PlanCounts(p: Policy, lv: Level, n: int, fs: seq<Fill>)
    requires Plans(p, lv, n, fs)
    ensures |fs| <= |lv.orders| + p.Extra() && (n >= lv.total ==> |fs| >= |lv.orders|)
  {
    hide EndsInside, Follows, Allocates;
  }

  // ---------------------------------------------------------------- books that overrun it

  const WIDE := Limits(300, 2, 400, 0, 0)

  /** An ask of `first` lots with k asks of one lot behind it. */
  function Asks(first: int, k: nat): State {
    if k == 0 then Entered(BeforeOpen(WIDE), At10(Sell, first, 0)) else Entered(Asks(first, k - 1), At10(Sell, 1, 0))
  }

  /** The same once the market is open. */
  function Crowded(first: int, k: nat): State { EnterState(Asks(first, k), Continuous, true) }

  ghost predicate Lots(q: seq<Order>, first: int, k: nat) {
    |q| == k + 1 && q[0].remaining == first && forall i :: 0 < i < |q| ==> q[i].remaining == 1
  }

  lemma {:induction false} AsksAre(policy: Policy, first: int, k: nat) returns (q: seq<Order>)
    requires first > 0 && k < 299
    ensures var s := Asks(first, k);
      && Inv(WIDE, s, multiset{}) && MirrorsBook(s) && s.asks == [MkLevel(10, q)] && Lots(q, first, k)
      && s.nextId == k + 2 && s.freeOrders == 299 - k && s.freeLevels == 1 && s.session == PreOpen && s.lastTrade == 0
      && s.ledger == Ledger([], [], []) && s.bids == []
  {
    hide Inv, MirrorsBook, Entered;
    var r := Plain(WIDE, policy);
    if k == 0 {
      var s0, req := BeforeOpen(WIDE), At10(Sell, first, 0);
      EmptyInv(r);
      EnteredInv(r, s0, req);
      FirstIn(Sell, s0, req);
      q := [OrderOf(req, 1)];
    } else {
      var q0 := AsksAre(policy, first, k - 1);
      var s0, req := Asks(first, k - 1), At10(Sell, 1, 0);
      EnteredInv(r, s0, req);
      EnteredAside(s0, req);
      NextIn(Sell, s0, req, q0);
      q := q0 + [OrderOf(req, s0.nextId)];
    }
  }

  lemma LotsSum(q: seq<Order>, first: int, k: nat)
    requires Lots(q, first, k)
    ensures SumRem(q) == first + k
  {
    Ones(q[1..]);
  }

  lemma {:induction false} Ones(q: seq<Order>)
    requires forall i :: 0 <= i < |q| ==> q[i].remaining == 1
    ensures SumRem(q) == |q|
  {
    if q != [] { Ones(q[1..]); }
  }

  lemma CrowdedIs(policy: Policy, first: int, k: nat) returns (lv: Level)
    requires first > 0 && k < 299
    ensures var s := Crowded(first, k);
      && Inv(WIDE, s, multiset{}) && MirrorsBook(s) && s.session == Continuous && s.asks == [lv] && s.bids == []
      && Ready(lv) && Lots(lv.orders, first, k) && lv.total == first + k
  {
    hide Inv, MirrorsBook, Asks, Lots;
    var q := AsksAre(policy, first, k);
    EnterKeeps(WIDE, Asks(first, k), Continuous, true);
    lv := MkLevel(10, q);
    LotsSum(q, first, k);
    LevelReady(WIDE, Crowded(first, k), lv);
  }

  lemma LevelReady(lim: Limits, s: State, lv: Level)
    requires Inv(lim, s, multiset{}) && s.asks == [lv]
    ensures Ready(lv)
  {
    assert lv in s.asks;
    UniqueInQueue(lim, s, multiset{}, Sell, 0);
  }

  /** On a book of 257 orders of one lot each, which the engine reaches, a buy of all of them makes
      every policy write past the buffer. */
  lemma BufferOverrun(p: Policy, fs: seq<Fill>)
    requires p.Valid() && Crowded(1, 256).asks != [] && Plans(p, Crowded(1, 256).asks[0], 257, fs)
    ensures Inv(WIDE, Crowded(1, 256), multiset{}) && !Roomy(p, Crowded(1, 256)) && |fs| > MAX_FILLS
  {
    hide Inv, Crowded, Crowd, EndsInside, Allocates;
    var lv := CrowdedIs(p, 1, 256);
    InvShape(WIDE, Crowded(1, 256), multiset{});
    CrowdAtBest(WIDE, Crowded(1, 256), multiset{}, Sell);
  }

  /** One order of 30000 lots and 255 of one: a split in two real parts writes past it with 256 orders. */
  lemma SplitOverrun(pct: int, fs: seq<Fill>)
    requires 0 < pct < 100 && Crowded(30000, 255).asks != [] && Plans(SplitFifo(pct), Crowded(30000, 255).asks[0], 30255, fs)
    ensures Inv(WIDE, Crowded(30000, 255), multiset{}) && |Crowded(30000, 255).asks[0].orders| == 256 && |fs| > MAX_FILLS
  {
    hide Inv, Crowded, Allocates;
    var lv := CrowdedIs(SplitFifo(pct), 30000, 255);
    var f := 30255 * pct / 100;
    assert SumRem(lv.orders[..0]) == 0 && 0 < f < 30000;
    assert 0 < FifoDue(lv.orders, f, 0) < lv.orders[0].remaining;
    assert EndsInside(lv.orders, f);
  }
}
