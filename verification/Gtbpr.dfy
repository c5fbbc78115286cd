/**
  ICE's gradual time-based pro-rata policy (ice/gtbpr_match.h), with weights as exact
  rationals in place of floating point.
 */
module Gtbpr {
  import opened Types
  import opened Queues
  import opened Alloc
  import opened ProRata

  const NS_PER_SEC: real := 1000000000.0

  datatype Config = Config(collar: int, cap: int, factor: real)

  /** The defaults of GtbprMatch::Config. */
  const DEFAULT_CONFIG := Config(50000, 2000000, 0.1)

  // ---------------------------------------------------------------- what it computes

  /** The first order large enough for priority, or |q|. */
  function PriorityIndex(q: seq<Order>, collar: int): (i: nat)
    ensures i <= |q|
    ensures forall k :: 0 <= k < i ==> q[k].remaining < collar
    ensures i < |q| ==> q[i].remaining >= collar
  {
    if q == [] || q[0].remaining >= collar then 0 else 1 + PriorityIndex(q[1..], collar)
  }

  /** Lots the priority order gets off the top. */
  function PriorityFill(q: seq<Order>, t: int, cfg: Config): int {
    var i := PriorityIndex(q, cfg.collar);
    if i < |q| then Min(Min(cfg.cap, t), q[i].remaining) else 0
  }

  /** What the k-th order still shows after the priority fill. */
  function Effective(q: seq<Order>, t: int, cfg: Config, k: nat): int
    requires k < |q|
  {
    q[k].remaining - if k == PriorityIndex(q, cfg.collar) then PriorityFill(q, t, cfg) else 0
  }

  /** The age bonus: 1 + factor per second of age. */
  function TimeWeight(o: Order, now: int, factor: real): real {
    var age := (now - o.timestamp) as real / NS_PER_SEC;
    1.0 + factor * if age < 0.0 then 0.0 else age
  }

  function Weight(q: seq<Order>, t: int, cfg: Config, now: int, k: nat): real
    requires k < |q|
  {
    var e := Effective(q, t, cfg, k);
    if e <= 0 then 0.0 else e as real * TimeWeight(q[k], now, cfg.factor)
  }

  function Weights(q: seq<Order>, t: int, cfg: Config, now: int): seq<real> {
    seq(|q|, k requires 0 <= k < |q| => Weight(q, t, cfg, now, k))
  }

  function Effectives(q: seq<Order>, t: int, cfg: Config): seq<int> {
    seq(|q|, k requires 0 <= k < |q| => Effective(q, t, cfg, k))
  }

  function SumTo(ws: seq<real>, n: nat): real
    requires n <= |ws|
  {
    if n == 0 then 0.0 else SumTo(ws, n - 1) + ws[n - 1]
  }

  /** A weight's part of the pool, floored and capped; nothing for an order showing nothing. */
  function Quota(w: real, all: real, pool: int, e: int): (s: int)
    requires all > 0.0
    ensures 0 <= s && (e >= 0 ==> s <= e)
  {
    if e <= 0 then 0
    else
      var s := Min((w / all * pool as real).Floor, e);
      if s <= 0 then 0 else s
  }

  /** Everybody's quota of a pool. */
  ghost function Quotas(ws: seq<real>, es: seq<int>, pool: int): seq<int>
    requires |ws| == |es|
  {
    if pool <= 0 || SumTo(ws, |ws|) <= 0.0 then seq(|ws|, k => 0)
    else seq(|ws|, k requires 0 <= k < |ws| => Quota(ws[k], SumTo(ws, |ws|), pool, es[k]))
  }

  /** What priority and time-weighted shares give, before what is left over. */
  ghost function TimedBases(q: seq<Order>, t: int, cfg: Config, now: int): seq<int> {
    var quotas := Quotas(Weights(q, t, cfg, now), Effectives(q, t, cfg), t - PriorityFill(q, t, cfg));
    seq(|q|, k requires 0 <= k < |q| => q[k].remaining - Effective(q, t, cfg, k) + quotas[k])
  }

  /** Left-over lots went round and round, one lot an order a pass, skipping the full: after
      `p` whole passes and `i` orders of the next, nobody is more than a lot ahead. */
  ghost predicate RoundRobinAt(q: seq<Order>, b: seq<int>, a: seq<int>, p: nat, i: nat) {
    && |a| == |b| == |q| && i <= |q|
    && (forall k :: 0 <= k < |q| ==> b[k] <= a[k] <= q[k].remaining)
    && (forall k :: 0 <= k < |q| ==>
         var laps := if k < i then p + 1 else p;
         a[k] == b[k] + laps || (a[k] == q[k].remaining && a[k] <= b[k] + laps))
  }

  ghost predicate RoundRobin(q: seq<Order>, b: seq<int>, a: seq<int>) {
    exists p: nat, i: nat :: RoundRobinAt(q, b, a, p, i)
  }

  // ---------------------------------------------------------------- arithmetic

  lemma TimeWeightPositive(o: Order, now: int, factor: real)
    requires factor >= 0.0
    ensures TimeWeight(o, now, factor) >= 1.0
  {
    var age := (now - o.timestamp) as real / NS_PER_SEC;
    if age >= 0.0 { RealMulNonneg(factor, age); }
  }

  lemma RealMulNonneg(x: real, y: real)
    requires x >= 0.0 && y >= 0.0
    ensures x * y >= 0.0
  {
  }

  lemma WeightNonneg(q: seq<Order>, t: int, cfg: Config, now: int, k: nat)
    requires k < |q| && cfg.factor >= 0.0
    ensures Weight(q, t, cfg, now, k) >= 0.0
    ensures Effective(q, t, cfg, k) > 0 ==> Weight(q, t, cfg, now, k) > 0.0
  {
    var e := Effective(q, t, cfg, k);
    if e > 0 {
      TimeWeightPositive(q[k], now, cfg.factor);
      RealMulNonneg(e as real, TimeWeight(q[k], now, cfg.factor) - 1.0);
      assert e as real * TimeWeight(q[k], now, cfg.factor) == e as real * (TimeWeight(q[k], now, cfg.factor) - 1.0) + e as real;
    }
  }

  lemma {:induction false} SumToMono(ws: seq<real>, m: nat, n: nat)
    requires m <= n <= |ws| && forall k :: 0 <= k < |ws| ==> ws[k] >= 0.0
    ensures 0.0 <= SumTo(ws, m) <= SumTo(ws, n)
    decreases n
  {
    if n > 0 {
      if m < n { SumToMono(ws, m, n - 1); } else { SumToMono(ws, n - 1, n - 1); }
    }
  }

  /** A floored share times the whole is at most the weight times the pool. */
  lemma QuotaBound(w: real, all: real, pool: int, e: int)
    requires all > 0.0 && w >= 0.0 && pool >= 0
    ensures Quota(w, all, pool, e) as real * all <= w * pool as real
  {
    var x, s := w / all * pool as real, Quota(w, all, pool, e);
    RealMulNonneg(w, pool as real);
    if s > 0 {
      assert s as real <= x;
      assert (x - s as real) * all >= 0.0;
      assert w / all * all == w;
      assert x * all == (w / all * all) * pool as real;
    }
  }

  ghost function QuotaTo(ws: seq<real>, es: seq<int>, all: real, pool: int, n: nat): int
    requires |ws| == |es| && n <= |ws| && all > 0.0
  {
    if n == 0 then 0 else QuotaTo(ws, es, all, pool, n - 1) + Quota(ws[n - 1], all, pool, es[n - 1])
  }

  lemma {:induction false} QuotaToBound(ws: seq<real>, es: seq<int>, all: real, pool: int, n: nat)
    requires |ws| == |es| && n <= |ws| && all > 0.0 && pool >= 0 && forall k :: 0 <= k < |ws| ==> ws[k] >= 0.0
    ensures QuotaTo(ws, es, all, pool, n) as real * all <= SumTo(ws, n) * pool as real
  {
    if n > 0 {
      QuotaToBound(ws, es, all, pool, n - 1);
      QuotaBound(ws[n - 1], all, pool, es[n - 1]);
      AddBound(QuotaTo(ws, es, all, pool, n - 1), Quota(ws[n - 1], all, pool, es[n - 1]), all,
               SumTo(ws, n - 1), ws[n - 1], pool as real);
    }
  }

  lemma AddBound(x: int, y: int, all: real, u: real, v: real, p: real)
    requires x as real * all <= u * p && y as real * all <= v * p
    ensures (x + y) as real * all <= (u + v) * p
  {
    assert (x + y) as real * all == x as real * all + y as real * all;
    assert (u + v) * p == u * p + v * p;
  }

  lemma RealCancel(x: int, y: int, c: real)
    requires c > 0.0 && x as real * c <= c * y as real
    ensures x <= y
  {
  }

  // ---------------------------------------------------------------- phases

  /** Phase 1: the priority order. */
  method PriorityPass(q: seq<Order>, price: int, t: int, cfg: Config) returns (fs: seq<Fill>, pool: int, i: nat, ghost a: seq<int>)
    requires NoDup(q) && AllPositive(q) && t > 0 && cfg.cap >= 0
    ensures i == PriorityIndex(q, cfg.collar)
    ensures Draft(q, price, fs, a) && pool == t - PriorityFill(q, t, cfg) && SumInt(a) == PriorityFill(q, t, cfg)
    ensures |a| == |q| && forall k :: 0 <= k < |q| ==> a[k] == q[k].remaining - Effective(q, t, cfg, k)
    ensures 0 <= PriorityFill(q, t, cfg) <= t && forall k :: 0 <= k < |q| ==> Effective(q, t, cfg, k) >= 0
    ensures if PriorityFill(q, t, cfg) > 0 then LedBy(q, fs, PriorityIndex(q, cfg.collar)) else fs == []
  {
    fs, pool, i, a := [], t, 0, seq(|q|, k => 0);
    NoDraft(q, price);
    SumIntZero(|q|);
    while i < |q| && q[i].remaining < cfg.collar
      invariant 0 <= i <= |q| && forall k :: 0 <= k < i ==> q[k].remaining < cfg.collar
    {
      i := i + 1;
    }
    assert i == PriorityIndex(q, cfg.collar);
    if i < |q| {
      var fill := Min(Min(cfg.cap, pool), q[i].remaining);
      if fill > 0 {
        SumIntUpdate(a, i, a[i] + fill);
        fs := Credit(q, price, fs, i, fill, a);
        a := a[i := a[i] + fill];
        pool := pool - fill;
      }
    }
  }

  method TotalWeight(ws: seq<real>) returns (w: real)
    ensures w == SumTo(ws, |ws|)
  {
    w := 0.0;
    for i := 0 to |ws|
      invariant w == SumTo(ws, i)
    {
      w := w + ws[i];
    }
  }

  /** Something still shows beyond the priority fill, so the total weight is positive. */
  lemma WeightPositive(q: seq<Order>, t: int, cfg: Config, now: int, b: seq<int>)
    requires AllPositive(q) && cfg.factor >= 0.0 && |b| == |q|
    requires forall k :: 0 <= k < |q| ==> b[k] == q[k].remaining - Effective(q, t, cfg, k) && Effective(q, t, cfg, k) >= 0
    requires SumInt(b) < SumRem(q)
    ensures SumTo(Weights(q, t, cfg, now), |q|) > 0.0
    ensures forall k :: 0 <= k < |q| ==> Weights(q, t, cfg, now)[k] >= 0.0
  {
    var ws := Weights(q, t, cfg, now);
    forall k | 0 <= k < |q| ensures ws[k] >= 0.0 { WeightNonneg(q, t, cfg, now, k); }
    SumWithin(q, b);
    var k :| 0 <= k < |q| && b[k] != q[k].remaining;
    WeightNonneg(q, t, cfg, now, k);
    SumToMono(ws, k, k);
    SumToMono(ws, k + 1, |q|);
  }

  /** The quotas of a pool: floors, so never more than the pool together. */
  method TimedShares(ws: seq<real>, es: seq<int>, pool: int) returns (ss: seq<int>)
    requires |ws| == |es| && SumTo(ws, |ws|) > 0.0 && pool > 0
    requires forall k :: 0 <= k < |ws| ==> ws[k] >= 0.0
    ensures ss == Quotas(ws, es, pool) && SumInt(ss) <= pool
    ensures forall k :: 0 <= k < |ss| ==> 0 <= ss[k] && (es[k] >= 0 ==> ss[k] <= es[k])
  {
    var all := TotalWeight(ws);
    ss := [];
    for i := 0 to |ws|
      invariant |ss| == i && forall k :: 0 <= k < i ==> ss[k] == Quota(ws[k], all, pool, es[k])
      invariant SumInt(ss) == QuotaTo(ws, es, all, pool, i)
    {
      SumIntSnoc(ss, Quota(ws[i], all, pool, es[i]));
      ss := ss + [Quota(ws[i], all, pool, es[i])];
    }
    QuotasWithin(ws, es, all, pool);
  }

  lemma QuotasWithin(ws: seq<real>, es: seq<int>, all: real, pool: int)
    requires |ws| == |es| && all == SumTo(ws, |ws|) > 0.0 && pool >= 0 && forall k :: 0 <= k < |ws| ==> ws[k] >= 0.0
    ensures QuotaTo(ws, es, all, pool, |ws|) <= pool
  {
    QuotaToBound(ws, es, all, pool, |ws|);
    RealCancel(QuotaTo(ws, es, all, pool, |ws|), pool, all);
  }

  lemma {:induction false} SumIntSnoc(a: seq<int>, x: int)
    ensures SumInt(a + [x]) == SumInt(a) + x
  {
    if a == [] {
      assert a + [x] == [x];
    } else {
      assert (a + [x])[1..] == a[1..] + [x];
      SumIntSnoc(a[1..], x);
    }
  }

  /** Phase 2: time-weighted shares of the pool. */
  method TimedPass(q: seq<Order>, price: int, fs0: seq<Fill>, ss: seq<int>, ghost b: seq<int>)
    returns (fs: seq<Fill>, given: int, ghost a: seq<int>)
    requires NoDup(q) && Draft(q, price, fs0, b) && |ss| == |q| && forall k :: 0 <= k < |q| ==> 0 <= ss[k]
    ensures Draft(q, price, fs, a) && given == SumInt(a) - SumInt(b) == SumInt(ss)
    ensures forall k :: 0 <= k < |q| ==> a[k] == b[k] + ss[k]
    ensures Heads(fs0, FirstId(q, ss), fs)
  {
    hide Heads, FirstId;
    fs, given, a := fs0, 0, b;
    HeadsSame(fs0, FirstId(q, ss));
    assert ss[..0] == [] && ss[..|ss|] == ss;
    for i := 0 to |q|
      invariant Draft(q, price, fs, a) && given == SumInt(a) - SumInt(b) == SumInt(ss[..i])
      invariant forall k :: 0 <= k < |q| ==> a[k] == b[k] + if k < i then ss[k] else 0
      invariant Heads(fs0, FirstId(q, ss), fs)
    {
      assert ss[..i+1] == ss[..i] + [ss[i]];
      SumIntSnoc(ss[..i], ss[i]);
      if ss[i] > 0 {
        SumIntUpdate(a, i, a[i] + ss[i]);
        TimedHead(q, price, fs0, b, fs, a, ss, i);
        ghost var fs1 := fs;
        fs := Credit(q, price, fs, i, ss[i], a);
        HeadsOn(fs0, FirstId(q, ss), fs1, fs);
        a := a[i := a[i] + ss[i]];
        given := given + ss[i];
      }
    }
  }

  lemma TimedHead(q: seq<Order>, price: int, fs0: seq<Fill>, b: seq<int>, fs: seq<Fill>, a: seq<int>, ss: seq<int>, i: nat)
    requires Draft(q, price, fs0, b) && Draft(q, price, fs, a) && Heads(fs0, FirstId(q, ss), fs) && i < |q| == |ss| && ss[i] > 0
    requires forall k :: 0 <= k < i ==> a[k] == b[k] + ss[k]
    ensures fs == [] ==> FirstId(q, ss) == q[i].id
  {
    NoneGiven(q, price, fs0, b);
    NoneGiven(q, price, fs, a);
  }

  /** Phase 3: what is left over goes round one lot at a time. */
  method LapPass(q: seq<Order>, price: int, fs0: seq<Fill>, extra: int, ghost b: seq<int>)
    returns (fs: seq<Fill>, ghost a: seq<int>)
    requires NoDup(q) && Draft(q, price, fs0, b) && 0 <= extra && SumInt(b) + extra <= SumRem(q)
    requires forall k :: 0 <= k < |q| ==> b[k] <= q[k].remaining
    ensures Draft(q, price, fs, a) && RoundRobin(q, b, a) && SumInt(a) == SumInt(b) + extra
    ensures Heads(fs0, FirstId(q, Rems(q)), fs)
  {
    hide Heads, FirstId;
    HeadsSame(fs0, FirstId(q, Rems(q)));
    fs, a := fs0, b;
    var remainder := extra;
    ghost var p: nat := 0;
    ghost var i: nat := 0;
    assert RoundRobinAt(q, b, a, 0, 0);
    while remainder > 0
      invariant 0 <= remainder && SumInt(a) == SumInt(b) + extra - remainder
      invariant Draft(q, price, fs, a) && RoundRobinAt(q, b, a, p, i)
      invariant remainder > 0 ==> i == 0
      invariant Heads(fs0, FirstId(q, Rems(q)), fs)
    {
      SumWithin(q, a);
      var before := remainder;
      ghost var fs1 := fs;
      fs, remainder, a, i := OneLap(q, price, fs, remainder, b, a, p);
      HeadsTrans(fs0, FirstId(q, Rems(q)), fs1, fs);
      if before - remainder == 0 {
        assert false;
        break;
      }
      if remainder > 0 {
        assert RoundRobinAt(q, b, a, p + 1, 0);
        p, i := p + 1, 0;
      }
    }
    assert RoundRobinAt(q, b, a, p, i);
  }

  /** One pass over the queue; it hands out something if anybody can take it. */
  method OneLap(q: seq<Order>, price: int, fs0: seq<Fill>, remainder: int, ghost b: seq<int>, ghost a0: seq<int>, ghost p: nat)
    returns (fs: seq<Fill>, left: int, ghost a: seq<int>, ghost stop: nat)
    requires NoDup(q) && Draft(q, price, fs0, a0) && RoundRobinAt(q, b, a0, p, 0) && remainder > 0
    ensures Draft(q, price, fs, a) && RoundRobinAt(q, b, a, p, stop)
    ensures 0 <= left <= remainder && SumInt(a) == SumInt(a0) + remainder - left
    ensures left > 0 ==> stop == |q|
    ensures left == remainder ==> forall k :: 0 <= k < |q| ==> a0[k] == q[k].remaining
    ensures Heads(fs0, FirstId(q, Rems(q)), fs)
  {
    hide Heads, FirstId, Draft, RoundRobinAt, SumInt;
    HeadsSame(fs0, FirstId(q, Rems(q)));
    RobinLength(q, b, a0, p, 0);
    fs, left, a := fs0, remainder, a0;
    var i := 0;
    while i < |q| && left > 0
      invariant 0 <= i <= |q| == |a| && 0 <= left <= remainder
      invariant Draft(q, price, fs, a) && RoundRobinAt(q, b, a, p, i) && SumInt(a) == SumInt(a0) + remainder - left
      invariant left == remainder ==> a == a0 && forall k :: 0 <= k < i ==> a[k] == q[k].remaining
      invariant Heads(fs0, FirstId(q, Rems(q)), fs)
    {
      DraftAt(q, price, fs, a, i);
      RobinStep(q, b, a, p, i);
      var already := Given(fs, q[i].id);
      if q[i].remaining - already > 0 {
        SumIntUpdate(a, i, a[i] + 1);
        LapHead(q, price, fs0, a0, fs, a, i, remainder, left);
        ghost var fs1 := fs;
        fs := Credit(q, price, fs, i, 1, a);
        HeadsOn(fs0, FirstId(q, Rems(q)), fs1, fs);
        a := a[i := a[i] + 1];
        left := left - 1;
      }
      i := i + 1;
    }
    stop := i;
  }

  lemma RobinLength(q: seq<Order>, b: seq<int>, a: seq<int>, p: nat, i: nat)
    requires RoundRobinAt(q, b, a, p, i)
    ensures |a| == |q|
  {
  }

  lemma RobinStep(q: seq<Order>, b: seq<int>, a: seq<int>, p: nat, i: nat)
    requires RoundRobinAt(q, b, a, p, i) && i < |q| == |a|
    ensures a[i] <= q[i].remaining
    ensures RoundRobinAt(q, b, if a[i] < q[i].remaining then a[i := a[i] + 1] else a, p, i + 1)
  {
  }

  lemma LapHead(q: seq<Order>, price: int, fs0: seq<Fill>, a0: seq<int>, fs: seq<Fill>, a: seq<int>, i: nat, remainder: int, left: int)
    requires Draft(q, price, fs0, a0) && Draft(q, price, fs, a) && Heads(fs0, FirstId(q, Rems(q)), fs)
    requires i < |q| && q[i].remaining > a[i] && SumInt(a) == SumInt(a0) + remainder - left
    requires left == remainder ==> forall k :: 0 <= k < i ==> a[k] == q[k].remaining
    ensures fs == [] ==> FirstId(q, Rems(q)) == q[i].id
  {
    NoneGiven(q, price, fs0, a0);
    NoneGiven(q, price, fs, a);
  }

  lemma BasesAre(q: seq<Order>, t: int, cfg: Config, now: int, b: seq<int>, ss: seq<int>, c: seq<int>)
    requires |b| == |ss| == |c| == |q| && forall k :: 0 <= k < |q| ==> b[k] == q[k].remaining - Effective(q, t, cfg, k)
    requires forall k :: 0 <= k < |q| ==> c[k] == b[k] + ss[k]
    requires ss == Quotas(Weights(q, t, cfg, now), Effectives(q, t, cfg), t - PriorityFill(q, t, cfg))
    ensures c == TimedBases(q, t, cfg, now)
  {
    hide Weights, Effectives, Effective, PriorityFill, Quotas;
  }

  method PoolShares(q: seq<Order>, t: int, now: int, cfg: Config, ghost b: seq<int>) returns (ss: seq<int>)
    requires AllPositive(q) && t <= SumRem(q) && cfg.factor >= 0.0
    requires |b| == |q| && SumInt(b) == PriorityFill(q, t, cfg) <= t
    requires forall k :: 0 <= k < |q| ==> b[k] == q[k].remaining - Effective(q, t, cfg, k) && Effective(q, t, cfg, k) >= 0
    ensures ss == Quotas(Weights(q, t, cfg, now), Effectives(q, t, cfg), t - PriorityFill(q, t, cfg))
    ensures |ss| == |q| && SumInt(ss) <= t - PriorityFill(q, t, cfg)
    ensures forall k :: 0 <= k < |q| ==> 0 <= ss[k] <= q[k].remaining - b[k]
  {
    var pool := t - PriorityFill(q, t, cfg);
    ss := seq(|q|, k => 0);
    SumIntZero(|q|);
    if pool > 0 {
      WeightPositive(q, t, cfg, now, b);
      ss := TimedShares(Weights(q, t, cfg, now), Effectives(q, t, cfg), pool);
    }
  }

  /** Whom the entries begin with: the priority order, else the first with a share, else the head. */
  ghost function TimedLeader(q: seq<Order>, t: int, cfg: Config, now: int): nat {
    if PriorityFill(q, t, cfg) > 0 then PriorityIndex(q, cfg.collar) else FirstOf(TimedBases(q, t, cfg, now), 0)
  }

  lemma TimedLead(q: seq<Order>, price: int, t: int, cfg: Config, now: int, fs0: seq<Fill>, b: seq<int>, ss: seq<int>, fs: seq<Fill>, c: seq<int>)
    requires Draft(q, price, fs0, b) && Draft(q, price, fs, c) && |ss| == |q| && Heads(fs0, FirstId(q, ss), fs)
    requires c == TimedBases(q, t, cfg, now) && forall k :: 0 <= k < |q| ==> c[k] == b[k] + ss[k]
    requires if PriorityFill(q, t, cfg) > 0 then LedBy(q, fs0, PriorityIndex(q, cfg.collar)) else fs0 == []
    ensures fs != [] ==> LedBy(q, fs, TimedLeader(q, t, cfg, now))
    ensures fs == [] ==> TimedLeader(q, t, cfg, now) == 0
  {
    hide TimedBases, PriorityFill;
    NoneGiven(q, price, fs0, b);
    NoneGiven(q, price, fs, c);
    if fs0 == [] { assert c == ss; }
  }

  /** Phases 1 and 2, and what they leave over. */
  method TimedDraft(q: seq<Order>, price: int, t: int, now: int, cfg: Config) returns (fs: seq<Fill>, extra: int, ghost c: seq<int>)
    requires NoDup(q) && AllPositive(q) && 0 < t <= SumRem(q) && cfg.factor >= 0.0 && cfg.cap >= 0
    ensures c == TimedBases(q, t, cfg, now) && Draft(q, price, fs, c)
    ensures 0 <= extra == t - SumInt(c) && forall k :: 0 <= k < |q| ==> c[k] <= q[k].remaining
    ensures fs != [] ==> LedBy(q, fs, TimedLeader(q, t, cfg, now))
    ensures fs == [] ==> TimedLeader(q, t, cfg, now) == 0
  {
    hide Heads, LedBy, TimedLeader;
    var pool, i; ghost var b;
    fs, pool, i, b := PriorityPass(q, price, t, cfg);
    var ss := PoolShares(q, t, now, cfg, b);
    var given;
    ghost var fs0 := fs;
    fs, given, c := TimedPass(q, price, fs, ss, b);
    BasesAre(q, t, cfg, now, b, ss, c);
    TimedLead(q, price, t, cfg, now, fs0, b, ss, fs, c);
    extra := pool - given;
  }

  lemma LapsLead(q: seq<Order>, price: int, fs0: seq<Fill>, x: nat, fs: seq<Fill>, a: seq<int>)
    requires q != [] && Draft(q, price, fs, a) && SumInt(a) > 0 && Heads(fs0, q[0].id, fs)
    requires if fs0 != [] then LedBy(q, fs0, x) else x == 0
    ensures LedBy(q, fs, x)
  {
    NoneGiven(q, price, fs, a);
  }

  lemma SameLead(q: seq<Order>, fs: seq<Fill>, gs: seq<Fill>, x: nat)
    requires LedBy(q, fs, x) && SameFills(fs, gs)
    ensures LedBy(q, gs, x)
  {
  }

  /**
    Priority fill, then time-weighted shares, then what is left over lot by lot; together
    exactly min(remaining, visible total).
   */
  method GtbprMatch(lv: Level, remaining: int, now: int, cfg: Config) returns (fs: seq<Fill>, q: seq<Order>, left: int)
    requires Ready(lv) && cfg.factor >= 0.0 && cfg.cap >= 0
    ensures Matched(lv, remaining, fs, q, left) && UniqueEntries(fs)
    ensures remaining > 0 && lv.orders != [] ==>
      RoundRobin(lv.orders, TimedBases(lv.orders, Min(remaining, lv.total), cfg, now), Gifts(lv.orders, fs))
    ensures remaining > 0 && lv.orders != [] ==>
      LedBy(lv.orders, fs, TimedLeader(lv.orders, Min(remaining, lv.total), cfg, now))
  {
    hide Heads, LedBy, TimedLeader, FirstId;
    fs, q, left := [], lv.orders, remaining;
    assert Wound(q, []) == q;
    if remaining <= 0 || lv.orders == [] { return; }
    ShowsSomething(q);
    var toFill := Min(remaining, lv.total);
    var extra; ghost var c, a;
    fs, extra, c := TimedDraft(q, lv.price, toFill, now, cfg);
    ghost var fs0 := fs;
    HeadAll(q);
    fs, a := LapPass(q, lv.price, fs, extra, c);
    LapsLead(q, lv.price, fs0, TimedLeader(q, toFill, cfg, now), fs, a);
    var gs;
    q, gs := ApplyFills(q, fs);
    SameLead(lv.orders, fs, gs, TimedLeader(lv.orders, toFill, cfg, now));
    forall k | 0 <= k < |a| ensures a[k] <= lv.orders[k].remaining {
      var p: nat, m: nat :| RoundRobinAt(lv.orders, c, a, p, m);
    }
    DraftMatched(lv, remaining, fs, a, gs);
    fs, left := gs, remaining - toFill;
    assert Gifts(lv.orders, fs) == a;
  }
}
