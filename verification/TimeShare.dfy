/**
  What the time weighting of ICE's policy (ice/gtbpr_match.h) gives, in whole numbers: shares of the pool in
  proportion to what an order shows times one plus so much for every second of its age.
 */
module TimeShare {
  import opened Types
  import opened Queues
  import opened Alloc
  import opened ProRata
  import opened Gtbpr

  const NANOS := 1_000_000_000

  /** Nanoseconds an order has been waiting; none for one stamped later than now. */
  function Age(o: Order, now: int): nat { if now > o.timestamp then now - o.timestamp else 0 }

  /** What the k-th order shows once the i-th has had `top` lots. */
  function Shows(q: seq<Order>, i: nat, top: int, k: nat): int
    requires k < |q|
  {
    q[k].remaining - if k == i then top else 0
  }

  /** Size times (1 + num / den per second of age), in units of a den-th of a nanosecond. */
  function Heft(q: seq<Order>, i: nat, top: int, now: int, num: nat, den: nat, k: nat): int
    requires k < |q|
  {
    Shows(q, i, top, k) * (den * NANOS + num * Age(q[k], now))
  }

  function HeftTo(q: seq<Order>, i: nat, top: int, now: int, num: nat, den: nat, n: nat): int
    requires n <= |q|
  {
    if n == 0 then 0 else HeftTo(q, i, top, now, num, den, n - 1) + Heft(q, i, top, now, num, den, n - 1)
  }

  /** The order the priority lots are for: the first that shows at least the collar, and what it gets. */
  ghost predicate Tops(q: seq<Order>, t: int, cfg: Config, i: nat, top: int) {
    && i <= |q| && (forall k :: 0 <= k < i ==> q[k].remaining < cfg.collar) && (i < |q| ==> q[i].remaining >= cfg.collar)
    && top == if i < |q| then Min(q[i].remaining, Min(t, cfg.cap)) else 0
  }

  // ---------------------------------------------------------------- fractions and floors

  lemma FloorDiv(x: int, y: int)
    requires y > 0
    ensures (x as real / y as real).Floor == x / y
  {
    var d := x / y;
    var z := x as real / y as real;
    assert d * y <= x < d * y + y;
    assert z * y as real == x as real;
    RealCancelLess(d as real, z, y as real);
    RealCancelStrict(z, d as real + 1.0, y as real);
  }

  lemma RealCancelLess(a: real, b: real, c: real)
    requires c > 0.0 && a * c <= b * c
    ensures a <= b
  {
  }

  lemma RealCancelStrict(a: real, b: real, c: real)
    requires c > 0.0 && a * c < b * c
    ensures a < b
  {
  }

  /** A share of weights that are whole numbers over a common scale. */
  lemma ScaledShare(w: int, all: int, scale: int, pool: int)
    requires all > 0 && scale > 0
    ensures (w as real / scale as real) / (all as real / scale as real) * pool as real == (w * pool) as real / all as real
  {
    var a, b, c := w as real, all as real, scale as real;
    assert (a / c) / (b / c) == a / b by {
      assert (b / c) > 0.0;
      assert (a / b) * (b / c) == a / c;
    }
  }

  lemma ScaledWeight(e: int, num: nat, den: nat, age: nat)
    requires den > 0
    ensures e as real * (1.0 + num as real / den as real * (age as real / NS_PER_SEC)) ==
      (e * (den * NANOS + num * age)) as real / (den * NANOS) as real
  {
    var a, b, c, n := num as real, den as real, age as real, NS_PER_SEC;
    assert NANOS as real == n && (den * NANOS) as real == b * n && (num * age) as real == a * c;
    FractionSum(a, b, c, n);
    var m := den * NANOS + num * age;
    assert m as real == b * n + a * c;
    assert (e * m) as real == e as real * m as real;
    FractionTimes(e as real, m as real, b * n);
  }

  lemma FractionSum(a: real, b: real, c: real, n: real)
    requires b > 0.0 && n > 0.0
    ensures b * n > 0.0 && 1.0 + a / b * (c / n) == (b * n + a * c) / (b * n)
  {
    assert a / b * (c / n) == (a * c) / (b * n) by {
      assert (a / b * (c / n)) * (b * n) == (a / b * b) * (c / n * n);
      assert a / b * b == a && c / n * n == c;
    }
    assert (b * n + a * c) / (b * n) == (b * n) / (b * n) + (a * c) / (b * n);
  }

  lemma FractionTimes(e: real, m: real, d: real)
    requires d > 0.0
    ensures e * (m / d) == (e * m) / d
  {
  }

  // ---------------------------------------------------------------- the policy's own figures

  lemma TopsAre(q: seq<Order>, t: int, cfg: Config, i: nat, top: int)
    requires Tops(q, t, cfg, i, top)
    ensures i == PriorityIndex(q, cfg.collar) && top == PriorityFill(q, t, cfg)
    ensures forall k :: 0 <= k < |q| ==> Effective(q, t, cfg, k) == Shows(q, i, top, k)
  {
    IndexIs(q, cfg.collar, i);
  }

  lemma {:induction false} IndexIs(q: seq<Order>, collar: int, i: nat)
    requires i <= |q| && (forall k :: 0 <= k < i ==> q[k].remaining < collar) && (i < |q| ==> q[i].remaining >= collar)
    ensures i == PriorityIndex(q, collar)
  {
    if i > 0 { IndexIs(q[1..], collar, i - 1); }
  }

  lemma ShowsNonneg(q: seq<Order>, t: int, cfg: Config, i: nat, top: int, k: nat)
    requires AllPositive(q) && Tops(q, t, cfg, i, top) && t >= 0 && cfg.cap >= 0 && k < |q|
    ensures 0 <= Shows(q, i, top, k) && 0 <= top <= t && (k != i ==> Shows(q, i, top, k) > 0)
  {
  }

  lemma WeightIs(q: seq<Order>, t: int, cfg: Config, now: int, num: nat, den: nat, i: nat, top: int, k: nat)
    requires Tops(q, t, cfg, i, top) && den > 0 && cfg.factor == num as real / den as real && k < |q| && Shows(q, i, top, k) >= 0
    ensures Weight(q, t, cfg, now, k) == Heft(q, i, top, now, num, den, k) as real / (den * NANOS) as real
  {
    TopsAre(q, t, cfg, i, top);
    hide Tops, Effective, PriorityFill, PriorityIndex;
    AgeIs(q[k], now);
    ScaledWeight(Shows(q, i, top, k), num, den, Age(q[k], now));
  }

  lemma AgeIs(o: Order, now: int)
    ensures var age := (now - o.timestamp) as real / NS_PER_SEC;
      (if age < 0.0 then 0.0 else age) == Age(o, now) as real / NS_PER_SEC
  {
  }

  lemma {:induction false} HeftsAre(q: seq<Order>, t: int, cfg: Config, now: int, num: nat, den: nat, i: nat, top: int, n: nat)
    requires Tops(q, t, cfg, i, top) && den > 0 && cfg.factor == num as real / den as real && n <= |q|
    requires forall k :: 0 <= k < |q| ==> Shows(q, i, top, k) >= 0
    ensures SumTo(Weights(q, t, cfg, now), n) == HeftTo(q, i, top, now, num, den, n) as real / (den * NANOS) as real
  {
    hide Tops, Weight, Heft;
    if n > 0 {
      HeftsAre(q, t, cfg, now, num, den, i, top, n - 1);
      WeightIs(q, t, cfg, now, num, den, i, top, n - 1);
      FractionAdd(HeftTo(q, i, top, now, num, den, n - 1), Heft(q, i, top, now, num, den, n - 1), den * NANOS);
    }
  }

  lemma FractionAdd(x: int, y: int, d: int)
    requires d > 0
    ensures x as real / d as real + y as real / d as real == (x + y) as real / d as real
  {
  }

  lemma MulNonneg(x: int, y: int)
    requires x >= 0 && y >= 0
    ensures x * y >= 0 && (x > 0 && y > 0 ==> x * y > 0)
  {
  }

  // ---------------------------------------------------------------- what the orders get

  /** What the k-th order is given before left-over lots: its priority lots, and its part of the pool, floored and
      capped at what it still shows. */
  ghost function Part(q: seq<Order>, t: int, now: int, num: nat, den: nat, i: nat, top: int, k: nat): int
    requires k < |q|
  {
    var all, e := HeftTo(q, i, top, now, num, den, |q|), Shows(q, i, top, k);
    (if k == i then top else 0) + if t <= top || all <= 0 then 0 else Min(Heft(q, i, top, now, num, den, k) * (t - top) / all, e)
  }

  /** The policy's bases are those whole numbers, for every rational factor per second. */
  lemma BasesExact(q: seq<Order>, t: int, cfg: Config, now: int, num: nat, den: nat, i: nat, top: int, k: nat)
    requires AllPositive(q) && t >= 0 && cfg.cap >= 0 && den > 0 && cfg.factor == num as real / den as real
    requires Tops(q, t, cfg, i, top) && k < |q|
    ensures TimedBases(q, t, cfg, now)[k] == Part(q, t, now, num, den, i, top, k)
  {
    forall k | 0 <= k < |q| ensures Shows(q, i, top, k) >= 0 { ShowsNonneg(q, t, cfg, i, top, k); }
    ShowsNonneg(q, t, cfg, i, top, k);
    TopsAre(q, t, cfg, i, top);
    HeftsAre(q, t, cfg, now, num, den, i, top, |q|);
    WeightIs(q, t, cfg, now, num, den, i, top, k);
    hide Tops, PriorityFill, PriorityIndex, Effective, Weight, Weights, HeftTo, Heft, SumTo, AllPositive, TimedBases, Quota;
    BaseIs(q, t, cfg, now, k);
    var all, pool := HeftTo(q, i, top, now, num, den, |q|), t - top;
    FractionSign(all, den * NANOS);
    HeftZero(q, i, top, now, num, den, k);
    if pool > 0 && all > 0 {
      QuotaIs(Heft(q, i, top, now, num, den, k), all, den * NANOS, pool, Shows(q, i, top, k));
    }
  }

  lemma BaseIs(q: seq<Order>, t: int, cfg: Config, now: int, k: nat)
    requires k < |q|
    ensures |Weights(q, t, cfg, now)| == |q|
    ensures var all, pool, e := SumTo(Weights(q, t, cfg, now), |q|), t - PriorityFill(q, t, cfg), Effective(q, t, cfg, k);
      TimedBases(q, t, cfg, now)[k] == q[k].remaining - e + if pool <= 0 || all <= 0.0 then 0 else Quota(Weight(q, t, cfg, now, k), all, pool, e)
  {
    hide Weight, Effective, PriorityFill, SumTo, Quota;
  }

  lemma FractionSign(x: int, d: int)
    requires d > 0
    ensures x as real / d as real > 0.0 <==> x > 0
  {
  }

  lemma HeftZero(q: seq<Order>, i: nat, top: int, now: int, num: nat, den: nat, k: nat)
    requires k < |q| && Shows(q, i, top, k) >= 0
    ensures Heft(q, i, top, now, num, den, k) >= 0 && (Shows(q, i, top, k) == 0 ==> Heft(q, i, top, now, num, den, k) == 0)
  {
    MulNonneg(Shows(q, i, top, k), den * NANOS + num * Age(q[k], now));
  }

  lemma QuotaIs(w: int, all: int, scale: int, pool: int, e: int)
    requires all > 0 && scale > 0 && pool >= 0 && w >= 0 && e >= 0 && (e == 0 ==> w == 0)
    ensures all as real / scale as real > 0.0
    ensures Quota(w as real / scale as real, all as real / scale as real, pool, e) == Min(w * pool / all, e)
  {
    ScaledShare(w, all, scale, pool);
    FloorDiv(w * pool, all);
    MulNonneg(w, pool);
    FractionSign(all, scale);
    DivNonneg(w * pool, all);
  }

  lemma DivNonneg(x: int, y: int)
    requires x >= 0 && y > 0
    ensures x / y >= 0
  {
  }

  /** Of two orders that show the same after the priority lots, the one that has waited longer gets no less. */
  lemma OlderNoLess(q: seq<Order>, t: int, cfg: Config, now: int, num: nat, den: nat, i: nat, top: int, j: nat, k: nat)
    requires AllPositive(q) && t >= 0 && cfg.cap >= 0 && den > 0 && cfg.factor == num as real / den as real && Tops(q, t, cfg, i, top)
    requires j < |q| && k < |q| && Shows(q, i, top, j) == Shows(q, i, top, k) && q[j].timestamp <= q[k].timestamp
    ensures TimedBases(q, t, cfg, now)[j] - (if j == i then top else 0) >= TimedBases(q, t, cfg, now)[k] - (if k == i then top else 0)
  {
    hide TimedBases, HeftTo, Heft;
    BasesExact(q, t, cfg, now, num, den, i, top, j);
    BasesExact(q, t, cfg, now, num, den, i, top, k);
    ShowsNonneg(q, t, cfg, i, top, j);
    OlderHeft(q, i, top, now, num, den, j, k);
    var all, pool := HeftTo(q, i, top, now, num, den, |q|), t - top;
    if pool > 0 && all > 0 { ShareOrder(Heft(q, i, top, now, num, den, k), Heft(q, i, top, now, num, den, j), pool, all); }
  }

  lemma OlderHeft(q: seq<Order>, i: nat, top: int, now: int, num: nat, den: nat, j: nat, k: nat)
    requires j < |q| && k < |q| && Shows(q, i, top, j) == Shows(q, i, top, k) >= 0 && q[j].timestamp <= q[k].timestamp
    ensures Heft(q, i, top, now, num, den, k) <= Heft(q, i, top, now, num, den, j)
  {
    MulOrder(num, Age(q[k], now), Age(q[j], now));
    MulOrder(Shows(q, i, top, j), den * NANOS + num * Age(q[k], now), den * NANOS + num * Age(q[j], now));
  }

  lemma ShareOrder(a: int, b: int, pool: int, all: int)
    requires a <= b && pool >= 0 && all > 0
    ensures a * pool / all <= b * pool / all
  {
    MulOrder(pool, a, b);
    DivOrder(a * pool, b * pool, all);
  }

  lemma MulOrder(c: int, x: int, y: int)
    requires c >= 0 && x <= y
    ensures c * x <= c * y && x * c <= y * c
  {
  }

  lemma DivOrder(x: int, y: int, d: int)
    requires d > 0 && x <= y
    ensures x / d <= y / d
  {
    DivBounds(x, d);
    DivBounds(y, d);
    if y / d < x / d { MulOrder(d, y / d + 1, x / d); assert false; }
  }

  /** Where no order is older than now, age counts for nothing: the bases are the plain floors of pro-rata on what the
      priority lots leave. */
  lemma PlainShares(q: seq<Order>, t: int, cfg: Config, now: int, num: nat, den: nat, i: nat, top: int, k: nat)
    requires AllPositive(q) && cfg.cap >= 0 && den > 0 && cfg.factor == num as real / den as real && Tops(q, t, cfg, i, top)
    requires 0 <= t <= SumRem(q) && top < t && k < |q| && forall m :: 0 <= m < |q| ==> q[m].timestamp >= now
    ensures SumRem(q) > top
    ensures TimedBases(q, t, cfg, now)[k] == (if k == i then top else 0) + Shows(q, i, top, k) * (t - top) / (SumRem(q) - top)
  {
    hide TimedBases, HeftTo, Heft, SumRem;
    BasesExact(q, t, cfg, now, num, den, i, top, k);
    ShowsNonneg(q, t, cfg, i, top, k);
    YoungHefts(q, i, top, now, num, den, |q|);
    assert q[..|q|] == q;
    YoungHeft(q, i, top, now, num, den, k);
    PlainPart(Shows(q, i, top, k), t - top, SumRem(q) - top, den * NANOS);
  }

  lemma YoungHeft(q: seq<Order>, i: nat, top: int, now: int, num: nat, den: nat, k: nat)
    requires k < |q| && q[k].timestamp >= now
    ensures Heft(q, i, top, now, num, den, k) == Shows(q, i, top, k) * (den * NANOS)
  {
    assert num * Age(q[k], now) == 0;
  }

  lemma PlainPart(e: int, p: int, left: int, c: int)
    requires 0 <= e && 0 < p <= left && c > 0
    ensures left * c > 0 && Min(e * c * p / (left * c), e) == e * p / left
  {
    DivScale(e, p, left, c);
    ShareCapped(e, p, left);
  }

  lemma {:induction false} YoungHefts(q: seq<Order>, i: nat, top: int, now: int, num: nat, den: nat, n: nat)
    requires n <= |q| && forall m :: 0 <= m < |q| ==> q[m].timestamp >= now
    ensures HeftTo(q, i, top, now, num, den, n) == (SumRem(q[..n]) - if i < n then top else 0) * (den * NANOS)
  {
    if n > 0 {
      YoungHefts(q, i, top, now, num, den, n - 1);
      assert q[..n] == q[..n-1] + [q[n-1]];
      SumRemSnoc(q[..n-1], q[n-1]);
      YoungHeft(q, i, top, now, num, den, n - 1);
      MulAdd(den * NANOS, SumRem(q[..n-1]) - (if i < n - 1 then top else 0), Shows(q, i, top, n - 1));
    }
  }

  lemma DivScale(e: int, p: int, all: int, c: int)
    requires c > 0 && all > 0
    ensures all * c > 0 && e * c * p / (all * c) == e * p / all
  {
    var d := e * p / all;
    assert d * all <= e * p < d * all + all;
    MulOrder(c, d * all, e * p);
    assert e * c * p == c * (e * p) && d * (all * c) == c * (d * all);
    assert c * (e * p) < c * (d * all) + c * all;
    DivIs(e * c * p, all * c, d);
  }

  lemma DivIs(x: int, y: int, d: int)
    requires y > 0 && d * y <= x < d * y + y
    ensures x / y == d
  {
    var e := x / y;
    DivBounds(x, y);
    if e < d { MulOrder(y, e + 1, d); assert false; }
    if d < e { MulOrder(y, d + 1, e); assert false; }
  }

  lemma DivBounds(x: int, y: int)
    requires y > 0
    ensures x / y * y <= x < x / y * y + y
  {
  }

  lemma ShareCapped(e: int, p: int, all: int)
    requires 0 <= e && 0 <= p <= all && all > 0
    ensures e * p / all <= e
  {
    MulOrder(e, p, all);
    DivOrder(e * p, e * all, all);
    DivIs(e * all, all, e);
  }

  /** The engine's own setting: a collar of 50000, a cap of 2000000, a tenth more per second. */
  lemma DefaultBases(q: seq<Order>, t: int, now: int, i: nat, top: int, k: nat)
    requires AllPositive(q) && t >= 0 && k < |q| && i <= |q|
    requires (forall m :: 0 <= m < i ==> q[m].remaining < 50000) && (i < |q| ==> q[i].remaining >= 50000)
    requires top == if i < |q| then Min(q[i].remaining, Min(t, 2000000)) else 0
    ensures TimedBases(q, t, DEFAULT_CONFIG, now)[k] == Part(q, t, now, 1, 10, i, top, k)
  {
    hide TimedBases, Part;
    assert DEFAULT_CONFIG.factor == 1 as real / 10 as real;
    BasesExact(q, t, DEFAULT_CONFIG, now, 1, 10, i, top, k);
  }

  /** As the engine calls it, with no clock, age counts for nothing at all. */
  lemma EngineShares(q: seq<Order>, t: int, i: nat, top: int, k: nat)
    requires AllPositive(q) && 0 <= t <= SumRem(q) && top < t && k < |q| && i <= |q|
    requires (forall m :: 0 <= m < i ==> q[m].remaining < 50000) && (i < |q| ==> q[i].remaining >= 50000)
    requires top == (if i < |q| then Min(q[i].remaining, Min(t, 2000000)) else 0) && forall m :: 0 <= m < |q| ==> q[m].timestamp >= 0
    ensures SumRem(q) > top
    ensures TimedBases(q, t, DEFAULT_CONFIG, 0)[k] == (if k == i then top else 0) + Shows(q, i, top, k) * (t - top) / (SumRem(q) - top)
  {
    hide TimedBases, SumRem;
    assert DEFAULT_CONFIG.factor == 1 as real / 10 as real;
    PlainShares(q, t, DEFAULT_CONFIG, 0, 1, 10, i, top, k);
  }
}
