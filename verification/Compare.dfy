/**
  Threshold and split matching with their parameters at zero against pro-rata matching
  (exchange-core/match_algo.h), which the comments there say they then are.  They distribute the
  left-over lots differently: pro-rata gives one lot each to the first orders, the other two fill
  the first orders up.
 */
module Compare {
  import opened Types
  import opened Queues
  import opened Alloc
  import opened ProRata
  import opened Priority
  import opened Split

  ghost function Residue(q: seq<Order>, t: int): int
    requires SumRem(q) > 0
  { t - SumShares(q, t, SumRem(q)) }

  /** What pro-rata matching gives each order. */
  ghost function ProRataGifts(q: seq<Order>, t: int): seq<int>
    requires SumRem(q) > 0
  {
    seq(|q|, i requires 0 <= i < |q| => Share(q[i], t, SumRem(q)) + if i < Residue(q, t) then 1 else 0)
  }

  /** The orders that must be full after one more lot, for the two to agree. */
  ghost predicate OneLotFills(q: seq<Order>, t: int)
    requires SumRem(q) > 0
  {
    forall i :: 0 <= i < |q| && i < Residue(q, t) - 1 ==> q[i].remaining == Share(q[i], t, SumRem(q)) + 1
  }

  lemma ToppedUpTail(q: seq<Order>, b: seq<int>, a: seq<int>)
    requires q != [] && ToppedUp(q, b, a)
    ensures ToppedUp(q[1..], b[1..], a[1..])
  {
  }

  lemma {:induction false} SumIntMono(b: seq<int>, a: seq<int>)
    requires |a| == |b| && forall i :: 0 <= i < |a| ==> b[i] <= a[i]
    ensures SumInt(b) <= SumInt(a)
  {
    if a != [] { SumIntMono(b[1..], a[1..]); }
  }

  /** Whoever gets less first gets less in all. */
  lemma LessFirst(q: seq<Order>, b: seq<int>, a: seq<int>, p: seq<int>)
    requires q != [] && ToppedUp(q, b, a) && ToppedUp(q, b, p) && a[0] < p[0]
    ensures SumInt(a) < SumInt(p)
  {
    assert forall i :: 0 < i < |q| ==> a[i] == b[i];
    SumIntMono(a[1..], p[1..]);
  }

  /** Filling up in time priority is determined by the total. */
  lemma {:induction false} ToppedUnique(q: seq<Order>, b: seq<int>, a: seq<int>, p: seq<int>)
    requires ToppedUp(q, b, a) && ToppedUp(q, b, p) && SumInt(a) == SumInt(p)
    ensures a == p
  {
    if q != [] {
      if a[0] < p[0] { LessFirst(q, b, a, p); }
      if p[0] < a[0] { LessFirst(q, b, p, a); }
      ToppedUpTail(q, b, a);
      ToppedUpTail(q, b, p);
      ToppedUnique(q[1..], b[1..], a[1..], p[1..]);
      assert a == [a[0]] + a[1..] && p == [p[0]] + p[1..];
    }
  }

  /** One lot for each of the first r positions adds r. */
  lemma {:induction false} OneLotSum(b: seq<int>, p: seq<int>, r: int)
    requires |p| == |b| && 0 <= r <= |b| && forall i :: 0 <= i < |b| ==> p[i] == b[i] + if i < r then 1 else 0
    ensures SumInt(p) == SumInt(b) + r
  {
    if b != [] { OneLotSum(b[1..], p[1..], if r > 0 then r - 1 else 0); }
  }

  lemma BasesAreShares(q: seq<Order>, t: int)
    requires q != [] && AllPositive(q) && 0 < t <= SumRem(q)
    ensures var b := Bases(q, t, SumRem(q), 0);
      && |b| == |q| && SumInt(b) == t - Residue(q, t) && 0 <= Residue(q, t) < |q|
      && (forall i :: 0 <= i < |q| ==> b[i] == Share(q[i], t, SumRem(q)) && 0 <= b[i] <= q[i].remaining)
      && (Residue(q, t) > 0 ==> forall i :: 0 <= i < |q| ==> b[i] < q[i].remaining)
  {
    hide Share;
    ResidueSmall(q, t);
    SumBases(q, t, SumRem(q), 0);
    if t == SumRem(q) { NoResidue(q, t); }
    forall i | 0 <= i < |q|
      ensures 0 <= Share(q[i], t, SumRem(q)) <= q[i].remaining
      ensures t < SumRem(q) ==> Share(q[i], t, SumRem(q)) < q[i].remaining
    {
      ShareRange(q[i], t, SumRem(q));
    }
  }

  lemma ShareRange(o: Order, t: int, total: int)
    requires o.remaining > 0 && 0 < t <= total
    ensures 0 <= Share(o, t, total) <= o.remaining && (t < total ==> Share(o, t, total) < o.remaining)
    ensures t == total ==> Share(o, t, total) == o.remaining
  {
    ShareBounds(o.remaining, t, total);
  }

  lemma NoResidue(q: seq<Order>, t: int)
    requires q != [] && AllPositive(q) && 0 < t == SumRem(q)
    ensures Residue(q, t) == 0
  {
    WholeShares(q, t);
  }

  lemma {:induction false} WholeShares(q: seq<Order>, total: int)
    requires AllPositive(q) && total > 0
    ensures SumShares(q, total, total) == SumRem(q)
  {
    if q != [] {
      ShareRange(q[0], total, total);
      WholeShares(q[1..], total);
    }
  }

  /** Pro-rata gifts are gifts in time priority exactly when one lot fills all but the last of the
      orders that get one. */
  lemma ProRataTopsUp(q: seq<Order>, t: int)
    requires q != [] && AllPositive(q) && 0 < t <= SumRem(q)
    ensures SumInt(ProRataGifts(q, t)) == t
    ensures ToppedUp(q, Bases(q, t, SumRem(q), 0), ProRataGifts(q, t)) <==> OneLotFills(q, t)
  {
    hide Share, SumShares, Bases;
    var b, p, r := Bases(q, t, SumRem(q), 0), ProRataGifts(q, t), Residue(q, t);
    BasesAreShares(q, t);
    OneLotSum(b, p, r);
    if ToppedUp(q, b, p) {
      forall i | 0 <= i < |q| && i < r - 1 ensures q[i].remaining == Share(q[i], t, SumRem(q)) + 1 {
        assert p[i + 1] > b[i + 1];
      }
    }
  }

  /** Filling up from the floors, which threshold matching with threshold 0 does, equals pro-rata
      exactly when one more lot fills every order that gets one but the last. */
  lemma ZeroThreshold(q: seq<Order>, t: int, a: seq<int>)
    requires q != [] && AllPositive(q) && 0 < t <= SumRem(q)
    requires ToppedUp(q, Bases(q, t, SumRem(q), 0), a) && SumInt(a) == t
    ensures a == ProRataGifts(q, t) <==> OneLotFills(q, t)
  {
    hide ToppedUp, Bases, ProRataGifts, OneLotFills;
    ProRataTopsUp(q, t);
    if OneLotFills(q, t) { ToppedUnique(q, Bases(q, t, SumRem(q), 0), a, ProRataGifts(q, t)); }
  }

  /** So does split matching with no time-priority part. */
  lemma ZeroSplit(q: seq<Order>, t: int, a: seq<int>)
    requires q != [] && AllPositive(q) && 0 < t <= SumRem(q) && SplitGifts(q, 0, t, a)
    ensures a == ProRataGifts(q, t) <==> OneLotFills(q, t)
  {
    hide ToppedUp, Bases, ProRataGifts, OneLotFills;
    var c :| Proportional(After(q, 0), t, c) && |c| == |q| && forall i :: 0 <= i < |q| ==> a[i] == FifoDue(q, 0, i) + c[i];
    forall i | 0 <= i < |q| ensures FifoDue(q, 0, i) == 0 { SumRemNonneg(q[..i]); }
    assert After(q, 0) == q;
    assert a == c;
    ZeroThreshold(q, t, c);
  }

  /** Twenty lots over three orders of ten: seven, seven and six against eight, six and six. */
  lemma ZeroThresholdDiffers(x: Order, y: Order, z: Order)
    requires x.remaining == 10 && y.remaining == 10 && z.remaining == 10
    ensures SumRem([x, y, z]) == 30 && Residue([x, y, z], 20) == 2 && !OneLotFills([x, y, z], 20)
  {
    var q := [x, y, z];
    assert q[1..] == [y, z] && q[1..][1..] == [z] && q[1..][1..][1..] == [];
    assert SumRem([z]) == 10 && SumRem([y, z]) == 20;
    assert SumShares([z], 20, 30) == 6 && SumShares([y, z], 20, 30) == 12;
    assert q[0].remaining != Share(q[0], 20, 30) + 1;
  }
}
