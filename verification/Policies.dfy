/**
  The policy a MatchingEngine is instantiated with (its MatchAlgoT parameter).
 */
module Policies {
  import opened Types
  import opened Queues
  import opened Alloc
  import opened ProRata
  import opened Priority
  import opened Split
  import opened Gtbpr

  datatype Policy =
    | Fifo | ProRataShare | Threshold(min: int) | LargestShare | SplitFifo(pct: int)
    | Lmm(pct: int) | TopLmm(topPct: int, mmPct: int) | TimeWeighted
  {
    /** The static assertions of the policy templates. */
    predicate Valid() {
      match this
      case SplitFifo(pct) => 0 <= pct <= 100
      case Lmm(pct) => 0 <= pct <= 100
      case TopLmm(a, b) => 0 <= a <= 100 && 0 <= b <= 100
      case _ => true
    }

    /** Entries the policy may write beyond one per order: a split in two real parts may serve one order
        in both. */
    function Extra(): nat { if SplitFifo? && 0 < pct < 100 then 1 else 0 }
  }

  /** What the fills of a policy give the orders of a level. */
  ghost predicate Follows(p: Policy, lv: Level, remaining: int, fs: seq<Fill>)
    requires lv.total > 0
  {
    var q, t, a := lv.orders, Min(remaining, lv.total), Gifts(lv.orders, fs);
    match p
    case Fifo => fs == FifoFills(q, lv.price, remaining)
    case ProRataShare =>
      forall i :: 0 <= i < |q| ==> a[i] == Share(q[i], t, lv.total) + if i < t - SumShares(q, t, lv.total) then 1 else 0
    case Threshold(min) => ToppedUp(q, Bases(q, t, lv.total, min), a)
    case LargestShare => LargestFirst(q, Bases(q, t, lv.total, 0), a)
    case SplitFifo(pct) => SplitGifts(q, t * pct / 100, t - t * pct / 100, a)
    case Lmm(pct) => ServedFirst(q, MarketMakers, Min(remaining * pct / 100, GroupRem(q, MarketMakers)), a)
    case TopLmm(topPct, mmPct) => TopThenMm(q, remaining, topPct, mmPct, a)
    case TimeWeighted => RoundRobin(q, TimedBases(q, t, DEFAULT_CONFIG, 0), a)
  }

  /** The entries written when the orders of a level get `a`: one for each order served, and under a
      split one for each phase that serves it. */
  ghost function EntriesFor(p: Policy, lv: Level, remaining: int, a: seq<int>): nat
    requires |a| == |lv.orders|
  {
    if p.SplitFifo? then ServedTwice(lv.orders, Min(remaining, lv.total) * p.pct / 100, a) else Served(a)
  }

  /** The entries written for an aggressor that takes the whole level. */
  ghost function WholeEntries(p: Policy, lv: Level): nat {
    |lv.orders| + if p.SplitFifo? && p.pct < 100 && EndsInside(lv.orders, lv.total * p.pct / 100) then 1 else 0
  }

  /** The order the first entry of a policy's fills is for. */
  ghost function Leader(p: Policy, lv: Level, remaining: int): nat
    requires lv.total > 0 && lv.orders != []
  {
    var q, t := lv.orders, Min(remaining, lv.total);
    match p
    case Fifo => 0
    case ProRataShare => FirstOf(Bases(q, t, lv.total, 0), 0)
    case Threshold(min) => FirstOf(Bases(q, t, lv.total, min), 0)
    case LargestShare => FirstOf(Bases(q, t, lv.total, 0), Largest(q))
    case SplitFifo(pct) => SplitLeader(q, t * pct / 100, t - t * pct / 100)
    case Lmm(pct) => MmLeader(q, remaining, pct)
    case TopLmm(topPct, mmPct) => TopLeader(q, remaining, topPct, mmPct)
    case TimeWeighted => TimedLeader(q, t, DEFAULT_CONFIG, 0)
  }

  /** A policy's fills for a level: what they give the orders, how many there are, and which comes first. */
  ghost predicate Plans(p: Policy, lv: Level, remaining: int, fs: seq<Fill>) {
    && lv.total > 0 && Allocates(lv.orders, lv.price, remaining, fs) && Follows(p, lv, remaining, fs)
    && |fs| <= |lv.orders| + p.Extra() && |fs| == EntriesFor(p, lv, remaining, Gifts(lv.orders, fs))
    && (remaining >= lv.total ==> |fs| == WholeEntries(p, lv))
    && lv.orders != [] && LedBy(lv.orders, fs, Leader(p, lv, remaining))
  }

  /** Run a policy on a level: exactly min(remaining, visible total), nobody overfilled. */
  method MatchLevel(p: Policy, lv: Level, remaining: int) returns (fs: seq<Fill>, q: seq<Order>, left: int)
    requires Ready(lv) && p.Valid()
    ensures Matched(lv, remaining, fs, q, left)
    ensures |fs| <= |lv.orders| + p.Extra()
    ensures remaining > 0 && lv.orders != [] ==> lv.total > 0 && Plans(p, lv, remaining, fs)
  {
    hide Matched, Allocates, EndsInside, UniqueEntries, ToppedUp, LargestFirst, SplitGifts, ServedFirst, TopThenMm, RoundRobin,
         Bases, TimedBases, FifoFills, SumShares, Share, ServedTwice, Served, GroupRem,
         LedBy, FirstOf, SplitLeader, MmLeader, TopLeader, TimedLeader, Largest;
    if lv.orders != [] { LevelShows(lv); }
    match p {
      case Fifo => fs, q, left := FifoMatch(lv, remaining); OneEach(lv, remaining, fs, q, left); FifoLead(lv, remaining);
      case ProRataShare => fs, q, left := ProRataMatch(lv, remaining); OneEach(lv, remaining, fs, q, left);
      case Threshold(min) => fs, q, left := ThresholdMatch(lv, remaining, min); OneEach(lv, remaining, fs, q, left);
      case LargestShare => fs, q, left := AllocationMatch(lv, remaining); OneEach(lv, remaining, fs, q, left);
      case SplitFifo(pct) => fs, q, left := SplitMatch(lv, remaining, pct);
      case Lmm(pct) => fs, q, left := LmmMatch(lv, remaining, pct); OneEach(lv, remaining, fs, q, left);
      case TopLmm(a, b) => fs, q, left := TopLmmMatch(lv, remaining, a, b); OneEach(lv, remaining, fs, q, left);
      case TimeWeighted => fs, q, left := GtbprMatch(lv, remaining, 0, DEFAULT_CONFIG); OneEach(lv, remaining, fs, q, left);
    }
    Allocated(lv, remaining, fs, q, left);
  }

  lemma Allocated(lv: Level, remaining: int, fs: seq<Fill>, q: seq<Order>, left: int)
    requires Matched(lv, remaining, fs, q, left)
    ensures remaining > 0 ==> Allocates(lv.orders, lv.price, remaining, fs)
  {
  }

  lemma FifoLead(lv: Level, remaining: int)
    ensures remaining > 0 && lv.orders != [] ==> LedBy(lv.orders, FifoFills(lv.orders, lv.price, remaining), 0)
  {
  }

  lemma LevelShows(lv: Level)
    requires Ready(lv) && lv.orders != []
    ensures lv.total > 0
  {
    ShowsSomething(lv.orders);
  }

  lemma OneEach(lv: Level, remaining: int, fs: seq<Fill>, q: seq<Order>, left: int)
    requires Ready(lv) && Matched(lv, remaining, fs, q, left) && UniqueEntries(fs)
    ensures |fs| <= |lv.orders| && (remaining >= lv.total ==> |fs| == |lv.orders|)
    ensures remaining > 0 ==> |fs| == Served(Gifts(lv.orders, fs))
  {
    NamesInQueue(lv.orders, fs);
    EntriesBound(lv.orders, fs);
    if remaining > 0 { ServedCount(lv.orders, fs, Gifts(lv.orders, fs)); }
    if remaining >= lv.total { EveryOrder(lv, remaining, fs, q, left); }
  }

  /** Whatever the policy, an aggressor that takes the whole level needs an entry for each order. */
  lemma EveryOrder(lv: Level, remaining: int, fs: seq<Fill>, q: seq<Order>, left: int)
    requires Ready(lv) && Matched(lv, remaining, fs, q, left) && remaining >= lv.total
    ensures |fs| >= |lv.orders|
  {
    if lv.orders != [] {
      ShowsSomething(lv.orders);
      forall i | 0 <= i < |lv.orders| ensures FillsFor(fs, lv.orders[i].id) != 0 { WholeTaken(lv.orders, lv.price, remaining, fs, i); }
      EntriesCover(lv.orders, fs);
    }
  }
}
