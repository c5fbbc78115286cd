/**
  How an aggressor's work on the book moves the engine forward: what each trade and each
  self-match cancel promises relative to where the aggressor started.
 */
module Progress {
  import opened Types
  import opened Queues
  import opened Levels
  import opened Tape
  import opened Ledger
  import opened EngineState
  import opened Steps
  import opened Trading
  import opened Matching
  import opened Policies
  import opened Crowds

  /** Configuration and hooks.  The hooks an exchange overrides (is_self_match, get_smp_action,
      should_trigger_volatility_auction, calculate_dynamic_bands, get_min_display_qty) are values
      or functions here: on_validate_order, is_tif_valid, is_order_allowed_in_phase and the position
      limit hooks among them. */
  datatype Rules = Rules(
    lim: Limits, policy: Policy, smp: SmpAction,
    tick: int, lot: int, maxSize: int, dailyHigh: int, dailyLow: int, amend: ModifyPolicy,
    selfMatch: (nat, nat) -> bool, volatile: (int, int) -> bool, bands: int -> (int, int),
    validates: Request -> bool, tifValid: TimeInForce -> bool, allowedIn: (Request, SessionState) -> bool,
    checksPositions: bool, positionLimit: nat -> int, minDisplay: Request -> int)
  {
    /** SMP actions that make progress: the other two leave both orders as they were. */
    predicate Valid() {
      policy.Valid() && smp in {CancelNewest, CancelOldest, CancelBoth}
    }
  }

  /** An order being worked on, in no list, filled by its standing trades. */
  ghost predicate InHand(lim: Limits, s: State, o: Order) {
    && Inv(lim, s, multiset{o.id})
    && (o.kind == Limit || o.kind == Market) && QtyOk(o)
    && o.filled == Traded(s.ledger, o.id)
  }

  // ---------------------------------------------------------------- reachable quantity

  /** How far an order is willing to go. */
  datatype Bound = Any | UpTo(price: int)

  function BoundOf(o: Order): Bound { if o.kind == Limit then UpTo(o.price) else Any }

  predicate Within(side: Side, price: int, b: Bound) { b.Any? || !Better(side, b.price, price) }

  /** Visible quantity on a side at acceptable prices. */
  function Reach(side: Side, ls: seq<Level>, b: Bound): int {
    if ls == [] then 0
    else (if Within(side, ls[0].price, b) then ls[0].total else 0) + Reach(side, ls[1..], b)
  }

  lemma {:induction false} ReachConcat(side: Side, x: seq<Level>, y: seq<Level>, b: Bound)
    ensures Reach(side, x + y, b) == Reach(side, x, b) + Reach(side, y, b)
  {
    if x == [] {
      assert x + y == y;
    } else {
      assert (x + y)[1..] == x[1..] + y;
      ReachConcat(side, x[1..], y, b);
    }
  }

  lemma ReachSplit(side: Side, ls: seq<Level>, k: nat, b: Bound)
    requires k < |ls|
    ensures Reach(side, ls, b) == Reach(side, ls[..k], b) +
      (if Within(side, ls[k].price, b) then ls[k].total else 0) + Reach(side, ls[k+1..], b)
  {
    assert ls == ls[..k] + ls[k..];
    ReachConcat(side, ls[..k], ls[k..], b);
    assert ls[k..][1..] == ls[k+1..];
  }

  lemma PutReach(side: Side, ls: seq<Level>, k: nat, q: seq<Order>, b: Bound)
    requires k < |ls|
    ensures Reach(side, PutQueue(ls, k, q), b) ==
      Reach(side, ls, b) + if Within(side, ls[k].price, b) then SumRem(q) - ls[k].total else 0
  {
    ReachSplit(side, ls, k, b);
    if q == [] {
      ReachConcat(side, ls[..k], ls[k+1..], b);
    } else {
      PutSplit(ls, k, q);
      ReachSplit(side, PutQueue(ls, k, q), k, b);
    }
  }

  lemma {:induction false} NoReach(side: Side, ls: seq<Level>, b: Bound)
    requires forall lv :: lv in ls ==> !Within(side, lv.price, b)
    ensures Reach(side, ls, b) == 0
  {
    if ls != [] { NoReach(side, ls[1..], b); }
  }

  // ---------------------------------------------------------------- progress

  /** A trade the aggressor may make: its own, with a different party, at an acceptable price. */
  ghost predicate Fair(r: Rules, o: Order, t: Trade) {
    && t.aggressor == o.id && t.aggressorAccount == o.account && t.side == o.side && t.qty > 0
    && t.resting != o.id && !r.selfMatch(t.aggressorAccount, t.restingAccount)
    && Within(o.side.Opposite(), t.price, BoundOf(o))
  }

  /** Nothing on the opposite side belongs to a self-matching account. */
  ghost predicate Strangers(r: Rules, o: Order, ls: seq<Level>) {
    forall lv, x :: lv in ls && x in lv.orders ==> !r.selfMatch(o.account, x.account)
  }

  /** Only the opposite side, the pools, the ledger and the feeds have moved. */
  ghost predicate Apart(s0: State, s: State, side: Side) {
    && s.Book(side) == s0.Book(side) && s.buyStops == s0.buyStops && s.sellStops == s0.sellStops
    && s.session == s0.session && s.nextId == s0.nextId && s.viReference == s0.viReference
  }

  /** The trades since s0 are fair, and none of them passed over a better price that is still there. */
  ghost predicate FairTrades(r: Rules, s0: State, o: Order, s: State) {
    && s0.ledger.log <= s.ledger.log
    && (forall i :: |s0.ledger.log| <= i < |s.ledger.log| ==> Fair(r, o, s.ledger.log[i]))
    && (forall i, lv :: |s0.ledger.log| <= i < |s.ledger.log| && lv in s.Book(o.side.Opposite())
          ==> !Better(o.side.Opposite(), lv.price, s.ledger.log[i].price))
  }

  /** What the aggressor took it was filled with; nobody's quantity appeared or vanished. */
  ghost predicate SameOrder(o0: Order, o: Order) {
    && o == o0.(filled := o.filled, remaining := o.remaining)
    && o.filled + o.remaining == o0.filled + o0.remaining && 0 <= o.remaining <= o0.remaining
  }

  ghost predicate PricesWithin(ls: seq<Level>, ls0: seq<Level>) {
    forall lv :: lv in ls ==> HasPrice(ls0, lv.price)
  }

  /** From (s0, o0) to (s, o) by trades and self-match cancels against the opposite side. */
  ghost predicate Advanced(r: Rules, s0: State, o0: Order, s: State, o: Order) {
    var opp := o0.side.Opposite();
    && Apart(s0, s, o0.side) && SameOrder(o0, o) && FairTrades(r, s0, o0, s)
    && PricesWithin(s.Book(opp), s0.Book(opp))
    && (MirrorsBook(s0) ==> MirrorsBook(s))
    && OrderCount(s.Book(opp)) <= OrderCount(s0.Book(opp)) && Thinner(s0.Book(opp), s.Book(opp))
    && (Strangers(r, o0, s0.Book(opp)) ==>
          Strangers(r, o0, s.Book(opp)) &&
          Reach(opp, s.Book(opp), BoundOf(o0)) - o.remaining >= Reach(opp, s0.Book(opp), BoundOf(o0)) - o0.remaining)
  }

  lemma AdvancedRefl(r: Rules, s: State, o: Order)
    requires o.remaining >= 0
    ensures Advanced(r, s, o, s, o)
  {
  }

  lemma AdvancedTrans(r: Rules, s0: State, o0: Order, s1: State, o1: Order, s2: State, o2: Order)
    requires Advanced(r, s0, o0, s1, o1) && Advanced(r, s1, o1, s2, o2)
    ensures Advanced(r, s0, o0, s2, o2)
  {
    var opp := o0.side.Opposite();
    FairTrans(r, s0, o0, s1, o1, s2);
    assert BoundOf(o1) == BoundOf(o0);
    assert Thinner(s0.Book(opp), s2.Book(opp)) by { hide Priced; }
  }

  lemma FairTrans(r: Rules, s0: State, o0: Order, s1: State, o1: Order, s2: State)
    requires FairTrades(r, s0, o0, s1) && FairTrades(r, s1, o1, s2) && SameOrder(o0, o1)
    requires PricesWithin(s2.Book(o0.side.Opposite()), s1.Book(o0.side.Opposite()))
    ensures FairTrades(r, s0, o0, s2)
  {
    var l0, l1, l2 := s0.ledger.log, s1.ledger.log, s2.ledger.log;
    var opp := o0.side.Opposite();
    forall i | |l0| <= i < |l2| ensures Fair(r, o0, l2[i]) {
      if i < |l1| { assert l2[i] == l1[i]; } else { assert Fair(r, o1, l2[i]); }
    }
    forall i, lv | |l0| <= i < |l2| && lv in s2.Book(opp) ensures !Better(opp, lv.price, l2[i].price) {
      if i < |l1| {
        assert l2[i] == l1[i];
        var x :| x in s1.Book(opp) && x.price == lv.price;
      }
    }
  }

  lemma PricesUncrossed(s0: State, s: State, side: Side)
    requires Uncrossed(s0) && s.Book(side) == s0.Book(side)
    requires PricesWithin(s.Book(side.Opposite()), s0.Book(side.Opposite()))
    ensures Uncrossed(s)
  {
    forall b, a | b in s.bids && a in s.asks ensures b.price < a.price {
      if side == Buy {
        var x :| x in s0.asks && x.price == a.price;
      } else {
        var x :| x in s0.bids && x.price == b.price;
      }
    }
  }

  // ---------------------------------------------------------------- one trade forward

  lemma MatchStepApart(lim: Limits, s: State, agg: Order, j: nat, n: int)
    requires Spot(s.Book(agg.side.Opposite()), 0, j)
    ensures Apart(s, MatchStep(lim, s, agg, j, n), agg.side)
    ensures MatchStep(lim, s, agg, j, n).Book(agg.side.Opposite())
         == PutQueue(s.Book(agg.side.Opposite()), 0, FillQ(s.Book(agg.side.Opposite())[0].orders, j, n))
    ensures MatchStep(lim, s, agg, j, n).ledger.log == s.ledger.log + [MatchTrade(s, agg, j, n)]
  {
    MatchStepIs(lim, s, agg, j, n);
  }

  lemma PutPrices(ls: seq<Level>, k: nat, q: seq<Order>)
    requires k < |ls|
    ensures PricesWithin(PutQueue(ls, k, q), ls)
  {
    forall lv | lv in PutQueue(ls, k, q) ensures HasPrice(ls, lv.price) {
      var i :| 0 <= i < |PutQueue(ls, k, q)| && PutQueue(ls, k, q)[i] == lv;
      var i' := if q == [] && i >= k then i + 1 else i;
      assert ls[i'] in ls && ls[i'].price == lv.price;
    }
  }

  /** Nothing on a sorted side is better than its first level. */
  lemma FirstIsBest(side: Side, ls: seq<Level>, lv: Level)
    requires Sorted(side, ls) && ls != [] && HasPrice(ls, lv.price)
    ensures !Better(side, lv.price, ls[0].price)
  {
    var x :| x in ls && x.price == lv.price;
    var i :| 0 <= i < |ls| && ls[i] == x;
  }

  lemma MatchStepFair(r: Rules, s: State, agg: Order, j: nat, n: int)
    requires InHand(r.lim, s, agg) && Spot(s.Book(agg.side.Opposite()), 0, j) && n > 0
    requires Within(agg.side.Opposite(), s.Book(agg.side.Opposite())[0].price, BoundOf(agg))
    requires !r.selfMatch(agg.account, s.Book(agg.side.Opposite())[0].orders[j].account)
    ensures FairTrades(r, s, agg, MatchStep(r.lim, s, agg, j, n))
    ensures PricesWithin(MatchStep(r.lim, s, agg, j, n).Book(agg.side.Opposite()), s.Book(agg.side.Opposite()))
  {
    var opp := agg.side.Opposite();
    var ls, s' := s.Book(opp), MatchStep(r.lim, s, agg, j, n);
    MatchStepApart(r.lim, s, agg, j, n);
    PutPrices(ls, 0, FillQ(ls[0].orders, j, n));
    MatchNames(r.lim, s, agg, j, n);
    assert Fair(r, agg, MatchTrade(s, agg, j, n));
    forall lv | lv in s'.Book(opp) ensures !Better(opp, lv.price, ls[0].price) {
      FirstIsBest(opp, ls, lv);
    }
  }

  lemma FillQAccounts(q: seq<Order>, j: nat, n: int, x: Order)
    requires j < |q| && x in FillQ(q, j, n)
    ensures exists y :: y in q && y.account == x.account
  {
    if x !in q { assert q[j] in q; }
  }

  lemma MatchStepReach(r: Rules, s: State, agg: Order, j: nat, n: int)
    requires InHand(r.lim, s, agg) && Spot(s.Book(agg.side.Opposite()), 0, j)
    requires Strangers(r, agg, s.Book(agg.side.Opposite()))
    ensures var opp, s' := agg.side.Opposite(), MatchStep(r.lim, s, agg, j, n);
      Strangers(r, agg, s'.Book(opp)) &&
      Reach(opp, s'.Book(opp), BoundOf(agg)) >= Reach(opp, s.Book(opp), BoundOf(agg)) - if n > 0 then n else 0
  {
    var opp := agg.side.Opposite();
    var ls, s' := s.Book(opp), MatchStep(r.lim, s, agg, j, n);
    var q := FillQ(ls[0].orders, j, n);
    MatchStepApart(r.lim, s, agg, j, n);
    PutMembers(opp, ls, 0, q);
    forall lv, x | lv in s'.Book(opp) && x in lv.orders ensures !r.selfMatch(agg.account, x.account) {
      if lv !in ls { FillQAccounts(ls[0].orders, j, n, x); }
    }
    PutReach(opp, ls, 0, q, BoundOf(agg));
    FillQSum(ls[0].orders, j, n);
    assert CachesOk(ls[0]);
  }

  /** A trade takes the aggressor forward. */
  lemma MatchStepAdvances(r: Rules, s: State, agg: Order, j: nat, n: int)
    requires InHand(r.lim, s, agg) && Spot(s.Book(agg.side.Opposite()), 0, j)
    requires 0 < n <= s.Book(agg.side.Opposite())[0].orders[j].remaining && n <= agg.remaining
    requires Within(agg.side.Opposite(), s.Book(agg.side.Opposite())[0].price, BoundOf(agg))
    requires !r.selfMatch(agg.account, s.Book(agg.side.Opposite())[0].orders[j].account)
    ensures InHand(r.lim, MatchStep(r.lim, s, agg, j, n), agg.Filled(n))
    ensures Advanced(r, s, agg, MatchStep(r.lim, s, agg, j, n), agg.Filled(n))
  {
    hide Shape, Reconciled, Showing, Balanced, FairTrades, PricesWithin, MirrorsBook, Strangers, Apart, TradeStep, Thinner;
    var opp := agg.side.Opposite();
    var ls := s.Book(opp);
    MatchStepInv(r.lim, s, agg, j, n);
    MatchStepApart(r.lim, s, agg, j, n);
    MatchStepFair(r, s, agg, j, n);
    if MirrorsBook(s) { TradeStepMirrors(r.lim, s, multiset{agg.id}, opp, 0, j, MatchTrade(s, agg, j, n)); }
    if Strangers(r, agg, ls) { MatchStepReach(r, s, agg, j, n); }
    PutCount(ls, 0, FillQ(ls[0].orders, j, n));
    FillThinner(ls, 0, j, n);
  }

  // ---------------------------------------------------------------- cancels

  /** Cancel the resting order at a spot. */
  function CancelAt(s: State, side: Side, k: nat, j: nat, price: int, reason: CancelReason): State
    requires k < |s.Book(side)| && j < |s.Book(side)[k].orders|
  {
    DropHand(PullAt(s, side, k, j, price), s.Book(side)[k].orders[j].id, reason)
  }

  lemma PullReconciled(lim: Limits, s: State, hand: multiset<nat>, side: Side, k: nat, j: nat, price: int)
    requires Inv(lim, s, hand) && Spot(s.Book(side), k, j)
    ensures var s' := PullAt(s, side, k, j, price); Reconciled(s') && Showing(s'.bids) && Showing(s'.asks)
  {
    var ls := s.Book(side);
    assert ls[k] in ls && AllPositive(ls[k].orders);
    PutReconciled(side, ls, k, Without(ls[k].orders, j), s.ledger);
    PutShowing(side, ls, k, Without(ls[k].orders, j));
  }

  lemma PullShape(lim: Limits, s: State, hand: multiset<nat>, side: Side, k: nat, j: nat, price: int)
    requires Shape(lim, s, hand) && Spot(s.Book(side), k, j)
    ensures Shape(lim, PullAt(s, side, k, j, price), hand + multiset{s.Book(side)[k].orders[j].id})
    ensures PullAt(s, side, k, j, price).ledger == s.ledger && PullAt(s, side, k, j, price).lastTrade == s.lastTrade
  {
    UnlinkShapeBeside(lim, s, hand, side, k, j, PullAt(s, side, k, j, price));
  }

  lemma CancelInv(lim: Limits, s: State, hand: multiset<nat>, side: Side, k: nat, j: nat, price: int, reason: CancelReason)
    requires Inv(lim, s, hand) && Spot(s.Book(side), k, j)
    ensures Inv(lim, CancelAt(s, side, k, j, price, reason), hand)
  {
    PullShape(lim, s, hand, side, k, j, price);
    PullReconciled(lim, s, hand, side, k, j, price);
    DropInv(lim, PullAt(s, side, k, j, price), hand, s.Book(side)[k].orders[j].id, reason);
  }

  lemma DropInv(lim: Limits, s: State, hand: multiset<nat>, id: nat, reason: CancelReason)
    requires Inv(lim, s, hand + multiset{id})
    ensures Inv(lim, DropHand(s, id, reason), hand)
  {
    FreeShape(lim, s, hand, id);
  }

  lemma CancelMirrors(lim: Limits, s: State, hand: multiset<nat>, side: Side, k: nat, j: nat, price: int, reason: CancelReason)
    requires Inv(lim, s, hand) && Spot(s.Book(side), k, j) && MirrorsBook(s)
    ensures MirrorsBook(CancelAt(s, side, k, j, price, reason))
  {
    PullMirrors(lim, s, hand, side, k, j, price);
  }

  /** A self-match cancel of the resting order leaves the aggressor as it was, with fewer orders ahead. */
  lemma CancelAdvances(r: Rules, s: State, agg: Order, j: nat, price: int, reason: CancelReason)
    requires InHand(r.lim, s, agg) && Spot(s.Book(agg.side.Opposite()), 0, j)
    requires r.selfMatch(agg.account, s.Book(agg.side.Opposite())[0].orders[j].account)
    ensures var opp := agg.side.Opposite();
      var s' := CancelAt(s, opp, 0, j, price, reason);
      && InHand(r.lim, s', agg) && Advanced(r, s, agg, s', agg)
      && OrderCount(s'.Book(opp)) < OrderCount(s.Book(opp))
  {
    var opp := agg.side.Opposite();
    var ls := s.Book(opp);
    var q := Without(ls[0].orders, j);
    CancelInv(r.lim, s, multiset{agg.id}, opp, 0, j, price, reason);
    if MirrorsBook(s) { CancelMirrors(r.lim, s, multiset{agg.id}, opp, 0, j, price, reason); }
    PutPrices(ls, 0, q);
    PutCount(ls, 0, q);
    WithoutThinner(ls, 0, j);
    assert ls[0] in ls && ls[0].orders[j] in ls[0].orders;
  }
}
