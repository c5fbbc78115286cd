/**
  The uncrossing walk (exchange-core/matching_engine.h, execute_auction): what one fill between a
  resting bid and a resting ask keeps, and what the whole walk leaves of the two sides.
 */
module Crossing {
  import opened Types
  import opened Queues
  import opened Levels
  import opened Tape
  import opened Ledger
  import opened EngineState
  import opened Steps
  import opened Trading
  import opened Matching
  import opened Progress
  import opened Busts
  import opened Crowds
  import opened Room
  import opened Auction
  import opened Wholes

  function CrossTrade(s: State, jb: nat, ja: nat, n: int, p: int): Trade
    requires Spot(s.bids, 0, jb) && Spot(s.asks, 0, ja)
  {
    var b, a := s.bids[0].orders[jb], s.asks[0].orders[ja];
    Trade(p, n, b.id, a.id, Buy, b.account, a.account)
  }

  /** Both orders filled and announced and the trade posted, neither order settled yet. */
  function CrossTaken(lim: Limits, s: State, jb: nat, ja: nat, n: int, p: int): State
    requires Spot(s.bids, 0, jb) && Spot(s.asks, 0, ja)
  {
    TakeAt(TakeAt(s, Buy, 0, jb, n, p), Sell, 0, ja, n, p)
      .(ledger := Posted(s.ledger, CrossTrade(s, jb, ja, n, p), lim.maxTrades), lastTrade := p)
  }

  /** One fill of the walk: n units between an order of the best bid level and one of the best
      ask level, both resting, the bid named as aggressor. */
  function CrossStep(lim: Limits, s: State, jb: nat, ja: nat, n: int, p: int): State
    requires Spot(s.bids, 0, jb) && Spot(s.asks, 0, ja)
  {
    SettleAt(SettleAt(CrossTaken(lim, s, jb, ja, n, p), Buy, 0, jb), Sell, 0, ja)
  }

  ghost predicate CanCross(s: State, jb: nat, ja: nat, n: int) {
    && Spot(s.bids, 0, jb) && Spot(s.asks, 0, ja)
    && 0 < n <= s.bids[0].orders[jb].remaining && n <= s.asks[0].orders[ja].remaining
  }

  // ---------------------------------------------------------------- what a fill keeps

  lemma SettleLocal(s: State, t: State, side: Side, k: nat, j: nat)
    requires Spot(s.Book(side), k, j) && t.Book(side) == s.Book(side)
    ensures SettleAt(s, side, k, j).Book(side) == SettleAt(t, side, k, j).Book(side)
    ensures SettleAt(s, side, k, j).Book(side.Opposite()) == s.Book(side.Opposite())
  {
  }

  /** Each side sees one fill of one order. */
  lemma CrossBook(lim: Limits, s: State, jb: nat, ja: nat, n: int, p: int)
    requires Spot(s.bids, 0, jb) && Spot(s.asks, 0, ja)
    ensures CrossStep(lim, s, jb, ja, n, p).bids == PutQueue(s.bids, 0, FillQ(s.bids[0].orders, jb, n))
    ensures CrossStep(lim, s, jb, ja, n, p).asks == PutQueue(s.asks, 0, FillQ(s.asks[0].orders, ja, n))
  {
    var s3 := CrossTaken(lim, s, jb, ja, n, p);
    var s4 := SettleAt(s3, Buy, 0, jb);
    var b1, a1 := TakeAt(s, Buy, 0, jb, n, p), TakeAt(s, Sell, 0, ja, n, p);
    assert s3.bids == b1.bids && s3.asks == a1.asks;
    SettleLocal(s3, b1, Buy, 0, jb);
    FillAtBook(s, Buy, 0, jb, n, p);
    SettleLocal(s4, a1, Sell, 0, ja);
    FillAtBook(s, Sell, 0, ja, n, p);
  }

  lemma SettleFrame(s: State, side: Side, k: nat, j: nat)
    requires Spot(s.Book(side), k, j)
    ensures var s' := SettleAt(s, side, k, j);
      && s'.buyStops == s.buyStops && s'.sellStops == s.sellStops && s'.nextId == s.nextId && s'.session == s.session
      && s'.lastTrade == s.lastTrade && s'.viReference == s.viReference && s'.ledger == s.ledger
  {
  }

  lemma CrossFrame(lim: Limits, s: State, jb: nat, ja: nat, n: int, p: int)
    requires Spot(s.bids, 0, jb) && Spot(s.asks, 0, ja)
    ensures var s' := CrossStep(lim, s, jb, ja, n, p);
      && s'.buyStops == s.buyStops && s'.sellStops == s.sellStops && s'.nextId == s.nextId && s'.session == s.session
      && s'.lastTrade == p && s'.viReference == s.viReference
      && s'.ledger == Posted(s.ledger, CrossTrade(s, jb, ja, n, p), lim.maxTrades)
  {
    hide Posted, SettleAt;
    var s3 := CrossTaken(lim, s, jb, ja, n, p);
    SettleFrame(s3, Buy, 0, jb);
    SettleLocal(s3, s3, Buy, 0, jb);
    SettleFrame(SettleAt(s3, Buy, 0, jb), Sell, 0, ja);
  }

  lemma CrossApart(lim: Limits, s: State, jb: nat, ja: nat)
    requires Shape(lim, s, multiset{}) && Spot(s.bids, 0, jb) && Spot(s.asks, 0, ja)
    ensures var b, a := s.bids[0].orders[jb].id, s.asks[0].orders[ja].id;
      && Bag(s.bids)[b] <= 1 && Bag(s.bids)[a] == 0 && Bag(s.asks)[a] <= 1 && Bag(s.asks)[b] == 0
      && Bag(s.buyStops)[b] == 0 && Bag(s.buyStops)[a] == 0 && Bag(s.sellStops)[b] == 0 && Bag(s.sellStops)[a] == 0
  {
    var b, a := s.bids[0].orders[jb], s.asks[0].orders[ja];
    assert s.bids[0] in s.bids && s.asks[0] in s.asks;
    MemberBag(s.bids, s.bids[0], b);
    MemberBag(s.asks, s.asks[0], a);
    UniqueIds(lim, s, multiset{}, b.id);
    UniqueIds(lim, s, multiset{}, a.id);
  }

  /** Both orders are filled by what the trade says. */
  lemma CrossTakenReconciled(lim: Limits, s: State, jb: nat, ja: nat, n: int, p: int)
    requires Inv(lim, s, multiset{}) && CanCross(s, jb, ja, n)
    ensures Reconciled(CrossTaken(lim, s, jb, ja, n, p))
  {
    hide Shape, Showing, ReconciledSide, Bag, Posted, IdBag, NoDup, Sorted;
    var t := CrossTrade(s, jb, ja, n, p);
    UniqueInQueue(lim, s, multiset{}, Buy, 0);
    UniqueInQueue(lim, s, multiset{}, Sell, 0);
    SortedBook(lim, s, multiset{}, Buy);
    SortedBook(lim, s, multiset{}, Sell);
    CrossApart(lim, s, jb, ja);
    TradeHere(Buy, s.bids, 0, jb, s.ledger, t, lim.maxTrades, t.resting);
    TradeHere(Sell, s.asks, 0, ja, s.ledger, t, lim.maxTrades, t.aggressor);
    TradeElsewhere(s.buyStops, s.ledger, t, lim.maxTrades);
    TradeElsewhere(s.sellStops, s.ledger, t, lim.maxTrades);
  }

  lemma CrossTakenShape(lim: Limits, s: State, jb: nat, ja: nat, n: int, p: int)
    requires Shape(lim, s, multiset{}) && CanCross(s, jb, ja, n)
    ensures Shape(lim, CrossTaken(lim, s, jb, ja, n, p), multiset{})
    ensures Spot(CrossTaken(lim, s, jb, ja, n, p).bids, 0, jb) && Spot(CrossTaken(lim, s, jb, ja, n, p).asks, 0, ja)
  {
    hide Shape, Posted;
    var s1 := TakeAt(s, Buy, 0, jb, n, p);
    TakeShape(lim, s, multiset{}, Buy, 0, jb, n, p);
    TakeShape(lim, s1, multiset{}, Sell, 0, ja, n, p);
    LedgerShape(lim, TakeAt(s1, Sell, 0, ja, n, p), multiset{}, CrossTaken(lim, s, jb, ja, n, p));
  }

  lemma CrossShape(lim: Limits, s: State, jb: nat, ja: nat, n: int, p: int)
    requires Inv(lim, s, multiset{}) && CanCross(s, jb, ja, n)
    ensures Shape(lim, CrossStep(lim, s, jb, ja, n, p), multiset{}) && Reconciled(CrossStep(lim, s, jb, ja, n, p))
  {
    hide Inv, Shape, Reconciled, SettleAt, CrossTaken;
    var s3 := CrossTaken(lim, s, jb, ja, n, p);
    InvShape(lim, s, multiset{});
    CrossTakenShape(lim, s, jb, ja, n, p);
    CrossTakenReconciled(lim, s, jb, ja, n, p);
    SettleShape(lim, s3, multiset{}, Buy, 0, jb);
    SettleReconciled(lim, s3, multiset{}, Buy, 0, jb);
    SettleLocal(s3, s3, Buy, 0, jb);
    SettleShape(lim, SettleAt(s3, Buy, 0, jb), multiset{}, Sell, 0, ja);
    SettleReconciled(lim, SettleAt(s3, Buy, 0, jb), multiset{}, Sell, 0, ja);
  }

  lemma CrossShowing(lim: Limits, s: State, jb: nat, ja: nat, n: int, p: int)
    requires Inv(lim, s, multiset{}) && CanCross(s, jb, ja, n)
    ensures Showing(CrossStep(lim, s, jb, ja, n, p).bids) && Showing(CrossStep(lim, s, jb, ja, n, p).asks)
  {
    hide Shape, Reconciled, Balanced, CrossStep, FillQ, Sorted;
    CrossBook(lim, s, jb, ja, n, p);
    SortedBook(lim, s, multiset{}, Buy);
    SortedBook(lim, s, multiset{}, Sell);
    assert AllPositive(s.bids[0].orders) && AllPositive(s.asks[0].orders);
    FillQPositive(s.bids[0].orders, jb, n);
    FillQPositive(s.asks[0].orders, ja, n);
    PutShowing(Buy, s.bids, 0, FillQ(s.bids[0].orders, jb, n));
    PutShowing(Sell, s.asks, 0, FillQ(s.asks[0].orders, ja, n));
  }

  /** A fill of the walk keeps every invariant. */
  lemma CrossInv(lim: Limits, s: State, jb: nat, ja: nat, n: int, p: int)
    requires Inv(lim, s, multiset{}) && CanCross(s, jb, ja, n)
    ensures Inv(lim, CrossStep(lim, s, jb, ja, n, p), multiset{})
  {
    hide Shape, Reconciled, Showing, Balanced, Posted, CrossStep;
    CrossShape(lim, s, jb, ja, n, p);
    CrossShowing(lim, s, jb, ja, n, p);
    CrossFrame(lim, s, jb, ja, n, p);
    var t := CrossTrade(s, jb, ja, n, p);
    PostedBalanced(s.ledger, t, lim.maxAccounts, lim.maxTrades);
    KnownSpot(lim, s, multiset{}, Buy, 0, jb);
    KnownSpot(lim, s, multiset{}, Sell, 0, ja);
    TradeKnown(s, CrossStep(lim, s, jb, ja, n, p), t, lim.maxTrades);
  }

  /** A fill of the walk is announced in full. */
  lemma CrossMirrors(lim: Limits, s: State, jb: nat, ja: nat, n: int, p: int)
    requires Inv(lim, s, multiset{}) && CanCross(s, jb, ja, n) && MirrorsBook(s)
    ensures MirrorsBook(CrossStep(lim, s, jb, ja, n, p))
  {
    hide Inv, Shape, SettleAt, Posted, Mirrors;
    InvShape(lim, s, multiset{});
    var s1 := TakeAt(s, Buy, 0, jb, n, p);
    TakeShape(lim, s, multiset{}, Buy, 0, jb, n, p);
    TakeMirrors(lim, s, multiset{}, Buy, 0, jb, n, p);
    TakeMirrors(lim, s1, multiset{}, Sell, 0, ja, n, p);
    CrossTakenShape(lim, s, jb, ja, n, p);
    var s3 := CrossTaken(lim, s, jb, ja, n, p);
    SettleMirrors(lim, s3, multiset{}, Buy, 0, jb);
    SettleShape(lim, s3, multiset{}, Buy, 0, jb);
    SettleLocal(s3, s3, Buy, 0, jb);
    SettleMirrors(lim, SettleAt(s3, Buy, 0, jb), multiset{}, Sell, 0, ja);
  }

  lemma CrossThins(lim: Limits, s: State, jb: nat, ja: nat, n: int, p: int)
    requires Spot(s.bids, 0, jb) && Spot(s.asks, 0, ja)
    ensures Thins(s, CrossStep(lim, s, jb, ja, n, p))
  {
    hide Thins, Thinner, FillQ, PutQueue, CrossStep;
    CrossBook(lim, s, jb, ja, n, p);
    CrossFrame(lim, s, jb, ja, n, p);
    FillThinner(s.bids, 0, jb, n);
    FillThinner(s.asks, 0, ja, n);
    ThinnerSame(s.buyStops);
    ThinnerSame(s.sellStops);
    ThinsOf(s, CrossStep(lim, s, jb, ja, n, p));
  }

  // ---------------------------------------------------------------- where the walk goes next

  /** The walk's pointer after a fill of the j-th order: still there, on the tranche just shown at
      the back, on the order that followed, or off the end. */
  function WalkOn(q: seq<Order>, j: nat, n: int): (next: Option<nat>)
    requires j < |q|
    ensures next.Some? ==> next.value < |FillQ(q, j, n)|
    ensures next.None? ==> j == |q| - 1 && FillQ(q, j, n) == Without(q, j)
  {
    var o := q[j].Filled(n);
    if o.remaining != 0 then Some(j)
    else if o.HasHidden() then Some(|q| - 1)
    else if j + 1 < |q| then Some(j)
    else None
  }

  lemma WalkIs(q: seq<Order>, j: nat, n: int, gone: bool)
    requires j < |q| && (gone <==> Leaves(q[j], n))
    ensures WalkOn(q, j, n) ==
      if gone then (if j + 1 < |q| then Some(j) else None) else if q[j].remaining == n then Some(|q| - 1) else Some(j)
  {
  }

  // ---------------------------------------------------------------- hidden quantity

  /** Some of the order is neither filled nor showing. */
  predicate Hides(o: Order) { Hidden(o) != 0 }

  /** Nothing is hidden on a side at a price or better. */
  ghost predicate Plain(side: Side, ls: seq<Level>, p: int) {
    forall lv, o :: lv in ls && o in lv.orders && Within(side, lv.price, UpTo(p)) ==> !Hides(o)
  }

  ghost predicate PlainBoth(s: State, p: int) { Plain(Buy, s.bids, p) && Plain(Sell, s.asks, p) }

  lemma FillHides(q: seq<Order>, j: nat, n: int)
    requires j < |q| && !Hides(q[j])
    ensures forall o :: o in FillQ(q, j, n) ==> o in q || !Hides(o)
    ensures SumRem(FillQ(q, j, n)) == SumRem(q) - n
    ensures FillQ(q, j, n) == if q[j].remaining == n then Without(q, j) else q[j := q[j].Filled(n)]
  {
    FillQSum(q, j, n);
  }

  lemma FillPlain(side: Side, ls: seq<Level>, j: nat, n: int, p: int)
    requires Sorted(side, ls) && Spot(ls, 0, j) && Plain(side, ls, p) && Within(side, ls[0].price, UpTo(p))
    ensures Plain(side, PutQueue(ls, 0, FillQ(ls[0].orders, j, n)), p)
  {
    assert ls[0] in ls;
    FillHides(ls[0].orders, j, n);
    PutMembers(side, ls, 0, FillQ(ls[0].orders, j, n));
  }

  // ---------------------------------------------------------------- volume under fills

  ghost predicate Stocked(side: Side, ls: seq<Level>) { WellFormed(side, ls) && Showing(ls) }

  lemma StockedDepth(side: Side, ls: seq<Level>)
    requires Stocked(side, ls)
    ensures Depth(ls)
  {
    forall lv | lv in ls ensures lv.total > 0 { SumRemAtLeast(lv.orders, 0); }
  }

  lemma StockedFill(side: Side, ls: seq<Level>, j: nat, n: int)
    requires Stocked(side, ls) && Spot(ls, 0, j) && 0 < n <= ls[0].orders[j].remaining
    ensures Stocked(side, PutQueue(ls, 0, FillQ(ls[0].orders, j, n)))
  {
    var q := FillQ(ls[0].orders, j, n);
    assert ls[0] in ls;
    FillQPositive(ls[0].orders, j, n);
    PutWellFormed(side, ls, 0, q);
    PutShowing(side, ls, 0, q);
  }

  /** A fill at the best level takes its quantity from every price that reaches the level, less
      what a new tranche puts back; a price that does not reach it reaches nothing. */
  lemma FillVolume(side: Side, ls: seq<Level>, j: nat, n: int, x: int)
    requires Stocked(side, ls) && Spot(ls, 0, j) && 0 < n <= ls[0].orders[j].remaining
    ensures var v, v' := Volume(side, ls, x), Volume(side, PutQueue(ls, 0, FillQ(ls[0].orders, j, n)), x);
      if Within(side, ls[0].price, UpTo(x)) then
        v >= n && v' >= v - n && (!Hides(ls[0].orders[j]) ==> v' == v - n)
      else v == 0 && v' == 0
  {
    hide SumRem, FillQ;
    var q := ls[0].orders;
    assert ls[0] in ls;
    PutReach(side, ls, 0, FillQ(q, j, n), UpTo(x));
    FillQSum(q, j, n);
    if Within(side, ls[0].price, UpTo(x)) {
      StockedDepth(side, ls);
      VolumeAtLeast(side, ls, ls[0], x);
      SumRemAtLeast(q, j);
    } else {
      NoReach(side, ls, UpTo(x));
    }
  }

  /** While some volume is left at a price, the best level reaches it. */
  lemma BestReaches(side: Side, ls: seq<Level>, p: int)
    requires Stocked(side, ls) && Volume(side, ls, p) > 0
    ensures ls != [] && Within(side, ls[0].price, UpTo(p)) && ls[0].orders != []
  {
    var lv := VolumeSource(side, ls, p);
    assert ls[0] in ls;
  }

  // ---------------------------------------------------------------- price-time priority

  /** A side with n units taken from the front: best price first, oldest order first. */
  function TakeFront(ls: seq<Level>, n: int): seq<Level>
    decreases n
  {
    if n <= 0 || ls == [] || ls[0].orders == [] || ls[0].orders[0].remaining <= 0 then ls
    else
      var m := Min(n, ls[0].orders[0].remaining);
      TakeFront(PutQueue(ls, 0, FillQ(ls[0].orders, 0, m)), n - m)
  }

  lemma FrontTwice(ls: seq<Level>, a: int, m: int)
    requires Spot(ls, 0, 0) && 0 < a < ls[0].orders[0].remaining
    ensures var ls1 := PutQueue(ls, 0, FillQ(ls[0].orders, 0, a));
      && Spot(ls1, 0, 0) && ls1[0].orders[0].remaining == ls[0].orders[0].remaining - a
      && PutQueue(ls1, 0, FillQ(ls1[0].orders, 0, m)) == PutQueue(ls, 0, FillQ(ls[0].orders, 0, a + m))
  {
    var q := ls[0].orders;
    var q1 := FillQ(q, 0, a);
    var ls1 := PutQueue(ls, 0, q1);
    assert q1 == q[0 := q[0].Filled(a)] && ls1[0].orders == q1;
    assert q1[0].Filled(m) == q[0].Filled(a + m);
    assert Without(q1, 0) == Without(q, 0);
    assert q1[0 := q1[0].Filled(m)] == q[0 := q[0].Filled(a + m)];
    assert ls1[..0] == ls[..0] && ls1[1..] == ls[1..];
    assert forall r :: PutQueue(ls1, 0, r) == PutQueue(ls, 0, r);
  }

  /** Taking a and then b is taking a + b. */
  lemma {:induction false} FrontAdds(side: Side, ls: seq<Level>, a: int, b: int)
    requires Stocked(side, ls) && a >= 0 && b >= 0
    ensures TakeFront(ls, a + b) == TakeFront(TakeFront(ls, a), b)
    decreases a
  {
    hide FillQ, PutQueue, Stocked;
    if a > 0 && b > 0 && ls != [] {
      StockedHead(side, ls);
      var r := ls[0].orders[0].remaining;
      if a < r {
        FrontTwice(ls, a, Min(b, r - a));
        assert TakeFront(ls, a) == PutQueue(ls, 0, FillQ(ls[0].orders, 0, a));
      } else {
        StockedFill(side, ls, 0, r);
        FrontAdds(side, PutQueue(ls, 0, FillQ(ls[0].orders, 0, r)), a - r, b);
      }
    }
  }

  lemma StockedHead(side: Side, ls: seq<Level>)
    requires Stocked(side, ls) && ls != []
    ensures Spot(ls, 0, 0) && ls[0].orders[0].remaining > 0
  {
    assert ls[0] in ls;
  }

  /** With nothing hidden in reach, taking n from the front takes n, or everything, from every
      price. */
  lemma {:induction false} FrontVolume(side: Side, ls: seq<Level>, n: int, p: int, x: int)
    requires Stocked(side, ls) && Plain(side, ls, p) && 0 <= n <= Volume(side, ls, p)
    ensures Stocked(side, TakeFront(ls, n))
    ensures Volume(side, TakeFront(ls, n), x) == Volume(side, ls, x) - Min(n, Volume(side, ls, x))
    decreases n
  {
    hide FillQ, PutQueue, Stocked, Plain, Volume;
    StockedDepth(side, ls);
    VolumeGrows(side, ls, x, x);
    if n > 0 {
      BestReaches(side, ls, p);
      StockedHead(side, ls);
      var m := Min(n, ls[0].orders[0].remaining);
      var ls1 := PutQueue(ls, 0, FillQ(ls[0].orders, 0, m));
      StockedFill(side, ls, 0, m);
      StockedSorted(side, ls);
      FillPlain(side, ls, 0, m, p);
      PlainHead(side, ls, p);
      FillVolume(side, ls, 0, m, p);
      FillVolume(side, ls, 0, m, x);
      FrontVolume(side, ls1, n - m, p, x);
    }
  }

  lemma StockedSorted(side: Side, ls: seq<Level>)
    requires Stocked(side, ls)
    ensures Sorted(side, ls)
  {
  }

  lemma StockedShows(side: Side, ls: seq<Level>)
    requires Stocked(side, ls)
    ensures Showing(ls) && forall lv :: lv in ls ==> lv.orders != []
  {
  }

  lemma PlainHead(side: Side, ls: seq<Level>, p: int)
    requires Plain(side, ls, p) && Spot(ls, 0, 0) && Within(side, ls[0].price, UpTo(p))
    ensures !Hides(ls[0].orders[0])
  {
    assert ls[0] in ls && ls[0].orders[0] in ls[0].orders;
  }

  /** Taking the cleared volume from both fronts leaves no bid at or above an ask. */
  lemma ClearedUncrosses(bids: seq<Level>, asks: seq<Level>, reference: int, r: AuctionResult, b: Level, a: Level)
    requires Stocked(Buy, bids) && Stocked(Sell, asks) && Clears(bids, asks, reference, r)
    requires Plain(Buy, bids, r.price) && Plain(Sell, asks, r.price)
    requires b in TakeFront(bids, r.matched) && a in TakeFront(asks, r.matched)
    ensures b.price < a.price
  {
    hide Stocked, Plain, TakeFront;
    FrontVolume(Buy, bids, r.matched, r.price, b.price);
    FrontVolume(Sell, asks, r.matched, r.price, b.price);
    StockedDepth(Buy, TakeFront(bids, r.matched));
    StockedDepth(Sell, TakeFront(asks, r.matched));
    assert Matchable(bids, asks, b.price) <= r.matched;
    if b.price >= a.price {
      VolumeAtLeast(Buy, TakeFront(bids, r.matched), b, b.price);
      VolumeAtLeast(Sell, TakeFront(asks, r.matched), a, b.price);
    }
  }

  // ---------------------------------------------------------------- the whole walk

  function QtySince(log: seq<Trade>, from: nat): int {
    if |log| <= from then 0 else log[|log| - 1].qty + QtySince(log[..|log| - 1], from)
  }

  ghost predicate OnLevel(ls: seq<Level>, id: nat, price: int) {
    exists lv, o :: lv in ls && o in lv.orders && o.id == id && lv.price == price
  }

  /** The orders of a side are orders of an earlier side, at the same prices. */
  ghost predicate Descends(ls0: seq<Level>, ls: seq<Level>) {
    forall lv, o :: lv in ls && o in lv.orders ==> OnLevel(ls0, o.id, lv.price)
  }

  /** A trade of the auction: at its price, between a bid willing to pay as much and an ask willing
      to take it. */
  ghost predicate AuctionTrade(s0: State, p: int, t: Trade) {
    && t.price == p && t.side == Buy && t.qty > 0
    && (exists x :: x >= p && OnLevel(s0.bids, t.aggressor, x))
    && (exists x :: x <= p && OnLevel(s0.asks, t.resting, x))
  }

  ghost predicate AuctionLog(s0: State, s: State, p: int, done: int) {
    && s0.ledger.log <= s.ledger.log && QtySince(s.ledger.log, |s0.ledger.log|) == done
    && forall i :: |s0.ledger.log| <= i < |s.ledger.log| ==> AuctionTrade(s0, p, s.ledger.log[i])
  }

  /** From s0 to s by auction fills of `done` units at price p. */
  ghost predicate Walked(lim: Limits, s0: State, s: State, p: int, done: int) {
    && Inv(lim, s, multiset{}) && (MirrorsBook(s0) ==> MirrorsBook(s))
    && s.buyStops == s0.buyStops && s.sellStops == s0.sellStops
    && s.nextId == s0.nextId && s.session == s0.session && s.viReference == s0.viReference
    && AuctionLog(s0, s, p, done) && Descends(s0.bids, s.bids) && Descends(s0.asks, s.asks)
    && Thins(s0, s)
    && done >= 0 && Taken(Buy, s0.bids, s.bids, done) && Taken(Sell, s0.asks, s.asks, done)
    && (PlainBoth(s0, p) ==>
          PlainBoth(s, p) && s.bids == TakeFront(s0.bids, done) && s.asks == TakeFront(s0.asks, done))
  }

  lemma WalkedNothing(lim: Limits, s: State, p: int)
    requires Inv(lim, s, multiset{})
    ensures Walked(lim, s, s, p, 0)
  {
    hide Taken, Crowd;
    TakenNothing(Buy, s.bids);
    TakenNothing(Sell, s.asks);
    assert forall lv, o :: lv in s.bids && o in lv.orders ==> OnLevel(s.bids, o.id, lv.price);
    assert forall lv, o :: lv in s.asks && o in lv.orders ==> OnLevel(s.asks, o.id, lv.price);
  }

  lemma FillDescends(side: Side, ls0: seq<Level>, ls: seq<Level>, j: nat, n: int)
    requires Sorted(side, ls) && Spot(ls, 0, j) && Descends(ls0, ls)
    ensures Descends(ls0, PutQueue(ls, 0, FillQ(ls[0].orders, j, n)))
    ensures OnLevel(ls0, ls[0].orders[j].id, ls[0].price)
  {
    var q := FillQ(ls[0].orders, j, n);
    PutMembers(side, ls, 0, q);
    assert ls[0] in ls && ls[0].orders[j] in ls[0].orders;
    forall lv, o | lv in PutQueue(ls, 0, q) && o in lv.orders ensures OnLevel(ls0, o.id, lv.price) {
      if lv !in ls {
        assert o in q;
        assert exists o' :: o' in ls[0].orders && o'.id == o.id;
      }
    }
  }

  lemma WalkedLog(lim: Limits, s0: State, s: State, p: int, done: int, jb: nat, ja: nat, n: int)
    requires AuctionLog(s0, s, p, done) && CanCross(s, jb, ja, n) && s.bids[0].price >= p >= s.asks[0].price
    requires OnLevel(s0.bids, s.bids[0].orders[jb].id, s.bids[0].price)
    requires OnLevel(s0.asks, s.asks[0].orders[ja].id, s.asks[0].price)
    ensures AuctionLog(s0, CrossStep(lim, s, jb, ja, n, p), p, done + n)
  {
    hide CrossStep, OnLevel;
    var t := CrossTrade(s, jb, ja, n, p);
    CrossFrame(lim, s, jb, ja, n, p);
    var log := s.ledger.log + [t];
    assert log[..|log| - 1] == s.ledger.log;
    assert AuctionTrade(s0, p, t);
  }

  lemma WalkedFront(side: Side, ls0: seq<Level>, ls: seq<Level>, done: int, n: int, p: int)
    requires Stocked(side, ls0) && Stocked(side, ls) && Spot(ls, 0, 0) && 0 < n <= ls[0].orders[0].remaining && done >= 0
    requires ls == TakeFront(ls0, done) && Plain(side, ls, p) && Within(side, ls[0].price, UpTo(p))
    ensures var ls' := PutQueue(ls, 0, FillQ(ls[0].orders, 0, n));
      Plain(side, ls', p) && ls' == TakeFront(ls0, done + n)
  {
    FillPlain(side, ls, 0, n, p);
    FrontAdds(side, ls0, done, n);
    hide FillQ, PutQueue;
    assert TakeFront(ls, n) == PutQueue(ls, 0, FillQ(ls[0].orders, 0, n));
  }

  lemma InvStocked(lim: Limits, s: State, side: Side)
    requires Inv(lim, s, multiset{})
    ensures Stocked(side, s.Book(side))
  {
  }

  /** One fill further. */
  lemma WalkedStep(lim: Limits, s0: State, s: State, p: int, done: int, jb: nat, ja: nat, n: int)
    requires Inv(lim, s0, multiset{}) && Walked(lim, s0, s, p, done) && CanCross(s, jb, ja, n)
    requires s.bids[0].price >= p >= s.asks[0].price && (PlainBoth(s0, p) ==> jb == 0 && ja == 0)
    ensures Walked(lim, s0, CrossStep(lim, s, jb, ja, n, p), p, done + n)
  {
    hide Inv, MirrorsBook, CrossStep, Descends, AuctionLog, OnLevel, Plain, TakeFront, FillQ, PutQueue, Stocked, Posted, Taken, Thins;
    CrossInv(lim, s, jb, ja, n, p);
    if MirrorsBook(s0) { CrossMirrors(lim, s, jb, ja, n, p); }
    CrossFrame(lim, s, jb, ja, n, p);
    CrossBook(lim, s, jb, ja, n, p);
    InvStocked(lim, s, Buy);
    InvStocked(lim, s, Sell);
    StockedSorted(Buy, s.bids);
    StockedSorted(Sell, s.asks);
    FillDescends(Buy, s0.bids, s.bids, jb, n);
    FillDescends(Sell, s0.asks, s.asks, ja, n);
    WalkedLog(lim, s0, s, p, done, jb, ja, n);
    CrossThins(lim, s, jb, ja, n, p);
    ThinsTrans(s0, s, CrossStep(lim, s, jb, ja, n, p));
    StockedShows(Buy, s.bids);
    StockedShows(Sell, s.asks);
    TakenMore(Buy, s0.bids, s.bids, done, jb, n);
    TakenMore(Sell, s0.asks, s.asks, done, ja, n);
    if PlainBoth(s0, p) {
      InvStocked(lim, s0, Buy);
      InvStocked(lim, s0, Sell);
      WalkedFront(Buy, s0.bids, s.bids, done, n, p);
      WalkedFront(Sell, s0.asks, s.asks, done, n, p);
    }
  }

  /** What is left to trade is there to be traded. */
  ghost predicate Enough(s: State, p: int, left: int) {
    left >= 0 && Volume(Buy, s.bids, p) >= left && Volume(Sell, s.asks, p) >= left
  }

  lemma EnoughStep(lim: Limits, s: State, p: int, left: int, jb: nat, ja: nat, n: int)
    requires Inv(lim, s, multiset{}) && CanCross(s, jb, ja, n) && Enough(s, p, left) && n <= left
    ensures Enough(CrossStep(lim, s, jb, ja, n, p), p, left - n)
  {
    hide Inv, CrossStep, FillQ, PutQueue, Stocked, Volume;
    CrossBook(lim, s, jb, ja, n, p);
    InvStocked(lim, s, Buy);
    InvStocked(lim, s, Sell);
    FillVolume(Buy, s.bids, jb, n, p);
    FillVolume(Sell, s.asks, ja, n, p);
  }

  /** The fill the walk makes next is one both orders can bear, and its pointers stay on orders. */
  lemma WalkOnSpot(lim: Limits, s: State, side: Side, j: nat, n: int)
    requires Spot(s.Book(side), 0, j)
    ensures var q, next := s.Book(side)[0].orders, WalkOn(s.Book(side)[0].orders, j, n);
      var ls' := PutQueue(s.Book(side), 0, FillQ(q, j, n));
      next.Some? ==> Spot(ls', 0, next.value) && ls'[0].price == s.Book(side)[0].price
  {
  }

  /** With nothing hidden in reach, the walk stays on the first order. */
  lemma WalkStaysFirst(side: Side, ls: seq<Level>, n: int, p: int)
    requires Plain(side, ls, p) && Spot(ls, 0, 0) && Within(side, ls[0].price, UpTo(p))
    ensures WalkOn(ls[0].orders, 0, n).Some? ==> WalkOn(ls[0].orders, 0, n).value == 0
  {
    PlainHead(side, ls, p);
  }

  // ---------------------------------------------------------------- for the walk's loops

  lemma WalkStart(lim: Limits, s0: State, s: State, p: int, done: int)
    requires Walked(lim, s0, s, p, done) && s.bids != [] && s.asks != []
    ensures Spot(s.bids, 0, 0) && Spot(s.asks, 0, 0)
  {
    assert s.bids[0] in s.bids && s.asks[0] in s.asks;
  }

  lemma WalkReady(lim: Limits, s0: State, s: State, p: int, done: int, jb: nat, ja: nat, n: int)
    requires Walked(lim, s0, s, p, done) && Spot(s.bids, 0, jb) && Spot(s.asks, 0, ja)
    ensures Inv(lim, s, multiset{}) && CachesOk(s.bids[0]) && CachesOk(s.asks[0])
    ensures s.bids[0].orders[jb].remaining > 0 && s.asks[0].orders[ja].remaining > 0
    ensures |s.ledger.trades| <= Capacity(lim.maxTrades)
  {
    hide Reconciled, AuctionLog, Descends, TakeFront;
    assert s.bids[0] in s.bids && s.asks[0] in s.asks;
  }

  lemma WalkFirst(lim: Limits, s0: State, s: State, p: int, done: int, n: int)
    requires Walked(lim, s0, s, p, done) && PlainBoth(s0, p) && Spot(s.bids, 0, 0) && Spot(s.asks, 0, 0)
    requires s.bids[0].price >= p >= s.asks[0].price
    ensures var b, a := WalkOn(s.bids[0].orders, 0, n), WalkOn(s.asks[0].orders, 0, n);
      (b.Some? ==> b.value == 0) && (a.Some? ==> a.value == 0)
  {
    WalkStaysFirst(Buy, s.bids, n, p);
    WalkStaysFirst(Sell, s.asks, n, p);
  }

  lemma WalkOpen(lim: Limits, s0: State, s: State, p: int, done: int, left: int)
    requires Walked(lim, s0, s, p, done) && Enough(s, p, left) && left > 0
    ensures s.bids != [] && s.asks != [] && s.bids[0].price >= p >= s.asks[0].price
  {
    hide Inv;
    InvStocked(lim, s, Buy);
    InvStocked(lim, s, Sell);
    BestReaches(Buy, s.bids, p);
    BestReaches(Sell, s.asks, p);
  }

  lemma AuctionReady(lim: Limits, s: State)
    requires Inv(lim, s, multiset{})
    ensures Sorted(Buy, s.bids) && Sorted(Sell, s.asks) && Depth(s.bids) && Depth(s.asks)
  {
    hide Inv;
    InvStocked(lim, s, Buy);
    InvStocked(lim, s, Sell);
    StockedDepth(Buy, s.bids);
    StockedDepth(Sell, s.asks);
  }

  lemma AuctionStart(lim: Limits, s: State, reference: int, r: AuctionResult)
    requires Inv(lim, s, multiset{}) && Clears(s.bids, s.asks, reference, r)
    ensures r.matched > 0 && Enough(s, r.price, r.matched) && Walked(lim, s, s, r.price, 0)
  {
    hide Inv;
    WalkedNothing(lim, s, r.price);
  }

  lemma AuctionEnd(lim: Limits, s0: State, reference: int, r: AuctionResult, s1: State, s: State)
    requires Inv(lim, s0, multiset{}) && Clears(s0.bids, s0.asks, reference, r)
    requires Walked(lim, s0, s1, r.price, r.matched) && s == s1.(viReference := s.viReference)
    ensures Inv(lim, s, multiset{}) && AuctionLog(s0, s, r.price, r.matched) && s.lastTrade == r.price
    ensures s.session == s0.session && s.nextId == s0.nextId && (MirrorsBook(s0) ==> MirrorsBook(s)) && Thins(s0, s)
    ensures Uncrossed(s) <==> Covers(s0.bids, s0.asks, r.matched)
    ensures PlainBoth(s0, r.price) ==>
      s.bids == TakeFront(s0.bids, r.matched) && s.asks == TakeFront(s0.asks, r.matched) && Uncrossed(s)
  {
    hide Inv, Clears, TakeFront, Descends, PlainBoth, Uncrossed, AuctionTrade, Taken, Covers, Crowd;
    WalkUncrosses(lim, s0, s1, r.price, r.matched);
    SameCrossing(s1, s);
    ThinsSame(s0, s1, s);
    ReferenceInv(lim, s1, s);
    assert AuctionLog(s0, s, r.price, r.matched);
    hide AuctionLog;
    ClearsSome(s0, reference, r);
    AuctionLast(lim, s0, s, r.price, r.matched);
    if PlainBoth(s0, r.price) { PlainUncrosses(lim, s0, reference, r, s); }
  }

  /** Whatever was revealed on the way, the walk uncrosses the book exactly when its volume covers
      all that could cross, hidden quantity included. */
  lemma WalkUncrosses(lim: Limits, s0: State, s: State, p: int, done: int)
    requires Walked(lim, s0, s, p, done)
    ensures Uncrossed(s) <==> Covers(s0.bids, s0.asks, done)
  {
    hide Inv, TakeFront, Descends, PlainBoth, AuctionLog, Taken, Covers;
    InvStocked(lim, s, Buy);
    InvStocked(lim, s, Sell);
    StockedShows(Buy, s.bids);
    StockedShows(Sell, s.asks);
    TakenUncrosses(s0.bids, s0.asks, s.bids, s.asks, done);
  }

  lemma SameCrossing(s: State, s': State)
    requires s'.bids == s.bids && s'.asks == s.asks
    ensures Uncrossed(s') <==> Uncrossed(s)
  {
  }

  lemma ClearsSome(s: State, reference: int, r: AuctionResult)
    requires Clears(s.bids, s.asks, reference, r)
    ensures r.matched > 0
  {
  }

  lemma PlainUncrosses(lim: Limits, s0: State, reference: int, r: AuctionResult, s: State)
    requires Inv(lim, s0, multiset{}) && Clears(s0.bids, s0.asks, reference, r) && PlainBoth(s0, r.price)
    requires s.bids == TakeFront(s0.bids, r.matched) && s.asks == TakeFront(s0.asks, r.matched)
    ensures Uncrossed(s)
  {
    hide Inv, Clears, TakeFront;
    InvStocked(lim, s0, Buy);
    InvStocked(lim, s0, Sell);
    forall b, a | b in s.bids && a in s.asks ensures b.price < a.price {
      ClearedUncrosses(s0.bids, s0.asks, reference, r, b, a);
    }
  }

  lemma AuctionLast(lim: Limits, s0: State, s: State, p: int, done: int)
    requires AuctionLog(s0, s, p, done) && done > 0 && Inv(lim, s, multiset{})
    ensures s.lastTrade == p
  {
    hide QtySince, Shape, Showing, Reconciled, Balanced, KnownTrades;
    assert |s.ledger.log| > |s0.ledger.log| by {
      if |s.ledger.log| <= |s0.ledger.log| { QtyNone(s.ledger.log, |s0.ledger.log|); }
    }
    assert AuctionTrade(s0, p, s.ledger.log[|s.ledger.log| - 1]);
  }

  lemma QtyNone(log: seq<Trade>, from: nat)
    requires |log| <= from
    ensures QtySince(log, from) == 0
  {
  }

  lemma ReferenceInv(lim: Limits, s: State, s': State)
    requires Inv(lim, s, multiset{}) && s' == s.(viReference := s'.viReference)
    ensures Inv(lim, s', multiset{})
  {
  }
}
