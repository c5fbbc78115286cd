/**
  Around the matching loop: turns of the loop, how an order's life ends, acceptance of new
  orders, and what each of these keeps.
 */
module Lifecycle {
  import opened Types
  import opened Queues
  import opened Levels
  import opened Tape
  import opened Ledger
  import opened EngineState
  import opened Steps
  import opened Trading
  import opened Matching
  import opened Progress
  import opened Alloc
  import opened Stops
  import opened Policies

  datatype Admission = Rejected(reason: RejectReason) | Accepted(id: nat)

  function Verdict(why: Option<RejectReason>, id: nat): Admission {
    if why.Some? then Rejected(why.value) else Accepted(id)
  }

  /** Collection phases: orders are booked without matching. */
  predicate Collecting(x: SessionState) { x == PreOpen || x == PreClose || x == VolatilityAuction || x == LockLimit }

  /** The first check an order fails, in the engine's order. */
  function Rejection(r: Rules, session: SessionState, last: int, nextId: nat, free: int, positions: seq<int>,
                     req: Request, throttled: bool): Option<RejectReason>
  {
    if throttled then Some(RateThrottled)
    else if !r.validates(req) then Some(ExchangeSpecific)
    else if !r.tifValid(req.tif) then Some(InvalidTif)
    else if req.quantity <= 0 || (r.lot > 0 && req.quantity % r.lot != 0) then Some(InvalidQuantity)
    else if req.display > 0 && BadDisplay(r, req) then Some(InvalidQuantity)
    else if r.maxSize > 0 && req.quantity > r.maxSize then Some(MaxOrderSizeExceeded)
    else if req.IsPriced() && PriceRejection(r, last, req.price).Some? then PriceRejection(r, last, req.price)
    else if req.IsStop() && req.stopPrice <= 0 then Some(InvalidPrice)
    else if session == Closed then Some(ExchangeSpecific)
    else if !r.allowedIn(req, session) then Some(InvalidTif)
    else if r.checksPositions && ExceedsLimit(positions, req, r.positionLimit(req.account)) then Some(PositionLimitExceeded)
    else if nextId >= r.lim.maxIds || free == 0 then Some(PoolExhausted)
    else None
  }

  /** would_exceed_limit. */
  predicate ExceedsLimit(positions: seq<int>, req: Request, limit: int) {
    && limit > 0 && Tracked(req.account, |positions|)
    && if req.side == Buy then positions[req.account] + req.quantity > limit else positions[req.account] - req.quantity < -limit
  }

  predicate BadDisplay(r: Rules, req: Request) {
    || req.display > req.quantity || (r.lot > 0 && req.display % r.lot != 0)
    || (r.minDisplay(req) > 0 && req.display < r.minDisplay(req))
  }

  function PriceRejection(r: Rules, last: int, price: int): Option<RejectReason> {
    var (low, high) := r.bands(last);
    if price <= 0 || (r.tick > 0 && price % r.tick != 0) then Some(InvalidPrice)
    else if (low > 0 && price < low) || (high > 0 && price > high) then Some(PriceBandViolation)
    else if r.dailyHigh > 0 && price > r.dailyHigh then Some(LockLimitUp)
    else if r.dailyLow > 0 && price < r.dailyLow then Some(LockLimitDown)
    else None
  }

  /** The order a request becomes; of an iceberg only the first tranche shows. */
  function OrderOf(req: Request, id: nat): Order {
    Order(id, req.account, req.side, req.kind, req.tif,
          if req.kind == Stop then req.stopPrice else req.price,
          req.quantity, 0, if req.display > 0 then req.display else req.quantity,
          req.timestamp, req.gtdExpiry, req.display, req.quantity, req.marketMaker, false)
  }

  /** The state with the accepted order indexed and in hand. */
  function AcceptedState(s: State): State {
    s.(live := s.live + {s.nextId}, freeOrders := s.freeOrders - 1, nextId := s.nextId + 1)
  }

  lemma AcceptShape(lim: Limits, s: State)
    requires Shape(lim, s, multiset{}) && s.freeOrders > 0
    ensures Shape(lim, AcceptedState(s), multiset{s.nextId})
  {
    hide BookSide, StopSide, Bag;
    assert s.nextId !in s.live;
    assert AllIds(s) + multiset{} == AllIds(s);
    assert multiset(s.live + {s.nextId}) == multiset(s.live) + multiset{s.nextId};
  }

  ghost predicate Admissible(r: Rules, s: State, req: Request) {
    Rejection(r, s.session, s.lastTrade, s.nextId, s.freeOrders, s.ledger.positions, req, false).None?
  }

  lemma NotThrottled(r: Rules, s: State, req: Request, throttled: bool)
    requires Rejection(r, s.session, s.lastTrade, s.nextId, s.freeOrders, s.ledger.positions, req, throttled).None?
    ensures Admissible(r, s, req)
  {
  }

  lemma AcceptInv(r: Rules, s: State, req: Request)
    requires Inv(r.lim, s, multiset{}) && Admissible(r, s, req)
    ensures var s', o := AcceptedState(s), OrderOf(req, s.nextId);
      && o.id == s.nextId && o.kind == req.kind && o.side == req.side
      && Inv(r.lim, s', multiset{o.id}) && QtyOk(o) && o.remaining > 0 && o.filled == Traded(s'.ledger, o.id)
      && (!req.IsStop() ==> InHand(r.lim, s', o))
      && (req.IsStop() ==> WaitsAt(o.side, req.stopPrice, o))
  {
    AcceptShape(r.lim, s);
    UntradedTo(s.ledger, s.nextId, |s.ledger.log|);
    hide Shape, Showing, Balanced, ReconciledSide;
  }

  lemma AcceptAside(s: State)
    ensures (MirrorsBook(s) ==> MirrorsBook(AcceptedState(s))) && (Uncrossed(s) ==> Uncrossed(AcceptedState(s)))
  {
  }

  lemma AcceptSides(lim: Limits, s: State, id: nat, side: Side)
    requires Inv(lim, s, multiset{id})
    ensures WellFormed(side, s.Book(side)) && WellFormed(side.Opposite(), s.Stops(side))
  {
  }

  lemma ParkKeeps(lim: Limits, s: State, o: Order, p: int)
    requires Inv(lim, s, multiset{o.id}) && WaitsAt(o.side, p, o) && o.filled == Traded(s.ledger, o.id)
    ensures var s' := Park(s, o, p);
      Inv(lim, s', multiset{}) && (MirrorsBook(s) ==> MirrorsBook(s')) && (Uncrossed(s) ==> Uncrossed(s'))
      && s'.session == s.session && s'.nextId == s.nextId && s'.ledger == s.ledger
  {
    ParkInv(lim, s, o, p);
    ParkAside(s, o, p);
  }

  lemma EndedOnce(lim: Limits, s: State, o: Order, outcome: Outcome)
    requires InHand(lim, s, o) && (outcome == Booked ==> Bookable(o))
    ensures var s' := Ended(s, o, outcome);
      Inv(lim, s', multiset{}) && (MirrorsBook(s) ==> MirrorsBook(s'))
      && s'.session == s.session && s'.nextId == s.nextId && s'.ledger == s.ledger
  {
    hide InHand, Inv, MirrorsBook, Ended;
    EndedInv(lim, s, o, outcome);
    if MirrorsBook(s) { EndedMirrors(lim, s, o, outcome); }
    EndedAside(s, o, outcome);
  }

  lemma EndedAside(s: State, o: Order, outcome: Outcome)
    ensures var s' := Ended(s, o, outcome);
      s'.session == s.session && s'.nextId == s.nextId && s'.ledger == s.ledger
  {
  }

  /** A trade from continuous matching pairs two parties that may trade. */
  ghost predicate NotSelf(r: Rules, t: Trade) { !r.selfMatch(t.aggressorAccount, t.restingAccount) }

  lemma HeadStop(lim: Limits, s: State, side: Side)
    requires Inv(lim, s, multiset{}) && s.Stops(side) != []
    ensures Spot(s.Stops(side), 0, 0) && CachesOk(s.Stops(side)[0])
    ensures InHand(lim, Unpark(s, side, 0, 0), Convert(s.Stops(side)[0].orders[0]))
  {
    StopSideOf(lim, s, multiset{}, side);
    assert s.Stops(side)[0] in s.Stops(side);
    TriggeredInHand(lim, s, side, 0, 0);
  }

  lemma UnparkAside(s: State, side: Side, k: nat, j: nat)
    requires Spot(s.Stops(side), k, j)
    ensures var s' := Unpark(s, side, k, j);
      && (MirrorsBook(s) ==> MirrorsBook(s')) && (Uncrossed(s) ==> Uncrossed(s'))
      && s'.session == s.session && s'.nextId == s.nextId && s'.ledger == s.ledger
  {
  }

  /** What MatchOrder did to the ledger, the stops and the counters. */
  lemma TradesSince(r: Rules, s0: State, o0: Order, v: State, o: Order, outcome: Outcome, x: SessionState)
    requires Advanced(r, s0, o0, v, o)
    ensures var s := Ended(v.(session := x), o, outcome);
      && StopCount(s) == StopCount(s0) && s.nextId == s0.nextId
      && s0.ledger.log <= s.ledger.log && forall i :: |s0.ledger.log| <= i < |s.ledger.log| ==> NotSelf(r, s.ledger.log[i])
  {
    forall i | |s0.ledger.log| <= i < |v.ledger.log| ensures NotSelf(r, v.ledger.log[i]) {
      assert Fair(r, o0, v.ledger.log[i]);
    }
  }

  datatype Outcome = Filled | Dropped(reason: CancelReason) | Booked

  /** What becomes of an order matching has left alive. */
  function Fate(o: Order): Outcome {
    if o.remaining == 0 then Filled
    else if o.kind == Market || o.tif == IOC then Dropped(IOCRemainder)
    else if o.tif == FOK then Dropped(FOKFailed)
    else Booked
  }

  predicate Bookable(o: Order) { o.kind == Limit && o.remaining > 0 }

  function Ended(s: State, o: Order, outcome: Outcome): State {
    match outcome
    case Filled => Free(s, o.id)
    case Dropped(reason) => DropHand(s, o.id, reason)
    case Booked => Rest(s, o)
  }

  /** All the quantity an order is still to be filled with shows. */
  predicate ShowsAll(o: Order) { o.filled + o.remaining == o.quantity }

  /** A fill-or-kill order is filled with its whole quantity, or cancelled, for whatever reason, with book
      and ledger untouched. */
  ghost predicate AllOrNothing(s0: State, o0: Order, s: State, o: Order, outcome: Outcome) {
    || (outcome == Filled && o.remaining == 0 && o.filled == o0.quantity)
    || (outcome.Dropped? && s == DropHand(s0, o0.id, outcome.reason))
  }

  lemma HandSorted(lim: Limits, s: State, o: Order)
    requires InHand(lim, s, o)
    ensures Sorted(o.side.Opposite(), s.Book(o.side.Opposite())) && WellFormed(o.side, s.Book(o.side))
    ensures Fate(o) == Booked ==> Bookable(o)
  {
  }

  lemma SessionAside(lim: Limits, s: State, o: Order, x: SessionState)
    requires InHand(lim, s, o)
    ensures InHand(lim, s.(session := x), o)
  {
  }

  /** However matching ends, the invariants hold with nothing in hand. */
  lemma EndedInv(lim: Limits, s: State, o: Order, outcome: Outcome)
    requires InHand(lim, s, o) && (outcome == Booked ==> Bookable(o))
    ensures Inv(lim, Ended(s, o, outcome), multiset{})
  {
    match outcome
    case Filled =>
      assert multiset{} + multiset{o.id} == multiset{o.id};
      FreeShape(lim, s, multiset{}, o.id);
    case Dropped(reason) =>
      assert multiset{} + multiset{o.id} == multiset{o.id};
      DropInv(lim, s, multiset{}, o.id, reason);
    case Booked =>
      RestInv(lim, s, o);
  }

  lemma RestInv(lim: Limits, s: State, o: Order)
    requires InHand(lim, s, o) && Bookable(o)
    ensures Inv(lim, Rest(s, o), multiset{})
  {
    hide Shape, Showing, Reconciled, Balanced, Rest;
    RestShape(lim, s, o);
    RestShowing(lim, s, o);
    RestReconciled(lim, s, o);
    RestAside(s, o);
  }

  lemma RestAside(s: State, o: Order)
    ensures Rest(s, o).ledger == s.ledger && Rest(s, o).lastTrade == s.lastTrade && Rest(s, o).nextId == s.nextId
    ensures Rest(s, o).session == s.session
  {
  }

  lemma EndedMirrors(lim: Limits, s: State, o: Order, outcome: Outcome)
    requires InHand(lim, s, o) && MirrorsBook(s) && (outcome == Booked ==> Bookable(o))
    ensures MirrorsBook(Ended(s, o, outcome))
  {
    if outcome == Booked { RestMirrors(lim, s, o); }
  }

  lemma EndedKeeps(r: Rules, s0: State, o0: Order, v: State, o: Order, outcome: Outcome, x: SessionState)
    requires InHand(r.lim, v, o) && Advanced(r, s0, o0, v, o) && (outcome == Booked ==> Bookable(o))
    ensures var s := Ended(v.(session := x), o, outcome);
      Inv(r.lim, s, multiset{}) && (MirrorsBook(s0) ==> MirrorsBook(s))
      && s.buyStops == s0.buyStops && s.sellStops == s0.sellStops
  {
    hide Inv, InHand, Bookable, Ended;
    SessionAside(r.lim, v, o, x);
    EndedInv(r.lim, v.(session := x), o, outcome);
    EndedStops(v.(session := x), o, outcome);
    if MirrorsBook(s0) { EndedMirrors(r.lim, v.(session := x), o, outcome); }
  }

  lemma EndedStops(s: State, o: Order, outcome: Outcome)
    ensures Ended(s, o, outcome).buyStops == s.buyStops && Ended(s, o, outcome).sellStops == s.sellStops
  {
    hide Insert;
  }

  /** Matching that ran its course leaves an uncrossed book uncrossed. */
  lemma EndedUncrossed(r: Rules, s0: State, o0: Order, v: State, o: Order, outcome: Outcome, x: SessionState)
    requires InHand(r.lim, v, o) && Advanced(r, s0, o0, v, o) && (outcome == Booked ==> Bookable(o))
    requires outcome == Booked ==> OutOfReach(v, o)
    ensures Uncrossed(s0) ==> Uncrossed(Ended(v.(session := x), o, outcome))
  {
    if Uncrossed(s0) {
      PricesUncrossed(s0, v, o0.side);
      EndsUncrossed(r.lim, v.(session := x), o, outcome);
    }
  }

  lemma EndsUncrossed(lim: Limits, s: State, o: Order, outcome: Outcome)
    requires Shape(lim, s, multiset{o.id}) && Uncrossed(s) && (outcome == Booked ==> Bookable(o) && OutOfReach(s, o))
    ensures Uncrossed(Ended(s, o, outcome))
  {
    hide Shape, Rest;
    if outcome == Booked { RestUncrossed(lim, s, o); }
  }

  /** The pre-check promised enough, and matching can only end early for lack of it: the order gets all it
      shows, which is its whole quantity exactly when it hides nothing. */
  lemma FokFills(r: Rules, s0: State, o0: Order, v: State, o: Order)
    requires InHand(r.lim, v, o) && Advanced(r, s0, o0, v, o)
    requires Strangers(r, o0, s0.Book(o0.side.Opposite())) ==> Reach(o0.side.Opposite(), s0.Book(o0.side.Opposite()), BoundOf(o0)) >= o0.remaining
    requires o.remaining == 0 || OutOfReach(v, o)
    ensures Strangers(r, o0, s0.Book(o0.side.Opposite())) ==>
      o.remaining == 0 && o.filled == o0.filled + o0.remaining && (o.filled == o0.quantity <==> ShowsAll(o0))
  {
    if o.remaining != 0 { NoReach(o.side.Opposite(), v.Book(o.side.Opposite()), BoundOf(o)); }
  }

  ghost predicate AtDailyLimit(r: Rules, price: int) {
    (r.dailyHigh > 0 && price >= r.dailyHigh) || (r.dailyLow > 0 && price <= r.dailyLow)
  }

  /** Daily limits and volatility interruption are off and the market is not locked. */
  ghost predicate Calm(r: Rules, s: State) {
    s.session != LockLimit && r.dailyHigh <= 0 && r.dailyLow <= 0 && forall p, q :: !r.volatile(p, q)
  }

  /** Nothing is left on the opposite side at a price the order accepts. */
  ghost predicate OutOfReach(s: State, o: Order) {
    forall lv :: lv in s.Book(o.side.Opposite()) ==> !Within(o.side.Opposite(), lv.price, BoundOf(o))
  }

  lemma StartLoop(r: Rules, s: State, o: Order)
    requires InHand(r.lim, s, o)
    ensures Advanced(r, s, o, s, o) && o.remaining >= 0
  {
    AdvancedRefl(r, s, o);
  }

  lemma LoopFacts(r: Rules, s0: State, o0: Order, v: State, o: Order)
    requires InHand(r.lim, v, o) && Advanced(r, s0, o0, v, o)
    ensures var ls := v.Book(o.side.Opposite());
      ls == [] || (o.kind == Limit && Better(o.side.Opposite(), o.price, ls[0].price)) ==> OutOfReach(v, o)
    ensures Strangers(r, o0, s0.Book(o0.side.Opposite())) ==> Strangers(r, o, v.Book(o.side.Opposite()))
    ensures o.remaining >= 0
  {
    var opp := o.side.Opposite();
    var ls := v.Book(opp);
    forall lv | lv in ls && o.kind == Limit && Better(opp, o.price, ls[0].price)
      ensures !Within(opp, lv.price, BoundOf(o))
    {
      FirstIsBest(opp, ls, lv);
    }
  }

  lemma LoopStep(r: Rules, s0: State, o0: Order, v: State, o: Order, v': State, o': Order)
    requires Advanced(r, s0, o0, v, o) && Advanced(r, v, o, v', o')
    ensures Advanced(r, s0, o0, v', o') && o'.side == o0.side && v'.session == s0.session && v'.viReference == s0.viReference
  {
    AdvancedTrans(r, s0, o0, v, o, v', o');
  }

  /** What matching has left to work through; every turn that leaves the aggressor alive shrinks it. */
  ghost function ToDo(s: State, o: Order): int { o.remaining + OrderCount(s.Book(o.side.Opposite())) }

  /** The matching loop between two commits: trades so far are done in v, `fs` are to come. */
  ghost predicate Turn(r: Rules, s0: State, o0: Order, v: State, agg: Order, fs: seq<Fill>) {
    && InHand(r.lim, v, agg) && Advanced(r, s0, o0, v, agg)
    && TotalFills(fs) <= agg.remaining
    && (fs != [] ==> Best(v, o0.side.Opposite(), fs) && Within(o0.side.Opposite(), v.Book(o0.side.Opposite())[0].price, BoundOf(o0)))
  }

  /** Fills pending on the best level of a side. */
  ghost predicate Best(v: State, side: Side, fs: seq<Fill>) {
    var ls := v.Book(side);
    ls != [] && CachesOk(ls[0]) && NoDup(ls[0].orders) && Pending(ls[0].orders, ls[0].price, fs)
  }

  /** What CommitOnBook does, on the stored state. */
  ghost function CommittedOnBook(s: State, side: Side, at: nat, f: Fill): State
    requires Spot(s.Book(side), 0, at)
  {
    var ls := s.Book(side);
    var lv := Commit(ls[0], at, f);
    var o := ls[0].orders[at];
    var gone := f.restingRemaining == 0 && !o.HasHidden();
    s.WithBook(side, if lv.count == 0 then ls[1..] else ls[0 := lv]).(
      feed := s.feed + [BookAction(o.id, side, f.price, f.quantity, Action.Fill)] +
        if f.restingRemaining == 0 && o.HasHidden() then [BookAction(o.id, side, o.price, o.NextTranche(), Action.Add)] else [],
      live := if gone then s.live - {o.id} else s.live,
      freeOrders := if gone then s.freeOrders + 1 else s.freeOrders,
      freeLevels := if gone && |ls[0].orders| == 1 then s.freeLevels + 1 else s.freeLevels)
  }

  /** Committing on the stored side is a MatchStep on the state it stands for. */
  lemma CommitIsMatchStep(lim: Limits, v: State, order: Order, fs: seq<Fill>, j: nat)
    requires fs != [] && Best(v, order.side.Opposite(), fs)
    requires Holds(v.Book(order.side.Opposite())[0].orders, j, fs[0].resting)
    ensures var opp := order.side.Opposite();
      var s := v.WithBook(opp, Wind(v.Book(opp), fs)).(
        ledger := Posted(v.ledger, MatchTrade(v, order, j, fs[0].quantity), lim.maxTrades), lastTrade := fs[0].price);
      var v' := MatchStep(lim, v, order, j, fs[0].quantity);
      CommittedOnBook(s, opp, j, fs[0]) == v'.WithBook(opp, Wind(v'.Book(opp), fs[1..]))
  {
    hide MatchStep, Posted, Pending, Commit;
    var opp := order.side.Opposite();
    WindPut(v.Book(opp), fs, j);
    MatchStepIs(lim, v, order, j, fs[0].quantity);
    FirstWound(v.Book(opp), fs, j);
  }

  /** The first pending order as stored: exhausted exactly when its commit will exhaust it. */
  lemma FirstWound(ls: seq<Level>, fs: seq<Fill>, j: nat)
    requires ls != [] && NoDup(ls[0].orders) && Pending(ls[0].orders, ls[0].price, fs) && fs != []
    requires Holds(ls[0].orders, j, fs[0].resting)
    ensures var q, w := ls[0].orders, Wind(ls, fs)[0].orders;
      && fs[0].restingRemaining == q[j].remaining - fs[0].quantity && fs[0].price == ls[0].price
      && w[j].id == q[j].id && w[j].price == q[j].price && w[j].account == q[j].account && |w| == |q|
      && (fs[0].restingRemaining == 0 ==> w[j] == q[j].Filled(fs[0].quantity))
  {
    var q := ls[0].orders;
    var j0 := FirstPending(q, ls[0].price, fs);
    assert j0 == j;
    assert FillsFor(fs, q[j].id) == fs[0].quantity + FillsFor(fs[1..], q[j].id);
  }

  lemma BestIsReady(lim: Limits, s: State, hand: multiset<nat>, side: Side)
    requires Inv(lim, s, hand) && s.Book(side) != []
    ensures Ready(s.Book(side)[0]) && CachesOk(s.Book(side)[0])
  {
    UniqueInQueue(lim, s, hand, side, 0);
    assert s.Book(side)[0] in s.Book(side);
  }

  /** The step only depends on who the aggressor is. */
  lemma SameMatchStep(lim: Limits, v: State, a: Order, b: Order, j: nat, n: int)
    requires a.id == b.id && a.side == b.side && a.account == b.account && Spot(v.Book(a.side.Opposite()), 0, j)
    ensures MatchStep(lim, v, a, j, n) == MatchStep(lim, v, b, j, n)
  {
  }

  lemma SomeFill(lv: Level, n: int, fs: seq<Fill>)
    requires Ready(lv) && CachesOk(lv) && n > 0 && Allocates(lv.orders, lv.price, n, fs)
    ensures fs != []
  {
    SumRemAtLeast(lv.orders, 0);
  }

  lemma ReadyToMatch(r: Rules, s: State, o: Order)
    requires InHand(r.lim, s, o) && s.Book(o.side.Opposite()) != []
    ensures Ready(s.Book(o.side.Opposite())[0])
  {
    BestIsReady(r.lim, s, multiset{o.id}, o.side.Opposite());
  }

  lemma BestShows(r: Rules, s: State, o: Order)
    requires InHand(r.lim, s, o) && s.Book(o.side.Opposite()) != []
    ensures s.Book(o.side.Opposite())[0].orders != [] && s.Book(o.side.Opposite())[0].total > 0
  {
    BestIsReady(r.lim, s, multiset{o.id}, o.side.Opposite());
    LevelShows(s.Book(o.side.Opposite())[0]);
  }

  /** The policy's output starts a turn; it never comes back with nothing. */
  lemma FirstTurn(r: Rules, s: State, o: Order, fs: seq<Fill>, q: seq<Order>, left: int)
    requires InHand(r.lim, s, o) && s.Book(o.side.Opposite()) != [] && o.remaining > 0
    requires Within(o.side.Opposite(), s.Book(o.side.Opposite())[0].price, BoundOf(o))
    requires Matched(s.Book(o.side.Opposite())[0], o.remaining, fs, q, left)
    ensures Turn(r, s, o, s, o, fs) && fs != [] && left == o.remaining - TotalFills(fs)
    ensures s.Book(o.side.Opposite())[0 := s.Book(o.side.Opposite())[0].(orders := q)] == Wind(s.Book(o.side.Opposite()), fs)
  {
    BestIsReady(r.lim, s, multiset{o.id}, o.side.Opposite());
    AdvancedRefl(r, s, o);
    SomeFill(s.Book(o.side.Opposite())[0], o.remaining, fs);
  }

  lemma TurnCount(r: Rules, s0: State, o0: Order, v: State, agg: Order, fs: seq<Fill>)
    requires Turn(r, s0, o0, v, agg, fs)
    ensures InHand(r.lim, v, agg) && Advanced(r, s0, o0, v, agg)
    ensures ToDo(v, agg) - agg.remaining <= ToDo(s0, o0) - o0.remaining && agg.remaining <= o0.remaining && agg.side == o0.side
  {
  }

  /** Where the next fill's order stands, in the stored level as in the one it stands for. */
  lemma NextResting(r: Rules, s0: State, o0: Order, v: State, agg: Order, fs: seq<Fill>) returns (at: nat)
    requires fs != [] && Turn(r, s0, o0, v, agg, fs)
    ensures Best(v, o0.side.Opposite(), fs) && agg.side == o0.side && |v.ledger.trades| <= Capacity(r.lim.maxTrades)
    ensures v.Book(o0.side.Opposite()) != [] && Holds(v.Book(o0.side.Opposite())[0].orders, at, fs[0].resting)
    ensures var w := Wind(v.Book(o0.side.Opposite()), fs)[0].orders;
      NoDup(w) && Holds(w, at, fs[0].resting) && fs[0].resting in Ids(w)
      && w[at].account == v.Book(o0.side.Opposite())[0].orders[at].account
  {
    var lv := v.Book(o0.side.Opposite())[0];
    at := FirstPending(lv.orders, lv.price, fs);
    assert Ids(Wound(lv.orders, fs))[at] == fs[0].resting;
  }

  lemma OrderStep(order: Order, agg: Order, fs: seq<Fill>)
    requires fs != [] && order == agg.(remaining := agg.remaining - TotalFills(fs))
    ensures order.(filled := order.filled + fs[0].quantity)
         == agg.Filled(fs[0].quantity).(remaining := agg.Filled(fs[0].quantity).remaining - TotalFills(fs[1..]))
  {
  }

  lemma NothingPending(v: State, side: Side, order: Order, agg: Order)
    requires order == agg.(remaining := agg.remaining - TotalFills([]))
    ensures v.WithBook(side, Wind(v.Book(side), [])) == v && order == agg
  {
    WindNothing(v.Book(side));
  }

  lemma BestCaches(v: State, side: Side, fs: seq<Fill>)
    requires Best(v, side, fs)
    ensures v.Book(side) != [] && CachesOk(v.Book(side)[0])
  {
  }

  /** Whatever the SMP action, the aggressor is where it was before the fill, no fill of it is
      lost, and a cancelled resting order means less to do. */
  lemma SelfMatchOutcome(r: Rules, s0: State, o0: Order, v: State, agg: Order, at: nat, price: int)
    requires InHand(r.lim, v, agg) && Advanced(r, s0, o0, v, agg) && Spot(v.Book(o0.side.Opposite()), 0, at)
    requires r.selfMatch(agg.account, v.Book(o0.side.Opposite())[0].orders[at].account)
    ensures var v' := CancelAt(v, o0.side.Opposite(), 0, at, price, SelfMatchPrevention);
      InHand(r.lim, v', agg) && Advanced(r, s0, o0, v', agg) && ToDo(v', agg) < ToDo(v, agg)
    ensures !Strangers(r, o0, s0.Book(o0.side.Opposite()))
  {
    CancelAdvances(r, v, agg, at, price, SelfMatchPrevention);
    NoStranger(r, s0, o0, v, agg, at);
    AdvancedTrans(r, s0, o0, v, agg, CancelAt(v, o0.side.Opposite(), 0, at, price, SelfMatchPrevention), agg);
  }

  /** Committing the next fill keeps the turn going. */
  lemma TurnStep(r: Rules, s0: State, o0: Order, v: State, agg: Order, fs: seq<Fill>, j: nat)
    requires Turn(r, s0, o0, v, agg, fs) && fs != [] && Holds(v.Book(o0.side.Opposite())[0].orders, j, fs[0].resting)
    requires !r.selfMatch(agg.account, v.Book(o0.side.Opposite())[0].orders[j].account)
    ensures var v', agg' := MatchStep(r.lim, v, agg, j, fs[0].quantity), agg.Filled(fs[0].quantity);
      Turn(r, s0, o0, v', agg', fs[1..]) && agg'.remaining < agg.remaining &&
      (fs[1..] != [] ==> v'.Book(o0.side.Opposite())[0].price == v.Book(o0.side.Opposite())[0].price)
  {
    var opp, n := o0.side.Opposite(), fs[0].quantity;
    var ls := v.Book(opp);
    var j0 := FirstPending(ls[0].orders, ls[0].price, fs);
    assert j0 == j;
    TotalFillsNonneg(fs[1..]);
    MatchStepAdvances(r, v, agg, j, n);
    AdvancedTrans(r, s0, o0, v, agg, MatchStep(r.lim, v, agg, j, n), agg.Filled(n));
    if fs[1..] != [] { BestNext(r, v, agg, fs, j); }
  }

  lemma BestNext(r: Rules, v: State, agg: Order, fs: seq<Fill>, j: nat)
    requires fs != [] && fs[1..] != [] && Best(v, agg.side.Opposite(), fs)
    requires Holds(v.Book(agg.side.Opposite())[0].orders, j, fs[0].resting)
    requires InHand(r.lim, MatchStep(r.lim, v, agg, j, fs[0].quantity), agg.Filled(fs[0].quantity))
    ensures var v' := MatchStep(r.lim, v, agg, j, fs[0].quantity);
      Best(v', agg.side.Opposite(), fs[1..]) && v'.Book(agg.side.Opposite())[0].price == v.Book(agg.side.Opposite())[0].price
  {
    var opp, n := agg.side.Opposite(), fs[0].quantity;
    var ls, v' := v.Book(opp), MatchStep(r.lim, v, agg, j, n);
    PendingStep(ls[0].orders, ls[0].price, fs, j);
    MatchStepApart(r.lim, v, agg, j, n);
    var q := FillQ(ls[0].orders, j, n);
    assert ReportsAt(q, fs[1..], 0);
    BestIsReady(r.lim, v', multiset{agg.id}, opp);
  }

  /** A self-match means the opposite side was not all strangers to begin with. */
  lemma NoStranger(r: Rules, s0: State, o0: Order, v: State, agg: Order, j: nat)
    requires Advanced(r, s0, o0, v, agg) && Spot(v.Book(o0.side.Opposite()), 0, j)
    requires r.selfMatch(agg.account, v.Book(o0.side.Opposite())[0].orders[j].account)
    ensures !Strangers(r, o0, s0.Book(o0.side.Opposite()))
  {
    var lv := v.Book(o0.side.Opposite())[0];
    assert lv in v.Book(o0.side.Opposite()) && lv.orders[j] in lv.orders;
  }
}
