/**
  What the engine checks before it does anything (exchange-core/matching_engine.h, the first half of
  new_order, modify_order, cancel_order and restore_order): the conditions as a list, each with the
  reason given when it is the first to fail.
 */
module Checks {
  import opened Types
  import opened Ledger
  import opened EngineState
  import opened Progress
  import opened Lifecycle
  import opened Cancels
  import opened Restores

  /** A condition and the reason for a rejection when it fails. */
  datatype Check = Check(ok: bool, reason: RejectReason)

  ghost predicate AllPass(cs: seq<Check>) { forall i :: 0 <= i < |cs| ==> cs[i].ok }

  /** Condition i fails and none before it does. */
  ghost predicate FirstToFail(cs: seq<Check>, i: nat) { i < |cs| && !cs[i].ok && forall k :: 0 <= k < i ==> cs[k].ok }

  /** The verdict of a list: accepted if and only if every condition holds, and otherwise the reason of the
      first that fails. */
  ghost predicate Judged(cs: seq<Check>, why: Option<RejectReason>) {
    && (why.None? <==> AllPass(cs))
    && (forall x :: why == Some(x) <==> exists i: nat :: FirstToFail(cs, i) && cs[i].reason == x)
  }

  // ---------------------------------------------------------------- the conditions

  /** Whose order it is and how large. */
  ghost function SizeChecks(r: Rules, req: Request, throttled: bool): seq<Check> {
    [ Check(!throttled, RateThrottled),
      Check(r.validates(req), ExchangeSpecific),
      Check(r.tifValid(req.tif), InvalidTif),
      Check(req.quantity > 0, InvalidQuantity),
      Check(r.lot > 0 ==> req.quantity % r.lot == 0, InvalidQuantity),
      Check(req.display > 0 ==> req.display <= req.quantity, InvalidQuantity),
      Check(req.display > 0 && r.lot > 0 ==> req.display % r.lot == 0, InvalidQuantity),
      Check(req.display > 0 && r.minDisplay(req) > 0 ==> req.display >= r.minDisplay(req), InvalidQuantity),
      Check(r.maxSize > 0 ==> req.quantity <= r.maxSize, MaxOrderSizeExceeded) ]
  }

  /** A limit price: positive, on the grid, within the exchange's bands and the daily limits. */
  ghost function PriceChecks(r: Rules, last: int, req: Request): seq<Check> {
    var priced := req.kind == Limit || req.kind == StopLimit;
    var (low, high) := r.bands(last);
    [ Check(priced ==> req.price > 0, InvalidPrice),
      Check(priced && r.tick > 0 ==> req.price % r.tick == 0, InvalidPrice),
      Check(priced && low > 0 ==> req.price >= low, PriceBandViolation),
      Check(priced && high > 0 ==> req.price <= high, PriceBandViolation),
      Check(priced && r.dailyHigh > 0 ==> req.price <= r.dailyHigh, LockLimitUp),
      Check(priced && r.dailyLow > 0 ==> req.price >= r.dailyLow, LockLimitDown),
      Check(req.kind == Stop || req.kind == StopLimit ==> req.stopPrice > 0, InvalidPrice) ]
  }

  /** What depends on the engine: the session, the account's position once the order is filled, and room. */
  ghost function StateChecks(r: Rules, s: State, req: Request): seq<Check> {
    var limit, held := r.positionLimit(req.account), s.ledger.positions;
    [ Check(s.session != Closed, ExchangeSpecific),
      Check(r.allowedIn(req, s.session), InvalidTif),
      Check(r.checksPositions && limit > 0 && 0 < req.account < |held| ==>
              if req.side == Buy then held[req.account] + req.quantity <= limit else held[req.account] - req.quantity >= -limit,
            PositionLimitExceeded),
      Check(s.nextId < r.lim.maxIds, PoolExhausted),
      Check(s.freeOrders != 0, PoolExhausted) ]
  }

  ghost function NewChecks(r: Rules, s: State, req: Request, throttled: bool): seq<Check> {
    SizeChecks(r, req, throttled) + PriceChecks(r, s.lastTrade, req) + StateChecks(r, s, req)
  }

  ghost function CancelChecks(s: State, id: nat, throttled: bool): seq<Check> {
    [ Check(s.session != Closed, ExchangeSpecific), Check(id in s.live, UnknownOrder), Check(!throttled, RateThrottled) ]
  }

  ghost function ModifyChecks(r: Rules, s: State, id: nat, price: int, quantity: int, throttled: bool): seq<Check> {
    CancelChecks(s, id, throttled) +
    [ Check(quantity > 0, InvalidQuantity),
      Check(price > 0, InvalidPrice),
      Check(r.tick > 0 ==> price % r.tick == 0, InvalidPrice),
      Check(r.lot > 0 ==> quantity % r.lot == 0, InvalidQuantity),
      Check(r.amend != RejectModify, ExchangeSpecific) ]
  }

  ghost function RestoreChecks(r: Rules, s: State, o: Order, now: int, approved: bool): seq<Check> {
    var priced := o.kind == Limit || o.kind == StopLimit;
    var (low, high) := r.bands(s.lastTrade);
    [ Check(0 < o.id < r.lim.maxIds, ExchangeSpecific),
      Check(o.id !in s.live, ExchangeSpecific),
      Check(o.remaining > 0, InvalidQuantity),
      Check(r.lot > 0 ==> o.quantity % r.lot == 0, InvalidQuantity) ] +
    [ Check(priced ==> o.price > 0, InvalidPrice),
      Check(priced && r.tick > 0 ==> o.price % r.tick == 0, InvalidPrice),
      Check(priced && low > 0 ==> o.price >= low, PriceBandViolation),
      Check(priced && high > 0 ==> o.price <= high, PriceBandViolation),
      Check(o.tif == GTD ==> o.gtdExpiry > now, ExchangeSpecific),
      Check(approved, ExchangeSpecific),
      Check(s.freeOrders != 0, PoolExhausted) ]
  }

  // ---------------------------------------------------------------- what the engine decides

  /** The first condition that fails, or the length. */
  ghost function FirstBad(cs: seq<Check>): (i: nat)
    ensures i <= |cs| && (forall k :: 0 <= k < i ==> cs[k].ok) && (i < |cs| ==> !cs[i].ok)
  {
    if cs == [] || !cs[0].ok then 0 else 1 + FirstBad(cs[1..])
  }

  ghost function Reason(cs: seq<Check>): Option<RejectReason> {
    if FirstBad(cs) < |cs| then Some(cs[FirstBad(cs)].reason) else None
  }

  lemma ReasonJudges(cs: seq<Check>)
    ensures Judged(cs, Reason(cs))
  {
    var i := FirstBad(cs);
    forall k: nat | FirstToFail(cs, k) ensures k == i {}
    if i < |cs| { assert FirstToFail(cs, i); }
  }

  lemma {:induction false} ReasonConcat(a: seq<Check>, b: seq<Check>)
    ensures Reason(a + b) == if Reason(a).Some? then Reason(a) else Reason(b)
  {
    if a == [] {
      assert a + b == b;
    } else {
      assert (a + b)[1..] == a[1..] + b;
      ReasonConcat(a[1..], b);
    }
  }

  lemma SizeReason(r: Rules, req: Request, throttled: bool)
    ensures Reason(SizeChecks(r, req, throttled)) ==
      if throttled then Some(RateThrottled)
      else if !r.validates(req) then Some(ExchangeSpecific)
      else if !r.tifValid(req.tif) then Some(InvalidTif)
      else if req.quantity <= 0 || (r.lot > 0 && req.quantity % r.lot != 0) then Some(InvalidQuantity)
      else if req.display > 0 && BadDisplay(r, req) then Some(InvalidQuantity)
      else if r.maxSize > 0 && req.quantity > r.maxSize then Some(MaxOrderSizeExceeded)
      else None
  {
    var cs := SizeChecks(r, req, throttled);
    var i := FirstBad(cs);
    assert (i > 0 ==> cs[0].ok) && (i > 1 ==> cs[1].ok) && (i > 2 ==> cs[2].ok) && (i > 3 ==> cs[3].ok)
      && (i > 4 ==> cs[4].ok) && (i > 5 ==> cs[5].ok) && (i > 6 ==> cs[6].ok) && (i > 7 ==> cs[7].ok)
      && (i > 8 ==> cs[8].ok);
  }

  lemma PriceReason(r: Rules, last: int, req: Request)
    ensures Reason(PriceChecks(r, last, req)) ==
      if req.IsPriced() && PriceRejection(r, last, req.price).Some? then PriceRejection(r, last, req.price)
      else if req.IsStop() && req.stopPrice <= 0 then Some(InvalidPrice)
      else None
  {
    var cs := PriceChecks(r, last, req);
    var i := FirstBad(cs);
    assert (i > 0 ==> cs[0].ok) && (i > 1 ==> cs[1].ok) && (i > 2 ==> cs[2].ok) && (i > 3 ==> cs[3].ok)
      && (i > 4 ==> cs[4].ok) && (i > 5 ==> cs[5].ok) && (i > 6 ==> cs[6].ok);
  }

  lemma StateReason(r: Rules, s: State, req: Request)
    ensures Reason(StateChecks(r, s, req)) ==
      if s.session == Closed then Some(ExchangeSpecific)
      else if !r.allowedIn(req, s.session) then Some(InvalidTif)
      else if r.checksPositions && ExceedsLimit(s.ledger.positions, req, r.positionLimit(req.account)) then Some(PositionLimitExceeded)
      else if s.nextId >= r.lim.maxIds || s.freeOrders == 0 then Some(PoolExhausted)
      else None
  {
    var cs := StateChecks(r, s, req);
    var i := FirstBad(cs);
    assert (i > 0 ==> cs[0].ok) && (i > 1 ==> cs[1].ok) && (i > 2 ==> cs[2].ok) && (i > 3 ==> cs[3].ok)
      && (i > 4 ==> cs[4].ok);
  }

  /** A new order is judged by its list of conditions. */
  lemma NewJudged(r: Rules, s: State, req: Request, throttled: bool)
    ensures Judged(NewChecks(r, s, req, throttled),
                   Rejection(r, s.session, s.lastTrade, s.nextId, s.freeOrders, s.ledger.positions, req, throttled))
  {
    hide Judged, SizeChecks, PriceChecks, StateChecks, Reason, BadDisplay, PriceRejection, ExceedsLimit;
    var a, b, c := SizeChecks(r, req, throttled), PriceChecks(r, s.lastTrade, req), StateChecks(r, s, req);
    SizeReason(r, req, throttled);
    PriceReason(r, s.lastTrade, req);
    StateReason(r, s, req);
    ReasonConcat(a, b);
    ReasonConcat(a + b, c);
    ReasonJudges(a + b + c);
  }

  /** So is a cancel. */
  lemma CancelJudged(s: State, id: nat, throttled: bool)
    ensures Judged(CancelChecks(s, id, throttled),
      if s.session == Closed then Some(ExchangeSpecific) else if id !in s.live then Some(UnknownOrder)
      else if throttled then Some(RateThrottled) else None)
  {
    hide Judged;
    var cs := CancelChecks(s, id, throttled);
    var i := FirstBad(cs);
    assert (i > 0 ==> cs[0].ok) && (i > 1 ==> cs[1].ok) && (i > 2 ==> cs[2].ok);
    ReasonJudges(cs);
  }

  /** And a modification. */
  lemma ModifyJudged(r: Rules, s: State, id: nat, price: int, quantity: int, throttled: bool)
    ensures Judged(ModifyChecks(r, s, id, price, quantity, throttled),
                   ModifyRejection(r, s.session, s.live, id, price, quantity, throttled))
  {
    hide Judged;
    var cs := ModifyChecks(r, s, id, price, quantity, throttled);
    var i := FirstBad(cs);
    assert (i > 0 ==> cs[0].ok) && (i > 1 ==> cs[1].ok) && (i > 2 ==> cs[2].ok) && (i > 3 ==> cs[3].ok)
      && (i > 4 ==> cs[4].ok) && (i > 5 ==> cs[5].ok) && (i > 6 ==> cs[6].ok) && (i > 7 ==> cs[7].ok);
    ReasonJudges(cs);
  }

  /** And an order brought back. */
  lemma RestoreJudged(r: Rules, s: State, o: Order, now: int, approved: bool)
    ensures Judged(RestoreChecks(r, s, o, now, approved), RestoreRejection(r, s.live, s.lastTrade, s.freeOrders, o, now, approved))
  {
    hide Judged;
    var cs := RestoreChecks(r, s, o, now, approved);
    var i := FirstBad(cs);
    assert (i > 0 ==> cs[0].ok) && (i > 1 ==> cs[1].ok) && (i > 2 ==> cs[2].ok) && (i > 3 ==> cs[3].ok)
      && (i > 4 ==> cs[4].ok) && (i > 5 ==> cs[5].ok) && (i > 6 ==> cs[6].ok) && (i > 7 ==> cs[7].ok)
      && (i > 8 ==> cs[8].ok) && (i > 9 ==> cs[9].ok) && (i > 10 ==> cs[10].ok);
    ReasonJudges(cs);
  }
}
