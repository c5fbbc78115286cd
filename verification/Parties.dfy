/**
  Whose trades they are: every trade names two orders the engine held, on opposite sides, moves the accounts
  of those two orders, and is at a price both accept.
 */
module Parties {
  import opened Types
  import opened Queues
  import opened Levels
  import opened Ledger
  import opened EngineState
  import opened Steps
  import opened Trading
  import opened Matching
  import opened Progress
  import opened Stops
  import opened Lifecycle
  import opened Cancels
  import opened Busts
  import opened Implied
  import opened Crossing
  import opened Restores
  import opened Turns
  import opened Runs
  import opened Effects
  import opened Checks
  import Auction
  import Room

  /** An order with its fills left out: what it was entered with. */
  function Face(o: Order): Order { o.(filled := 0, remaining := 0) }

  /** A price no worse than the order's limit. */
  predicate Accepts(o: Order, price: int) {
    o.kind == Limit ==> if o.side == Buy then price <= o.price else price >= o.price
  }

  /** A trade of x, the aggressor, with y. */
  ghost predicate Pairs(x: Order, y: Order, t: Trade) {
    && t.aggressor == x.id && t.aggressorAccount == x.account && t.side == x.side && Accepts(x, t.price)
    && t.resting == y.id && t.restingAccount == y.account && t.side != y.side && Accepts(y, t.price)
  }

  ghost predicate Honest(R: iset<Order>, t: Trade) { exists x, y :: x in R && y in R && Pairs(x, y, t) }

  /** An implied fill of the order x. */
  ghost predicate FillsOne(x: Order, t: Trade) {
    t.aggressor == t.resting == x.id && t.aggressorAccount == t.restingAccount == x.account && t.side == x.side
  }

  // ---------------------------------------------------------------- rosters

  ghost predicate OnRoster(R: iset<Order>, ls: seq<Level>) { forall lv, o :: lv in ls && o in lv.orders ==> Face(o) in R }

  /** Every order the engine holds is on the roster. */
  ghost predicate Enrolled(R: iset<Order>, s: State) {
    OnRoster(R, s.bids) && OnRoster(R, s.asks) && OnRoster(R, s.buyStops) && OnRoster(R, s.sellStops)
  }

  /** A stop on the roster is there as what it becomes, too: a market order, or a limit order at its price. */
  ghost predicate Armed(R: iset<Order>) {
    forall x :: x in R ==> (x.kind == Stop ==> x.(kind := Market, price := 0) in R) && (x.kind == StopLimit ==> x.(kind := Limit) in R)
  }

  /** The log and the last trade price at some moment. */
  datatype Mark = Mark(log: seq<Trade>, last: int)

  ghost function MarkOf(s: State): Mark { Mark(s.ledger.log, s.lastTrade) }

  /** The last trade price is that of the last trade. */
  ghost predicate LastPriced(was: Mark, s: State) {
    s.lastTrade == if |s.ledger.log| > |was.log| then s.ledger.log[|s.ledger.log| - 1].price else was.last
  }

  /** Trades made since are honest. */
  ghost predicate Fresh(R: iset<Order>, was: Mark, s: State) {
    && was.log <= s.ledger.log && LastPriced(was, s)
    && forall i :: |was.log| <= i < |s.ledger.log| ==> Honest(R, s.ledger.log[i])
  }

  ghost predicate Kept(R: iset<Order>, was: Mark, s: State) { Enrolled(R, s) && Fresh(R, was, s) }

  /** Nothing was traded in between. */
  ghost predicate Quoted(s: State, s': State) { s'.ledger.log == s.ledger.log && s'.lastTrade == s.lastTrade }

  lemma EnrolledHeld(R: iset<Order>, s: State)
    ensures Enrolled(R, s) <==> forall o :: Held(s, o) ==> Face(o) in R
  {
    if forall o :: Held(s, o) ==> Face(o) in R {
      forall lv, o | lv in s.bids && o in lv.orders ensures Face(o) in R { assert Listed(s.bids, o); }
      forall lv, o | lv in s.asks && o in lv.orders ensures Face(o) in R { assert Listed(s.asks, o); }
      forall lv, o | lv in s.buyStops && o in lv.orders ensures Face(o) in R { assert Listed(s.buyStops, o); }
      forall lv, o | lv in s.sellStops && o in lv.orders ensures Face(o) in R { assert Listed(s.sellStops, o); }
    }
  }

  lemma SameFresh(R: iset<Order>, was: Mark, s: State, t: State)
    requires Fresh(R, was, s) && Quoted(s, t)
    ensures Fresh(R, was, t)
  {
    hide Honest;
  }

  lemma FreshMore(R: iset<Order>, was: Mark, s: State, t: Trade, s': State)
    requires Fresh(R, was, s) && Honest(R, t) && s'.ledger.log == s.ledger.log + [t] && s'.lastTrade == t.price
    ensures Fresh(R, was, s')
  {
    hide Honest;
  }

  lemma PutRoster(R: iset<Order>, ls: seq<Level>, k: nat, q: seq<Order>)
    requires OnRoster(R, ls) && k < |ls| && forall o :: o in q ==> Face(o) in R
    ensures OnRoster(R, PutQueue(ls, k, q))
  {
    forall lv, o | lv in PutQueue(ls, k, q) && o in lv.orders ensures Face(o) in R {
      if lv !in ls { assert lv == MkLevel(ls[k].price, q); }
    }
  }

  lemma InsertRoster(R: iset<Order>, dir: Side, ls: seq<Level>, price: int, o: Order)
    requires OnRoster(R, ls) && Face(o) in R
    ensures OnRoster(R, Insert(dir, ls, price, o))
  {
    var k := Slot(dir, ls, price);
    if k < |ls| && ls[k].price == price {
      forall x | x in ls[k].orders + [o] ensures Face(x) in R { if x != o { assert ls[k] in ls && x in ls[k].orders; } }
      PutRoster(R, ls, k, ls[k].orders + [o]);
    } else {
      forall lv, x | lv in Insert(dir, ls, price, o) && x in lv.orders ensures Face(x) in R {
        if lv !in ls { assert lv == MkLevel(price, [o]); }
      }
    }
  }

  // ---------------------------------------------------------------- steps

  lemma BookRoster(R: iset<Order>, s: State, side: Side, ls: seq<Level>)
    requires Enrolled(R, s) && OnRoster(R, ls)
    ensures Enrolled(R, s.WithBook(side, ls))
  {
    hide OnRoster;
  }

  lemma AtRoster(R: iset<Order>, s: State, at: Place)
    requires Enrolled(R, s) && Spot(ListAt(s, at), at.k, at.j)
    ensures OnRoster(R, ListAt(s, at)) && forall o :: o in ListAt(s, at)[at.k].orders ==> Face(o) in R
    ensures Face(ListAt(s, at)[at.k].orders[at.j]) in R
  {
    var ls := ListAt(s, at);
    assert OnRoster(R, ls) && ls[at.k] in ls && ls[at.k].orders[at.j] in ls[at.k].orders;
  }

  lemma SwapKept(R: iset<Order>, s: State, side: Side, k: nat, j: nat, o: Order)
    requires Enrolled(R, s) && Spot(s.Book(side), k, j) && Face(o) in R
    ensures Enrolled(R, s.WithBook(side, PutQueue(s.Book(side), k, s.Book(side)[k].orders[j := o])))
  {
    hide PutQueue, OnRoster;
    var q := s.Book(side)[k].orders;
    AtRoster(R, s, Place(false, side, k, j));
    forall x | x in q[j := o] ensures Face(x) in R { if x != o { assert x in q; } }
    PutRoster(R, s.Book(side), k, q[j := o]);
    BookRoster(R, s, side, PutQueue(s.Book(side), k, q[j := o]));
  }

  lemma TakeKept(R: iset<Order>, s: State, side: Side, k: nat, j: nat, n: int, p: int)
    requires Enrolled(R, s) && Spot(s.Book(side), k, j)
    ensures Enrolled(R, TakeAt(s, side, k, j, n, p)) && Spot(TakeAt(s, side, k, j, n, p).Book(side), k, j)
  {
    hide OnRoster;
    AtRoster(R, s, Place(false, side, k, j));
    SwapKept(R, s, side, k, j, s.Book(side)[k].orders[j].Filled(n));
  }

  lemma WithoutKept(R: iset<Order>, q: seq<Order>, j: nat)
    requires j < |q| && forall o :: o in q ==> Face(o) in R
    ensures forall o :: o in Without(q, j) ==> Face(o) in R
  {
    forall o | o in Without(q, j) ensures Face(o) in R { assert o in q; }
  }

  lemma SettleKept(R: iset<Order>, s: State, side: Side, k: nat, j: nat)
    requires Enrolled(R, s) && Spot(s.Book(side), k, j)
    ensures Enrolled(R, SettleAt(s, side, k, j))
  {
    hide PutQueue, OnRoster, Without;
    var ls := s.Book(side);
    var q, o := ls[k].orders, ls[k].orders[j];
    AtRoster(R, s, Place(false, side, k, j));
    WithoutKept(R, q, j);
    var q' := if o.HasHidden() then Without(q, j) + [o.(remaining := o.NextTranche())] else Without(q, j);
    PutRoster(R, ls, k, q');
    BookRoster(R, s, side, PutQueue(ls, k, q'));
  }

  lemma TradeKept(R: iset<Order>, was: Mark, lim: Limits, s: State, side: Side, k: nat, j: nat, t: Trade)
    requires Enrolled(R, s) && Spot(s.Book(side), k, j)
    ensures var s' := TradeStep(lim, s, side, k, j, t);
      Enrolled(R, s') && s'.ledger.log == s.ledger.log + [t] && s'.lastTrade == t.price
    ensures Fresh(R, was, s) && Honest(R, t) ==> Kept(R, was, TradeStep(lim, s, side, k, j, t))
  {
    hide OnRoster, TakeAt, SettleAt, Honest, Fresh;
    TakeKept(R, s, side, k, j, t.qty, t.price);
    SettleKept(R, TakeAt(s, side, k, j, t.qty, t.price), side, k, j);
    if Fresh(R, was, s) && Honest(R, t) { FreshMore(R, was, s, t, TradeStep(lim, s, side, k, j, t)); }
  }

  lemma PullKept(R: iset<Order>, s: State, side: Side, k: nat, j: nat, p: int)
    requires Enrolled(R, s) && Spot(s.Book(side), k, j)
    ensures Enrolled(R, PullAt(s, side, k, j, p)) && Quoted(s, PullAt(s, side, k, j, p))
  {
    hide PutQueue, OnRoster, Without;
    AtRoster(R, s, Place(false, side, k, j));
    WithoutKept(R, s.Book(side)[k].orders, j);
    PutRoster(R, s.Book(side), k, Without(s.Book(side)[k].orders, j));
  }

  lemma UnparkKept(R: iset<Order>, s: State, side: Side, k: nat, j: nat)
    requires Enrolled(R, s) && Spot(s.Stops(side), k, j)
    ensures Enrolled(R, Unpark(s, side, k, j)) && Quoted(s, Unpark(s, side, k, j))
    ensures var o := s.Stops(side)[k].orders[j];
      Armed(R) && (o.kind == Stop || o.kind == StopLimit) ==> Face(Convert(o)) in R
  {
    hide PutQueue, OnRoster, Without;
    AtRoster(R, s, Place(true, side, k, j));
    WithoutKept(R, s.Stops(side)[k].orders, j);
    PutRoster(R, s.Stops(side), k, Without(s.Stops(side)[k].orders, j));
    assert Face(s.Stops(side)[k].orders[j]) in R;
  }

  lemma RestKept(R: iset<Order>, s: State, o: Order)
    requires Enrolled(R, s) && Face(o) in R
    ensures Enrolled(R, Rest(s, o)) && Quoted(s, Rest(s, o))
  {
    hide OnRoster, Insert;
    InsertRoster(R, o.side, s.Book(o.side), o.price, o);
  }

  lemma ParkKept(R: iset<Order>, s: State, o: Order, p: int)
    requires Enrolled(R, s) && Face(o) in R
    ensures Enrolled(R, Park(s, o, p)) && Quoted(s, Park(s, o, p))
  {
    hide OnRoster, Insert;
    InsertRoster(R, o.side.Opposite(), s.Stops(o.side), p, o);
  }

  lemma CancelKept(R: iset<Order>, s: State, at: Place, reason: CancelReason)
    requires Enrolled(R, s) && Spot(ListAt(s, at), at.k, at.j)
    ensures Enrolled(R, CancelAny(s, at, reason)) && Quoted(s, CancelAny(s, at, reason))
  {
    hide OnRoster, Unpark, PullAt;
    if at.stops { UnparkKept(R, s, at.side, at.k, at.j); } else { PullKept(R, s, at.side, at.k, at.j, ListAt(s, at)[at.k].orders[at.j].price); }
  }

  // ---------------------------------------------------------------- working an order

  /** A fill of an aggressor on the roster, with an order of the best level. */
  lemma CommitKept(R: iset<Order>, was: Mark, r: Rules, s: State, o: Order, c: State, agg: Order, fs: seq<Fill>)
    requires Turn(r, s, o, c, agg, fs) && fs != [] && Kept(R, was, c) && Face(o) in R
    ensures Kept(R, was, CommitStep(r.lim, c, o, fs[0]))
  {
    hide Turn, CommitStep, TradeStep, Enrolled, Fresh, Honest;
    var at := NextResting(r, s, o, c, agg, fs);
    CommitIs(r, s, o, c, agg, fs, at);
    var t := MatchTrade(c, agg, at, fs[0].quantity);
    MatchHonest(R, r, s, o, c, agg, fs, at, fs[0].quantity);
    TradeKept(R, was, r.lim, c, agg.side.Opposite(), 0, at, t);
  }

  lemma MatchHonest(R: iset<Order>, r: Rules, s: State, o: Order, c: State, agg: Order, fs: seq<Fill>, at: nat, n: int)
    requires Turn(r, s, o, c, agg, fs) && fs != [] && Enrolled(R, c) && Face(o) in R
    requires Spot(c.Book(o.side.Opposite()), 0, at)
    ensures agg.side == o.side && Honest(R, MatchTrade(c, agg, at, n))
  {
    hide OnRoster, Enrolled;
    var lv := c.Book(o.side.Opposite())[0];
    var y := lv.orders[at];
    HandRests(r.lim, c, agg, o.side.Opposite(), at);
    AtRoster(R, c, Place(false, o.side.Opposite(), 0, at));
    assert Face(agg) == Face(o);
    assert Pairs(Face(agg), Face(y), MatchTrade(c, agg, at, n));
  }

  lemma HandRests(lim: Limits, c: State, agg: Order, side: Side, at: nat)
    requires InHand(lim, c, agg) && Spot(c.Book(side), 0, at)
    ensures RestsAt(side, c.Book(side)[0].price, c.Book(side)[0].orders[at])
  {
    SideOfShape(lim, c, multiset{agg.id}, side);
    assert BookLevel(side, c.Book(side)[0]);
  }

  lemma {:induction false} CommittedKept(R: iset<Order>, was: Mark, r: Rules, s: State, o: Order, fs: seq<Fill>, k: nat)
    requires InHand(r.lim, s, o) && Answer(r, s, o, fs) && k <= |fs| && NoSelf(r, s, o, fs, k) && Kept(R, was, s) && Face(o) in R
    ensures Kept(R, was, Committed(r.lim, s, o, fs[..k]))
  {
    hide InHand, Turn, Answer, SelfFill, CommitStep, Kept;
    if k == 0 {
      assert fs[..0] == [];
    } else {
      CommittedKept(R, was, r, s, o, fs, k - 1);
      TurnAt(r, s, o, fs, k - 1);
      assert fs[k-1..][0] == fs[k-1];
      var c := Committed(r.lim, s, o, fs[..k-1]);
      CommitKept(R, was, r, s, o, c, o.Filled(TotalFills(fs[..k-1])), fs[k-1..]);
      CommittedSnoc(r.lim, s, o, fs, k - 1);
    }
  }

  lemma TurnKept(R: iset<Order>, was: Mark, r: Rules, s: State, o: Order, fs: seq<Fill>, k: nat, v: State, o': Order)
    requires InHand(r.lim, s, o) && TurnIs(r, s, o, fs, k, v, o') && Kept(R, was, s) && Face(o) in R
    ensures Kept(R, was, v) && Face(o') == Face(o)
  {
    hide InHand, Turn, Answer, SelfFill, NoSelf, CommitStep, Committed, Fresh, Enrolled, PullAt;
    var c := Committed(r.lim, s, o, fs[..k]);
    CommittedKept(R, was, r, s, o, fs, k);
    if k < |fs| && r.smp != CancelNewest {
      TurnAt(r, s, o, fs, k);
      SelfSpot(r, s, o, c, o', fs[k..]);
      var j := FirstAt(c.Book(o.side.Opposite())[0].orders, fs[k].resting);
      PullKept(R, c, o.side.Opposite(), 0, j, fs[k].price);
      DropKept(R, PullAt(c, o.side.Opposite(), 0, j, fs[k].price), c.Book(o.side.Opposite())[0].orders[j].id, SelfMatchPrevention);
      SameFresh(R, was, c, v);
    }
  }

  lemma DropKept(R: iset<Order>, s: State, id: nat, reason: CancelReason)
    requires Enrolled(R, s)
    ensures Enrolled(R, DropHand(s, id, reason)) && Quoted(s, DropHand(s, id, reason))
  {
    hide OnRoster;
  }

  lemma {:induction false} TurnsKept(R: iset<Order>, was: Mark, r: Rules, s0: State, o0: Order, ds: seq<Round>, v: State, o: Order, alive: bool)
    requires InHand(r.lim, s0, o0) && TurnsTo(r, s0, o0, ds, v, o, alive) && Kept(R, was, s0) && Face(o0) in R
    ensures InHand(r.lim, v, o) && Kept(R, was, v) && Face(o) == Face(o0)
    decreases |ds|
  {
    hide InHand, Kept, TurnIs, Halts;
    if ds != [] {
      var d := ds[|ds| - 1];
      TurnsKept(R, was, r, s0, o0, ds[..|ds| - 1], d.before, d.order, true);
      TurnKeeps(r, d.before, d.order, d.fills, d.k, v, o);
      TurnKept(R, was, r, d.before, d.order, d.fills, d.k, v, o);
    }
  }

  lemma EndKept(R: iset<Order>, was: Mark, s: State, o: Order, outcome: Outcome)
    requires Kept(R, was, s) && Face(o) in R
    ensures Kept(R, was, Ended(s, o, outcome))
  {
    hide Fresh, OnRoster, Rest;
    if outcome == Booked { RestKept(R, s, o); }
    SameFresh(R, was, s, Ended(s, o, outcome));
  }

  lemma WorkKept(R: iset<Order>, was: Mark, r: Rules, s0: State, o0: Order, w: Work, s1: State)
    requires InHand(r.lim, s0, o0) && WorkedBy(r, s0, o0, w, s1) && Kept(R, was, s0) && Face(o0) in R
    ensures Kept(R, was, s1)
  {
    hide InHand, TurnsTo, Ends, SessionSince, Ended, Fresh, OnRoster;
    TurnsKept(R, was, r, s0, o0, w.turns, w.v, w.o, w.outcome != Dropped(SelfMatchPrevention));
    SameFresh(R, was, w.v, w.v.(session := SessionSince(r, s0, w.turns, w.v)));
    EndKept(R, was, w.v.(session := SessionSince(r, s0, w.turns, w.v)), w.o, w.outcome);
  }

  lemma StopKind(lim: Limits, s: State, side: Side)
    requires Inv(lim, s, multiset{}) && Spot(s.Stops(side), 0, 0)
    ensures var o := s.Stops(side)[0].orders[0]; o.kind == Stop || o.kind == StopLimit
  {
    StopSideOf(lim, s, multiset{}, side);
    assert StopLevel(side, s.Stops(side)[0]) && WaitsAt(side, s.Stops(side)[0].price, s.Stops(side)[0].orders[0]);
  }

  lemma EventKept(R: iset<Order>, was: Mark, r: Rules, e: Event)
    requires Inv(r.lim, e.before, multiset{}) && Fires(r, e) && Kept(R, was, e.before) && Armed(R)
    ensures Inv(r.lim, e.after, multiset{}) && Kept(R, was, e.after)
  {
    hide Inv, InHand, WorkedBy, Unpark, Convert, Fresh, Enrolled, Armed;
    HeadStop(r.lim, e.before, e.side);
    StopKind(r.lim, e.before, e.side);
    UnparkKept(R, e.before, e.side, 0, 0);
    SameFresh(R, was, e.before, Unpark(e.before, e.side, 0, 0));
    WorkKept(R, was, r, Unpark(e.before, e.side, 0, 0), Convert(e.before.Stops(e.side)[0].orders[0]), e.work, e.after);
    WorkInv(r, Unpark(e.before, e.side, 0, 0), Convert(e.before.Stops(e.side)[0].orders[0]), e.work, e.after);
  }

  lemma {:induction false} CascadeKept(R: iset<Order>, was: Mark, r: Rules, s: State, trail: seq<Event>, s': State)
    requires Inv(r.lim, s, multiset{}) && Cascade(r, s, trail, s') && Kept(R, was, s) && Armed(R)
    ensures Inv(r.lim, s', multiset{}) && Kept(R, was, s')
    decreases |trail|
  {
    hide Inv, Fires, Kept, Armed;
    if trail != [] {
      var e := trail[|trail| - 1];
      CascadeKept(R, was, r, s, trail[..|trail| - 1], e.before);
      EventKept(R, was, r, e);
    }
  }

  lemma PlayedKept(R: iset<Order>, was: Mark, r: Rules, s: State, o: Order, y: Story, s': State)
    requires InHand(r.lim, s, o) && Played(r, s, o, y, s') && Kept(R, was, s) && Armed(R) && Face(o) in R
    ensures Inv(r.lim, s', multiset{}) && Kept(R, was, s')
  {
    hide Inv, InHand, WorkedBy, Cascade, Kept, Armed;
    WorkKept(R, was, r, s, o, y.work, y.middle);
    WorkInv(r, s, o, y.work, y.middle);
    CascadeKept(R, was, r, y.middle, y.trail, s');
  }

  // ---------------------------------------------------------------- operations

  ghost function Faces(s: State): iset<Order> { iset o: Order | Held(s, o) :: Face(o) }

  /** The roster with what its stops become. */
  ghost function Arms(R: iset<Order>): iset<Order> {
    R + (iset x | x in R && x.kind == Stop :: x.(kind := Market, price := 0)) + (iset x | x in R && x.kind == StopLimit :: x.(kind := Limit))
  }

  lemma ArmsArmed(R: iset<Order>)
    ensures Armed(Arms(R)) && R <= Arms(R)
  {
  }

  lemma OwnFaces(R: iset<Order>, s: State)
    requires Faces(s) <= R
    ensures Enrolled(R, s)
  {
    hide Held;
    EnrolledHeld(R, s);
    forall o | Held(s, o) ensures Face(o) in R { assert Face(o) in Faces(s); }
  }

  /** What a request asks to be entered under an identifier. */
  ghost function Asked(req: Request, id: nat): Order {
    Order(id, req.account, req.side, req.kind, req.tif, if req.kind == Stop then req.stopPrice else req.price, req.quantity, 0, 0,
          req.timestamp, req.gtdExpiry, req.display, req.quantity, req.marketMaker, false)
  }

  /** A reduction in place: the exchange amends, at the same price, to less but more than is filled. */
  predicate Reduces(r: Rules, o: Order, price: int, quantity: int) {
    r.amend == AmendDown && price == o.price && quantity < o.quantity && quantity > o.filled
  }

  /** An order under its new terms; its time is its own only after a reduction in place. */
  ghost function Amended(r: Rules, o: Order, price: int, quantity: int, ts: int): Order {
    Face(o).(price := price, quantity := quantity, timestamp := if Reduces(r, o, price, quantity) then o.timestamp else ts)
  }

  /** The orders that may be held or trade once an operation has begun. */
  ghost function Roster(r: Rules, s: State, op: Op): iset<Order> {
    match op
    case New(req, throttled) =>
      var R := Faces(s) + iset{Asked(req, s.nextId)};
      if req.kind == Stop || req.kind == StopLimit then R else Arms(R)
    case Restore(o, now, approved) => Faces(s) + iset{Face(o)}
    case Modify(id, price, quantity, ts, throttled) =>
      if AllPass(ModifyChecks(r, s, id, price, quantity, throttled)) then
        Arms((iset o: Order | Held(s, o) && o.id != id :: Face(o)) +
             (iset o: Order | Held(s, o) && o.id == id :: Amended(r, o, price, quantity, ts)))
      else Faces(s)
    case _ => Faces(s)
  }

  /** The trade of a leg with an order of the roster. */
  ghost predicate LegHonest(R: iset<Order>, leg: Leg, t: Trade) {
    t.price == leg.price && t.qty == leg.qty && exists x :: x in R && x.id == leg.id && FillsOne(x, t)
  }

  /** What an operation adds to the log. */
  ghost predicate OpFresh(R: iset<Order>, op: Op, was: Mark, s: State) {
    if op.Fills? then
      var now, n := s.ledger.log, |was.log|;
      && was.log <= now && LastPriced(was, s) && |now| - n <= |op.legs|
      && forall i :: n <= i < |now| ==> LegHonest(R, op.legs[i - n], now[i])
    else Fresh(R, was, s)
  }

  lemma FreshNone(R: iset<Order>, op: Op, s: State, s': State)
    requires Quoted(s, s')
    ensures Fresh(R, MarkOf(s), s') && OpFresh(R, op, MarkOf(s), s')
  {
  }

  lemma {:induction false} SweepKept(R: iset<Order>, w: Sweep, reason: CancelReason, s: State, trail: seq<Visit>, s': State)
    requires Sweeps(w, reason, s, trail, s') && Enrolled(R, s)
    ensures Enrolled(R, s') && Quoted(s, s')
    decreases |trail|
  {
    hide Enrolled, CancelAny;
    if trail != [] {
      var e := trail[|trail| - 1];
      SweepKept(R, w, reason, s, trail[..|trail| - 1], e.before);
      CancelKept(R, e.before, e.at, reason);
    }
  }

  lemma {:induction false} LegsKept(R: iset<Order>, lim: Limits, legs: seq<Leg>, s: State, trail: seq<Visit>, s': State)
    requires |trail| <= |legs| && FillsLegs(lim, legs, s, trail, s') && Enrolled(R, s)
    ensures Enrolled(R, s') && LastPriced(MarkOf(s), s') && s.ledger.log <= s'.ledger.log && |s'.ledger.log| == |s.ledger.log| + |trail|
    ensures forall i :: 0 <= i < |trail| ==> LegHonest(R, legs[i], s'.ledger.log[|s.ledger.log| + i])
    decreases |trail|
  {
    hide Enrolled, TradeStep, LegHonest;
    if trail != [] {
      var n := |trail| - 1;
      var e := trail[n];
      LegsKept(R, lim, legs, s, trail[..n], e.before);
      LegKept(R, lim, e, legs[n], s');
      forall i | 0 <= i < n ensures LegHonest(R, legs[i], s'.ledger.log[|s.ledger.log| + i]) {
        assert s'.ledger.log[|s.ledger.log| + i] == e.before.ledger.log[|s.ledger.log| + i];
      }
    }
  }

  lemma LegKept(R: iset<Order>, lim: Limits, e: Visit, leg: Leg, s': State)
    requires Enrolled(R, e.before) && !e.at.stops && Finds(e.before, e.at, leg.id)
    requires s' == TradeStep(lim, e.before, e.at.side, e.at.k, e.at.j, LegTrade(ListAt(e.before, e.at)[e.at.k].orders[e.at.j], leg))
    ensures Enrolled(R, s') && exists t :: s'.ledger.log == e.before.ledger.log + [t] && LegHonest(R, leg, t) && s'.lastTrade == t.price
  {
    hide OnRoster, TradeStep;
    var o := ListAt(e.before, e.at)[e.at.k].orders[e.at.j];
    AtRoster(R, e.before, e.at);
    TradeKept(R, MarkOf(e.before), lim, e.before, e.at.side, e.at.k, e.at.j, LegTrade(o, leg));
    assert FillsOne(Face(o), LegTrade(o, leg)) && Face(o).id == leg.id;
  }

  lemma CrossKept(R: iset<Order>, was: Mark, lim: Limits, s: State, jb: nat, ja: nat, n: int, p: int)
    requires Inv(lim, s, multiset{}) && Kept(R, was, s) && Spot(s.bids, 0, jb) && Spot(s.asks, 0, ja) && s.bids[0].price >= p >= s.asks[0].price
    ensures Kept(R, was, CrossStep(lim, s, jb, ja, n, p))
  {
    hide SettleAt, OnRoster, Honest, TakeAt, Inv, Posted;
    var s1 := TakeAt(s, Buy, 0, jb, n, p);
    var s3 := CrossTaken(lim, s, jb, ja, n, p);
    TakeKept(R, s, Buy, 0, jb, n, p);
    TakenBeside(s, jb, n, p);
    TakeKept(R, s1, Sell, 0, ja, n, p);
    CrossSpots(lim, s, jb, ja, n, p);
    SettleKept(R, s3, Buy, 0, jb);
    SettleLocal(s3, s3, Buy, 0, jb);
    SettleKept(R, SettleAt(s3, Buy, 0, jb), Sell, 0, ja);
    CrossFrame(lim, s, jb, ja, n, p);
    CrossHonest(R, lim, s, jb, ja, n, p);
    PostedLog(s.ledger, CrossTrade(s, jb, ja, n, p), lim.maxTrades);
    FreshMore(R, was, s, CrossTrade(s, jb, ja, n, p), CrossStep(lim, s, jb, ja, n, p));
  }

  lemma TakenBeside(s: State, jb: nat, n: int, p: int)
    requires Spot(s.bids, 0, jb)
    ensures TakeAt(s, Buy, 0, jb, n, p).asks == s.asks
  {
  }

  lemma CrossSpots(lim: Limits, s: State, jb: nat, ja: nat, n: int, p: int)
    requires Spot(s.bids, 0, jb) && Spot(s.asks, 0, ja)
    ensures var s3 := CrossTaken(lim, s, jb, ja, n, p); Spot(s3.bids, 0, jb) && Spot(s3.asks, 0, ja)
  {
  }

  lemma PostedLog(l: Ledger, t: Trade, maxTrades: nat)
    ensures Posted(l, t, maxTrades).log == l.log + [t]
  {
  }

  lemma CrossHonest(R: iset<Order>, lim: Limits, s: State, jb: nat, ja: nat, n: int, p: int)
    requires Inv(lim, s, multiset{}) && Enrolled(R, s) && Spot(s.bids, 0, jb) && Spot(s.asks, 0, ja) && s.bids[0].price >= p >= s.asks[0].price
    ensures Honest(R, CrossTrade(s, jb, ja, n, p))
  {
    hide OnRoster, Shape, Balanced, Showing, ReconciledSide;
    var b, a := s.bids[0].orders[jb], s.asks[0].orders[ja];
    AtRoster(R, s, Place(false, Buy, 0, jb));
    AtRoster(R, s, Place(false, Sell, 0, ja));
    TopRests(lim, s, Buy, jb);
    TopRests(lim, s, Sell, ja);
    assert Pairs(Face(b), Face(a), CrossTrade(s, jb, ja, n, p));
  }

  lemma TopRests(lim: Limits, s: State, side: Side, j: nat)
    requires Shape(lim, s, multiset{}) && Spot(s.Book(side), 0, j)
    ensures RestsAt(side, s.Book(side)[0].price, s.Book(side)[0].orders[j])
  {
    SideOfShape(lim, s, multiset{}, side);
    assert BookLevel(side, s.Book(side)[0]);
  }

  lemma {:induction false} WalkKept(R: iset<Order>, was: Mark, lim: Limits, p: int, w: Walk, trail: seq<Walk>, w': Walk)
    requires Walks(lim, p, w, trail, w') && Inv(lim, w.s, multiset{}) && Kept(R, was, w.s)
    ensures Inv(lim, w'.s, multiset{}) && Kept(R, was, w'.s)
    decreases |trail|
  {
    hide Inv, Kept, CrossStep;
    if trail != [] {
      var n := |trail| - 1;
      WalkKept(R, was, lim, p, w, trail[..n], trail[n]);
      WalkOnKept(R, was, lim, p, trail[n], w');
    }
  }

  lemma WalkOnKept(R: iset<Order>, was: Mark, lim: Limits, p: int, w: Walk, w': Walk)
    requires WalksOn(lim, p, w, w') && Inv(lim, w.s, multiset{}) && Kept(R, was, w.s)
    ensures Inv(lim, w'.s, multiset{}) && Kept(R, was, w'.s)
  {
    hide Inv, Kept, CrossStep, WalkOn;
    var s, jb, ja := w.s, w.Bid(), w.Ask();
    var n := Min(w.left, Min(s.bids[0].orders[jb].remaining, s.asks[0].orders[ja].remaining));
    TopShows(lim, s, Buy, jb);
    TopShows(lim, s, Sell, ja);
    CrossInv(lim, s, jb, ja, n, p);
    CrossKept(R, was, lim, s, jb, ja, n, p);
  }

  lemma TopShows(lim: Limits, s: State, side: Side, j: nat)
    requires Inv(lim, s, multiset{}) && Spot(s.Book(side), 0, j)
    ensures s.Book(side)[0].orders[j].remaining > 0
  {
    assert s.Book(side)[0] in s.Book(side) && AllPositive(s.Book(side)[0].orders);
  }

  lemma GaveBackKept(R: iset<Order>, s: State, id: nat, q: int, at: Place, s': State)
    requires GaveBack(s, id, q, at, s') && Enrolled(R, s)
    ensures Enrolled(R, s') && Quoted(s, s')
  {
    hide OnRoster, PutQueue;
    if id in s.live {
      AtRoster(R, s, at);
      SwapKept(R, s, at.side, at.k, at.j, s.Book(at.side)[at.k].orders[at.j].Filled(-q));
    }
  }

  lemma ReversedKept(R: iset<Order>, s: State, i: nat, a: Place, s1: State, b: Place, s': State)
    requires i < |s.ledger.trades| && Reversed(s, i, a, s1, b, s') && Enrolled(R, s)
    ensures Enrolled(R, s') && Quoted(s, s')
  {
    hide OnRoster, GaveBack;
    var t := s.ledger.trades[i].trade;
    GaveBackKept(R, s, t.aggressor, t.qty, a, s1);
    GaveBackKept(R, s1, t.resting, t.qty, b, s'.(ledger := s.ledger));
  }

  lemma AskedFace(req: Request, id: nat)
    ensures Face(OrderOf(req, id)) == Asked(req, id)
  {
  }

  lemma RoutedKept(r: Rules, s: State, req: Request, throttled: bool, y: Story, s': State)
    requires Inv(r.lim, s, multiset{})
    requires Rejection(r, s.session, s.lastTrade, s.nextId, s.freeOrders, s.ledger.positions, req, throttled).None?
    requires Routed(r, AcceptedState(s), OrderOf(req, s.nextId), req, y, s')
    ensures Kept(Roster(r, s, New(req, throttled)), MarkOf(s), s')
  {
    hide Inv, InHand, Kept, Armed, Arms, Faces, OrderOf, Asked, Played, Park, Ended, Rejection;
    var R, was, s1, o := Roster(r, s, New(req, throttled)), MarkOf(s), AcceptedState(s), OrderOf(req, s.nextId);
    ArmsArmed(Faces(s) + iset{Asked(req, s.nextId)});
    AskedFace(req, s.nextId);
    NotThrottled(r, s, req, throttled);
    AcceptInv(r, s, req);
    StartKept(R, s, s1);
    if req.IsStop() {
      ParkedKept(R, was, s1, o, req.stopPrice);
    } else if Collecting(s1.session) {
      EndKept(R, was, s1, o, if o.kind == Limit then Booked else Dropped(IOCRemainder));
    } else {
      PlayedKept(R, was, r, s1, o, y, s');
    }
  }

  lemma StartKept(R: iset<Order>, s: State, s1: State)
    requires Faces(s) <= R && Quoted(s, s1)
    requires s1.bids == s.bids && s1.asks == s.asks && s1.buyStops == s.buyStops && s1.sellStops == s.sellStops
    ensures Kept(R, MarkOf(s), s1)
  {
    hide OnRoster, Faces;
    OwnFaces(R, s);
  }

  lemma ParkedKept(R: iset<Order>, was: Mark, s: State, o: Order, p: int)
    requires Kept(R, was, s) && Face(o) in R
    ensures Kept(R, was, Park(s, o, p))
  {
    hide Fresh, OnRoster, Park;
    ParkKept(R, s, o, p);
    SameFresh(R, was, s, Park(s, o, p));
  }

  /** With the order taken out, the others and its new terms are a roster. */
  lemma PulledKept(R: iset<Order>, lim: Limits, s: State, at: Place, s1: State)
    requires Inv(lim, s, multiset{}) && !at.stops && Spot(s.Book(at.side), at.k, at.j)
    requires s1 == PullAt(s, at.side, at.k, at.j, s.Book(at.side)[at.k].orders[at.j].price)
    requires forall o :: Held(s, o) && o.id != s.Book(at.side)[at.k].orders[at.j].id ==> Face(o) in R
    ensures Kept(R, MarkOf(s), s1)
  {
    hide Inv, Held, PutQueue, Without, Enrolled;
    forall o | Held(s1, o) ensures Face(o) in R {
      CancelAnyHeld(lim, s, at, UserRequested, o);
      SameLists(CancelAny(s, at, UserRequested), s1, o);
    }
    EnrolledHeld(R, s1);
  }

  lemma SameLists(s: State, t: State, o: Order)
    requires t.bids == s.bids && t.asks == s.asks && t.buyStops == s.buyStops && t.sellStops == s.sellStops
    ensures Held(t, o) <==> Held(s, o)
  {
  }

  lemma ModifiedKept(r: Rules, s: State, op: Op, at: Place, y: Story, s': State)
    requires Inv(r.lim, s, multiset{}) && op.Modify? && Modifiable(s, op.id, op.quantity)
    requires AllPass(ModifyChecks(r, s, op.id, op.price, op.quantity, op.throttled))
    requires Modified(r, s, op.id, op.price, op.quantity, op.ts, at, y, s')
    ensures Kept(Roster(r, s, op), MarkOf(s), s')
  {
    hide Inv, InHand, Kept, Armed, Arms, Played, PutQueue, Without, Modifiable, Held, ModifyChecks, AllPass, Amended, AmendAt, PullAt;
    var o := s.Book(at.side)[at.k].orders[at.j];
    var R := Roster(r, s, op);
    TermsOnRoster(r, s, op, at);
    if AmendsInPlace(r, o, op.price, op.quantity) {
      AmendedKept(r, s, op, at, R, s');
    } else {
      var s1, x := PullAt(s, at.side, at.k, at.j, o.price), Replaced(o, op.price, op.quantity, op.ts);
      PulledKept(R, r.lim, s, at, s1);
      ModifyTarget(r.lim, s, at, op.id, op.quantity);
      ReplaceInHand(r.lim, s, at.side, at.k, at.j, op.price, op.quantity, op.ts);
      ReplacedFace(r, o, op.price, op.quantity, op.ts);
      PlayedKept(R, MarkOf(s), r, s1, x, y, s');
    }
  }

  lemma ReplacedFace(r: Rules, o: Order, price: int, quantity: int, ts: int)
    ensures !AmendsInPlace(r, o, price, quantity) ==> Face(Replaced(o, price, quantity, ts)) == Amended(r, o, price, quantity, ts)
    ensures AmendsInPlace(r, o, price, quantity) ==>
      Face(o.(quantity := quantity, remaining := quantity - o.filled)) == Amended(r, o, price, quantity, ts)
  {
  }

  lemma SpotHeld(s: State, side: Side, k: nat, j: nat)
    requires Spot(s.Book(side), k, j)
    ensures Held(s, s.Book(side)[k].orders[j])
  {
    var ls := s.Book(side);
    assert ls[k] in ls && ls[k].orders[j] in ls[k].orders && Listed(ls, ls[k].orders[j]);
  }

  lemma TermsOnRoster(r: Rules, s: State, op: Op, at: Place)
    requires op.Modify? && AllPass(ModifyChecks(r, s, op.id, op.price, op.quantity, op.throttled))
    requires Spot(s.Book(at.side), at.k, at.j) && s.Book(at.side)[at.k].orders[at.j].id == op.id
    ensures var R, o := Roster(r, s, op), s.Book(at.side)[at.k].orders[at.j];
      Armed(R) && Amended(r, o, op.price, op.quantity, op.ts) in R && forall x :: Held(s, x) && x.id != op.id ==> Face(x) in R
  {
    hide AllPass, ModifyChecks, Arms, Armed, Amended, Held;
    var o := s.Book(at.side)[at.k].orders[at.j];
    SpotHeld(s, at.side, at.k, at.j);
    var A := iset x: Order | Held(s, x) && x.id != op.id :: Face(x);
    var B := iset x: Order | Held(s, x) && x.id == op.id :: Amended(r, x, op.price, op.quantity, op.ts);
    ArmsArmed(A + B);
    assert Amended(r, o, op.price, op.quantity, op.ts) in B;
    forall x | Held(s, x) && x.id != op.id ensures Face(x) in Roster(r, s, op) { assert Face(x) in A; }
  }

  lemma AmendedKept(r: Rules, s: State, op: Op, at: Place, R: iset<Order>, s': State)
    requires Inv(r.lim, s, multiset{}) && op.Modify? && !at.stops && Spot(s.Book(at.side), at.k, at.j)
    requires var o := s.Book(at.side)[at.k].orders[at.j];
      && o.id == op.id && AmendsInPlace(r, o, op.price, op.quantity) && s' == AmendAt(s, at.side, at.k, at.j, op.quantity)
      && Amended(r, o, op.price, op.quantity, op.ts) in R
    requires forall x :: Held(s, x) && x.id != op.id ==> Face(x) in R
    ensures Kept(R, MarkOf(s), s')
  {
    hide Inv, Held, PutQueue, Amended, Enrolled;
    var o := s.Book(at.side)[at.k].orders[at.j];
    AmendInv(r.lim, s, at.side, at.k, at.j, op.quantity);
    AmendedSpot(s, at.side, at.k, at.j, op.quantity);
    ReplacedFace(r, o, op.price, op.quantity, op.ts);
    forall x | Held(s', x) ensures Face(x) in R {
      if x.id == op.id { HeldUnique(r.lim, s', at, x); } else { AmendedOthers(s, at.side, at.k, at.j, op.quantity, x); }
    }
    EnrolledHeld(R, s');
  }

  lemma AmendedSpot(s: State, side: Side, k: nat, j: nat, quantity: int)
    requires Spot(s.Book(side), k, j)
    ensures var s', o := AmendAt(s, side, k, j, quantity), s.Book(side)[k].orders[j];
      Spot(s'.Book(side), k, j) && s'.Book(side)[k].orders[j] == o.(quantity := quantity, remaining := quantity - o.filled)
  {
  }

  /** The others are there as they were, in their places. */
  lemma AmendedOthers(s: State, side: Side, k: nat, j: nat, quantity: int, x: Order)
    requires Spot(s.Book(side), k, j) && x.id != s.Book(side)[k].orders[j].id && Held(AmendAt(s, side, k, j, quantity), x)
    ensures Held(s, x)
  {
    var ls, s' := s.Book(side), AmendAt(s, side, k, j, quantity);
    if Listed(s'.Book(side), x) {
      var lv :| lv in s'.Book(side) && x in lv.orders;
      if lv in ls {
        assert Listed(ls, x);
      } else {
        var i :| 0 <= i < |lv.orders| && lv.orders[i] == x;
        assert x == ls[k].orders[i] && ls[k] in ls && Listed(ls, x);
      }
    }
  }

  /** Whatever an operation does, what it leaves is on its roster and what it trades is between two orders of
      it, or is what a leg asks for. */
  lemma OpKept(r: Rules, s: State, op: Op, note: Note, s': State)
    requires Inv(r.lim, s, multiset{}) && Owed(r, s, op) && Does(r, s, op, note, s')
    ensures Enrolled(Roster(r, s, op), s') && OpFresh(Roster(r, s, op), op, MarkOf(s), s')
  {
    hide Inv, Enrolled, Fresh, OpFresh, Roster, Routed, Modified, Reversed, FillsLegs, Walks, Sweeps, Rejection, ModifyRejection,
         RestoreRejection, Restored, LegsOk, Cancels.Held, Bustable, CancelAny, RestingLegs, Modifiable, RoomToReplace, Restorable,
         Room.RoomFor, Auction.Clears, ModifyChecks, AllPass;
    var R := Roster(r, s, op);
    if Quoted(s, s') { FreshNone(R, op, s, s'); }
    match op
    case New(req, throttled) =>
      NewRoster(r, s, op);
      if Rejection(r, s.session, s.lastTrade, s.nextId, s.freeOrders, s.ledger.positions, req, throttled).None? {
        RoutedKept(r, s, req, throttled, note.story, s');
        OpFreshIs(R, op, MarkOf(s), s');
      }
    case Cancel(id, throttled) =>
      NewRoster(r, s, op);
      if !CancelRefused(s, id, throttled) { CancelKept(R, s, note.at, UserRequested); }
    case SweepOrders(w, reason) =>
      NewRoster(r, s, op);
      SweepKept(R, w, reason, s, note.trail, s');
    case Modify(id, price, quantity, ts, throttled) =>
      ModifyJudged(r, s, id, price, quantity, throttled);
      if ModifyRejection(r, s.session, s.live, id, price, quantity, throttled).None? {
        ModifiedKept(r, s, op, note.at, note.story, s');
        OpFreshIs(R, op, MarkOf(s), s');
      } else {
        NewRoster(r, s, op);
      }
    case Bust(tradeId, approved) =>
      NewRoster(r, s, op);
      if BustsTrade(s, tradeId, approved) { ReversedKept(R, s, tradeId - 1, note.a, note.middle, note.b, s'); }
    case Fills(legs) =>
      NewRoster(r, s, op);
      if LegsOk(s, legs) {
        LegsKept(R, r.lim, legs, s, note.trail, s');
        LegsFresh(R, legs, MarkOf(s), s');
      }
    case Uncross(reference) =>
      NewRoster(r, s, op);
      if note.r.hasPrice {
        FreshNone(R, op, s, s);
        WalkKept(R, MarkOf(s), r.lim, note.r.price, Walk(s, note.r.matched, None, None), note.walk, note.last);
        SameFresh(R, MarkOf(s), note.last.s, s');
        OpFreshIs(R, op, MarkOf(s), s');
        SameEnrolled(R, note.last.s, s');
      }
    case Enter(to, allowed) =>
      NewRoster(r, s, op);
      SameEnrolled(R, s, s');
    case Unlock =>
      NewRoster(r, s, op);
      SameEnrolled(R, s, s');
    case Restore(o, now, approved) =>
      NewRoster(r, s, op);
      if RestoreRejection(r, s.live, s.lastTrade, s.freeOrders, o, now, approved).None? { RestoredKept(R, s, op, r); }
  }

  lemma OpFreshIs(R: iset<Order>, op: Op, was: Mark, s: State)
    requires !op.Fills? && Fresh(R, was, s)
    ensures OpFresh(R, op, was, s)
  {
  }

  lemma LegsFresh(R: iset<Order>, legs: seq<Leg>, was: Mark, s: State)
    requires was.log <= s.ledger.log && LastPriced(was, s) && |s.ledger.log| == |was.log| + |legs|
    requires forall i :: 0 <= i < |legs| ==> LegHonest(R, legs[i], s.ledger.log[|was.log| + i])
    ensures OpFresh(R, Fills(legs), was, s)
  {
    hide LegHonest;
    var n := |was.log|;
    forall i | n <= i < |s.ledger.log| ensures LegHonest(R, legs[i - n], s.ledger.log[i]) {
      assert LegHonest(R, legs[i - n], s.ledger.log[n + (i - n)]);
    }
  }

  lemma SameEnrolled(R: iset<Order>, s: State, t: State)
    requires Enrolled(R, s) && t.bids == s.bids && t.asks == s.asks && t.buyStops == s.buyStops && t.sellStops == s.sellStops
    ensures Enrolled(R, t)
  {
    hide OnRoster;
  }

  /** Unless an order is modified, whoever was held is on the roster. */
  lemma NewRoster(r: Rules, s: State, op: Op)
    requires op.Modify? ==> !AllPass(ModifyChecks(r, s, op.id, op.price, op.quantity, op.throttled))
    ensures Faces(s) <= Roster(r, s, op) && Enrolled(Roster(r, s, op), s)
  {
    hide Faces, Arms, Enrolled, Asked, ModifyChecks, AllPass;
    if op.New? { ArmsArmed(Faces(s) + iset{Asked(op.req, s.nextId)}); }
    OwnFaces(Roster(r, s, op), s);
  }

  lemma RestoredKept(R: iset<Order>, s: State, op: Op, r: Rules)
    requires op.Restore? && R == Roster(r, s, op) && Enrolled(R, s)
    ensures Enrolled(R, Restored(s, op.order)) && Quoted(s, Restored(s, op.order))
  {
    hide OnRoster, Rest;
    RestKept(R, Reindexed(s, op.order.id), op.order);
  }

  // ---------------------------------------------------------------- runs

  /** A trade the operation makes in state s. */
  ghost predicate Makes(r: Rules, s: State, op: Op, t: Trade) {
    if op.Fills? then exists i :: 0 <= i < |op.legs| && LegHonest(Roster(r, s, op), op.legs[i], t) else Honest(Roster(r, s, op), t)
  }

  ghost predicate MadeBy(r: Rules, ops: seq<Op>, trail: seq<Did>, k: nat, t: Trade) {
    k < |ops| && k < |trail| && Makes(r, trail[k].before, ops[k], t)
  }

  ghost predicate Made(r: Rules, ops: seq<Op>, trail: seq<Did>, t: Trade) { exists k: nat :: MadeBy(r, ops, trail, k, t) }

  /** Every trade of a run was made by one of its operations, between orders of its roster. */
  ghost predicate AllMade(r: Rules, ops: seq<Op>, trail: seq<Did>, was: Mark, s: State) {
    && was.log <= s.ledger.log && LastPriced(was, s)
    && forall i :: |was.log| <= i < |s.ledger.log| ==> Made(r, ops, trail, s.ledger.log[i])
  }

  lemma NoneMade(r: Rules, s: State)
    ensures AllMade(r, [], [], MarkOf(s), s)
  {
  }

  lemma MoreMade(r: Rules, ops: seq<Op>, op: Op, trail: seq<Did>, was: Mark, e: Did, s': State)
    requires |ops| == |trail| && AllMade(r, ops, trail, was, e.before)
    requires Inv(r.lim, e.before, multiset{}) && Does(r, e.before, op, e.note, s')
    ensures AllMade(r, ops + [op], trail + [e], was, s')
  {
    hide Inv, Effect, Owed, Makes;
    var before, now, n := e.before.ledger.log, s'.ledger.log, |ops|;
    if Owed(r, e.before, op) { OpMade(r, e.before, op, e.note, s'); }
    forall i | |was.log| <= i < |now| ensures Made(r, ops + [op], trail + [e], now[i]) {
      if i < |before| {
        assert now[i] == before[i] && Made(r, ops, trail, before[i]);
        var k: nat :| MadeBy(r, ops, trail, k, before[i]);
        assert MadeBy(r, ops + [op], trail + [e], k, now[i]);
      } else {
        assert MadeBy(r, ops + [op], trail + [e], n, now[i]);
      }
    }
  }

  lemma OpMade(r: Rules, s: State, op: Op, note: Note, s': State)
    requires Inv(r.lim, s, multiset{}) && Owed(r, s, op) && Does(r, s, op, note, s')
    ensures s.ledger.log <= s'.ledger.log && LastPriced(MarkOf(s), s')
    ensures forall i :: |s.ledger.log| <= i < |s'.ledger.log| ==> Makes(r, s, op, s'.ledger.log[i])
  {
    hide Inv, Does, Owed, Roster, Enrolled, Honest, LegHonest;
    OpKept(r, s, op, note, s');
  }
}
