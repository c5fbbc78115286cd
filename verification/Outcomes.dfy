/**
  What a client sees of an operation: which orders the engine holds afterwards and under what terms, which
  trades were made, and in which session it is.
 */
module Outcomes {
  import opened Types
  import opened Queues
  import opened Levels
  import opened Tape
  import opened Ledger
  import opened EngineState
  import opened Steps
  import opened Trading
  import opened Matching
  import opened Progress
  import opened Stops
  import opened Lifecycle
  import opened Cancels
  import opened Busts
  import opened Restores
  import opened Turns
  import opened Runs
  import opened Effects
  import opened Checks
  import opened Parties
  import opened Positions
  import Room

  // ---------------------------------------------------------------- halts

  /** After at least one turn the session is decided by the one before, the last trade price and the
      reference; and no turn follows one that stops the market. */
  lemma HaltOutcome(r: Rules, s0: State, o0: Order, w: Work, s1: State)
    requires InHand(r.lim, s0, o0) && WorkedBy(r, s0, o0, w, s1)
    ensures s1.lastTrade == w.v.lastTrade && (w.turns == [] ==> s1.session == s0.session)
    ensures w.turns != [] ==>
      var locked := s0.session == LockLimit || (r.dailyHigh > 0 && s1.lastTrade >= r.dailyHigh) || (r.dailyLow > 0 && s1.lastTrade <= r.dailyLow);
      var jumped := s0.session == Continuous && s0.viReference != 0 && r.volatile(s1.lastTrade, s0.viReference);
      s1.session == if locked then LockLimit else if jumped then VolatilityAuction else s0.session
    ensures forall i :: 0 < i < |w.turns| ==> GoesBeyond(r, s0, w.turns[i].before.lastTrade)
  {
    hide InHand, Ends, TurnsTo;
    EndAside(w.v.(session := SessionSince(r, s0, w.turns, w.v)), w.o, w.outcome);
    TurnsGoOn(r, s0, o0, w.turns, w.v, w.o, w.outcome != Dropped(SelfMatchPrevention));
  }

  /** A price after which matching goes on. */
  ghost predicate GoesBeyond(r: Rules, s0: State, last: int) {
    && s0.session != LockLimit && (r.dailyHigh > 0 ==> last < r.dailyHigh) && (r.dailyLow > 0 ==> last > r.dailyLow)
    && (s0.session == Continuous && s0.viReference != 0 ==> !r.volatile(last, s0.viReference))
  }

  lemma EndAside(s: State, o: Order, outcome: Outcome)
    ensures Ended(s, o, outcome).lastTrade == s.lastTrade && Ended(s, o, outcome).session == s.session
    ensures Ended(s, o, outcome).ledger == s.ledger
  {
    hide Insert;
  }

  lemma {:induction false} TurnsGoOn(r: Rules, s0: State, o0: Order, ds: seq<Round>, v: State, o: Order, alive: bool)
    requires TurnsTo(r, s0, o0, ds, v, o, alive)
    ensures forall i :: 0 < i < |ds| ==> GoesBeyond(r, s0, ds[i].before.lastTrade)
    decreases |ds|
  {
    hide TurnIs;
    if ds != [] {
      var n := |ds| - 1;
      TurnsGoOn(r, s0, o0, ds[..n], ds[n].before, ds[n].order, true);
      forall i | 0 < i < |ds| ensures GoesBeyond(r, s0, ds[i].before.lastTrade) {
        if i < n { assert ds[i] == ds[..n][i]; }
      }
    }
  }

  // ---------------------------------------------------------------- what becomes of a worked order

  /** An order is left on the book exactly when it is a limit order good for longer than the moment, something of
      it is left, no self-match took it and a level is to be had; then it is last at its price. */
  lemma WorkOutcome(r: Rules, s0: State, o0: Order, w: Work, s1: State)
    requires InHand(r.lim, s0, o0) && WorkedBy(r, s0, o0, w, s1)
    ensures o0.id in s1.live <==>
      && o0.kind == Limit && o0.tif != IOC && o0.tif != FOK && w.o.remaining > 0
      && w.outcome != Dropped(SelfMatchPrevention) && w.v.freeLevels > 0
    ensures o0.id in s1.live ==> w.o.id == o0.id && LastAt(s1.Book(o0.side), o0.price, w.o)
    ensures s1.cancels == w.v.cancels +
      if w.outcome == Dropped(SelfMatchPrevention) then [(o0.id, SelfMatchPrevention)]
      else if o0.tif == FOK && FallsShort(s0, o0) then [(o0.id, FOKFailed)]
      else if w.o.remaining == 0 || o0.id in s1.live then []
      else if o0.kind == Market || o0.tif == IOC then [(o0.id, IOCRemainder)]
      else if o0.tif == FOK then [(o0.id, FOKFailed)]
      else [(o0.id, LevelPoolExhausted)]
  {
    hide InHand, TurnsTo, Advanced, FallsShort, OutOfReach, Strangers, Halted, SessionSince, Rest, Inv;
    WorkInv(r, s0, o0, w, s1);
    SameTerms(r, s0, o0, w.v, w.o);
    var v := w.v.(session := SessionSince(r, s0, w.turns, w.v));
    HandLive(r.lim, w.v, w.o);
    if w.outcome == Booked { RestedLast(r.lim, v, w.o); }
  }

  ghost predicate LastAt(ls: seq<Level>, price: int, o: Order) {
    exists lv :: lv in ls && lv.price == price && lv.orders != [] && lv.orders[|lv.orders| - 1] == o
  }

  lemma SameTerms(r: Rules, s0: State, o0: Order, v: State, o: Order)
    requires Advanced(r, s0, o0, v, o)
    ensures o == o0.(filled := o.filled, remaining := o.remaining) && o.remaining >= 0
  {
  }

  lemma HandLive(lim: Limits, v: State, o: Order)
    requires InHand(lim, v, o)
    ensures o.id in v.live && v.freeLevels >= 0 && Sorted(o.side, v.Book(o.side)) && (o.kind == Limit || o.kind == Market)
  {
    hide BookSide, StopSide, Showing, Reconciled, Balanced, Bag;
    assert (AllIds(v) + multiset{o.id})[o.id] == multiset(v.live)[o.id];
    SortedBook(lim, v, multiset{o.id}, o.side);
  }

  lemma RestedLast(lim: Limits, v: State, o: Order)
    requires Sorted(o.side, v.Book(o.side)) && o.id in v.live && v.freeLevels >= 0
    ensures o.id in Rest(v, o).live <==> v.freeLevels > 0
    ensures v.freeLevels > 0 ==> LastAt(Rest(v, o).Book(o.side), o.price, o)
    ensures Rest(v, o).cancels == v.cancels + if v.freeLevels > 0 then [] else [(o.id, LevelPoolExhausted)]
  {
    if v.freeLevels > 0 {
      var ls := v.Book(o.side);
      InsertMembers(o.side, ls, o.price, o);
      var lv := MkLevel(o.price, QueueAt(o.side, ls, o.price) + [o]);
      assert lv in Insert(o.side, ls, o.price, o) && lv.orders[|lv.orders| - 1] == o;
    }
  }

  // ---------------------------------------------------------------- new orders

  /** What of the request the accepted order carries, whenever it is still held. */
  ghost predicate Carries(x: Order, req: Request) {
    && x.account == req.account && x.side == req.side && x.tif == req.tif && x.kind == req.kind
    && x.price == (if req.kind == Stop then req.stopPrice else req.price)
    && x.quantity == req.quantity && x.display == req.display && x.total == req.quantity
    && x.timestamp == req.timestamp && x.gtdExpiry == req.gtdExpiry && x.marketMaker == req.marketMaker
  }

  /** An accepted order, if it is held once the operation is over, has the terms that were asked for, and has been
      filled by the trades it made since. */
  lemma NewOutcome(r: Rules, s: State, op: Op, note: Note, s': State, x: Order)
    requires Inv(r.lim, s, multiset{}) && Inv(r.lim, s', multiset{}) && op.New? && Owed(r, s, op) && Does(r, s, op, note, s')
    requires Held(s', x) && x.id == s.nextId
    ensures Carries(x, op.req) && x.filled == Traded(s'.ledger, x.id)
  {
    hide Does, Owed, Inv, Held, Arms, Asked;
    var R := Roster(r, s, op);
    OpKept(r, s, op, note, s');
    EnrolledHeld(R, s');
    HeldTraded(r.lim, s', x);
    NewFaceOnly(r, s, op, Face(x));
    CarriesFace(op.req, x);
  }

  lemma NewFaceOnly(r: Rules, s: State, op: Op, f: Order)
    requires Inv(r.lim, s, multiset{}) && op.New? && f in Roster(r, s, op) && f.id == s.nextId
    ensures f == Asked(op.req, s.nextId)
  {
    hide Inv, Held;
    forall o | Held(s, o) ensures o.id != s.nextId { HeldBefore(r.lim, s, o); }
  }

  lemma HeldBefore(lim: Limits, s: State, o: Order)
    requires Inv(lim, s, multiset{}) && Held(s, o)
    ensures o.id in s.live && 0 < o.id < s.nextId
  {
    hide Held;
    HeldIsLive(lim, s, o);
  }

  lemma CarriesFace(req: Request, x: Order)
    requires Face(x) == Asked(req, x.id)
    ensures Carries(x, req)
  {
  }

  lemma HeldTraded(lim: Limits, s: State, x: Order)
    requires Inv(lim, s, multiset{}) && Held(s, x)
    ensures x.filled == Traded(s.ledger, x.id)
  {
    hide Held;
    ReconciledHeld(s);
  }

  ghost predicate Untouched(x: Order, req: Request) {
    Carries(x, req) && x.filled == 0 && x.remaining == if req.display > 0 then req.display else req.quantity
  }

  /** An accepted stop waits, last at its stop price, with all it asked for, unless no level was to be had. */
  lemma StopOutcome(r: Rules, s: State, op: Op, note: Note, s': State)
    requires Inv(r.lim, s, multiset{}) && op.New? && (op.req.kind == Stop || op.req.kind == StopLimit)
    requires AllPass(NewChecks(r, s, op.req, op.throttled)) && Owed(r, s, op) && Does(r, s, op, note, s')
    ensures s'.ledger == s.ledger && s'.session == s.session
    ensures s.nextId in s'.live <==> s.freeLevels > 0
    ensures s.freeLevels > 0 ==> exists x :: LastAt(s'.Stops(op.req.side), op.req.stopPrice, x) && x.id == s.nextId && Untouched(x, op.req)
  {
    hide Inv, Rejection, NewChecks, Judged, AllPass, Room.RoomFor, Insert;
    NewJudged(r, s, op.req, op.throttled);
    PassMeansNone(NewChecks(r, s, op.req, op.throttled),
                  Rejection(r, s.session, s.lastTrade, s.nextId, s.freeOrders, s.ledger.positions, op.req, op.throttled));
    var s1, o := AcceptedState(s), OrderOf(op.req, s.nextId);
    StopsSorted(r.lim, s, op.req.side);
    if s.freeLevels > 0 { ParkedLast(s1, o, op.req.stopPrice); }
  }

  lemma PassMeansNone(cs: seq<Check>, why: Option<RejectReason>)
    requires Judged(cs, why)
    ensures why.None? <==> AllPass(cs)
  {
  }

  lemma StopsSorted(lim: Limits, s: State, side: Side)
    requires Inv(lim, s, multiset{})
    ensures Sorted(side.Opposite(), s.Stops(side)) && s.freeLevels >= 0 && s.nextId !in s.live
  {
    StopSideOf(lim, s, multiset{}, side);
  }

  lemma ParkedLast(s: State, o: Order, p: int)
    requires Sorted(o.side.Opposite(), s.Stops(o.side)) && s.freeLevels > 0
    ensures LastAt(Park(s, o, p).Stops(o.side), p, o)
  {
    var ls, dir := s.Stops(o.side), o.side.Opposite();
    InsertMembers(dir, ls, p, o);
    var lv := MkLevel(p, QueueAt(dir, ls, p) + [o]);
    assert lv in Insert(dir, ls, p, o) && lv.orders[|lv.orders| - 1] == o;
  }

  /** In a phase that collects orders nothing trades: a limit order rests last at its price, whatever its time in
      force, unless no level was to be had, and a market order is cancelled. */
  lemma CollectOutcome(r: Rules, s: State, op: Op, note: Note, s': State)
    requires Inv(r.lim, s, multiset{}) && op.New? && (op.req.kind == Limit || op.req.kind == Market)
    requires s.session == PreOpen || s.session == PreClose || s.session == VolatilityAuction || s.session == LockLimit
    requires AllPass(NewChecks(r, s, op.req, op.throttled)) && Owed(r, s, op) && Does(r, s, op, note, s')
    ensures s'.ledger == s.ledger && s'.session == s.session
    ensures s.nextId in s'.live <==> op.req.kind == Limit && s.freeLevels > 0
    ensures s.nextId in s'.live ==> exists x :: LastAt(s'.Book(op.req.side), op.req.price, x) && x.id == s.nextId && Untouched(x, op.req)
  {
    hide Inv, Rejection, NewChecks, Judged, AllPass, Room.RoomFor, Insert, Rest;
    NewJudged(r, s, op.req, op.throttled);
    PassMeansNone(NewChecks(r, s, op.req, op.throttled),
                  Rejection(r, s.session, s.lastTrade, s.nextId, s.freeOrders, s.ledger.positions, op.req, op.throttled));
    var s1, o := AcceptedState(s), OrderOf(op.req, s.nextId);
    StopsSorted(r.lim, s, op.req.side);
    BookSorted(r.lim, s, op.req.side);
    RestedLast(r.lim, s1, o);
    RestAside(s1, o);
  }

  lemma BookSorted(lim: Limits, s: State, side: Side)
    requires Inv(lim, s, multiset{})
    ensures Sorted(side, s.Book(side))
  {
    SortedBook(lim, s, multiset{}, side);
  }

  /** Nothing of a market, immediate-or-cancel or fill-or-kill order is held once it has been matched. */
  lemma NoRemainder(r: Rules, s: State, op: Op, note: Note, s': State, x: Order)
    requires Inv(r.lim, s, multiset{}) && op.New? && Owed(r, s, op) && Does(r, s, op, note, s')
    requires op.req.kind == Market || (op.req.kind == Limit && (op.req.tif == IOC || op.req.tif == FOK))
    requires s.session != PreOpen && s.session != PreClose && s.session != VolatilityAuction && s.session != LockLimit
    requires Held(s', x)
    ensures x.id != s.nextId
  {
    hide Inv, InHand, Rejection, Room.RoomFor, Played, Held, OrderOf;
    if Rejection(r, s.session, s.lastTrade, s.nextId, s.freeOrders, s.ledger.positions, op.req, op.throttled).Some? {
      HeldBefore(r.lim, s, x);
    } else {
      NotThrottled(r, s, op.req, op.throttled);
      AcceptInv(r, s, op.req);
      AskedFace(op.req, s.nextId);
      PlayedAway(r, AcceptedState(s), OrderOf(op.req, s.nextId), note.story, s', x);
    }
  }

  /** An order that does not outlive its work is not there after the cascade either. */
  lemma PlayedAway(r: Rules, s: State, o: Order, y: Story, s': State, x: Order)
    requires InHand(r.lim, s, o) && Played(r, s, o, y, s') && Held(s', x)
    requires o.kind == Market || o.tif == IOC || o.tif == FOK
    ensures x.id != o.id
  {
    hide Inv, InHand, WorkedBy, Cascade, Held;
    WorkOutcome(r, s, o, y.work, y.middle);
    WorkInv(r, s, o, y.work, y.middle);
    CascadeOnly(r, y.middle, y.trail, s', x);
  }

  /** A cascade holds nothing it did not find. */
  lemma CascadeOnly(r: Rules, s: State, trail: seq<Event>, s': State, x: Order)
    requires Inv(r.lim, s, multiset{}) && Cascade(r, s, trail, s') && Held(s', x)
    ensures x.id in s.live
  {
    hide Inv, Cascade, Held;
    var R := Arms(Faces(s));
    ArmsArmed(Faces(s));
    StartKept(R, s, s);
    CascadeKept(R, MarkOf(s), r, s, trail, s');
    EnrolledHeld(R, s');
    KnownFace(r.lim, s, Face(x));
  }

  lemma KnownFace(lim: Limits, s: State, f: Order)
    requires Inv(lim, s, multiset{}) && f in Arms(Faces(s))
    ensures f.id in s.live
  {
    hide Inv, Held;
    forall o | Held(s, o) ensures o.id in s.live { HeldBefore(lim, s, o); }
  }

  // ---------------------------------------------------------------- stops

  /** A stop fires when the last trade has risen to it, or fallen to it, and a sell stop only when no buy stop does. */
  lemma FireOutcome(r: Rules, e: Event)
    requires Inv(r.lim, e.before, multiset{}) && Fires(r, e)
    ensures var p := e.before.Stops(e.side)[0].price;
      if e.side == Buy then e.before.lastTrade >= p
      else e.before.lastTrade <= p && forall lv :: lv in e.before.buyStops ==> e.before.lastTrade < lv.price
  {
    hide WorkedBy, Unpark, Convert;
    StopsSorted(r.lim, e.before, Buy);
    if e.side == Sell {
      forall lv | lv in e.before.buyStops ensures e.before.lastTrade < lv.price { FirstIsBest(Sell, e.before.buyStops, lv); }
    }
  }

  // ---------------------------------------------------------------- closed markets, sweeps and tranches

  /** In a closed market nothing is entered, cancelled, modified or busted. */
  lemma ClosedNothing(r: Rules, s: State, op: Op, note: Note, s': State)
    requires s.session == Closed && (op.New? || op.Cancel? || op.Modify? || op.Bust?) && Does(r, s, op, note, s')
    ensures s' == s
  {
    hide Routed, Modified, Room.RoomFor, Modifiable, Bustable, RoomToReplace;
    if op.New? {
      NewJudged(r, s, op.req, op.throttled);
      ClosedFails(r, s, op.req, op.throttled);
    }
  }

  lemma ClosedFails(r: Rules, s: State, req: Request, throttled: bool)
    requires s.session == Closed
    ensures !AllPass(NewChecks(r, s, req, throttled))
  {
    var cs := NewChecks(r, s, req, throttled);
    assert !cs[16].ok;
  }

  /** What each sweep leaves: expiry takes the orders of the day, or those good until a time that has come; a mass
      cancel takes an account's, or all. */
  lemma SweepOutcome(r: Rules, s: State, op: Op, note: Note, s': State, o: Order)
    requires op.SweepOrders? && Does(r, s, op, note, s')
    ensures op.sweep.Expiring? && op.sweep.tif == DAY ==> (Held(s', o) <==> Held(s, o) && o.tif != DAY)
    ensures op.sweep.Expiring? && op.sweep.tif == GTD ==> (Held(s', o) <==> Held(s, o) && (o.tif == GTD ==> o.gtdExpiry > op.sweep.now))
    ensures op.sweep.OfAccount? ==> (Held(s', o) <==> Held(s, o) && o.account != op.sweep.account)
    ensures op.sweep == All ==> !Held(s', o)
    ensures op.sweep.Expiring? && op.sweep.tif != DAY && op.sweep.tif != GTD ==> (Held(s', o) <==> Held(s, o))
  {
    hide Held, Sweeps;
  }

  /** An exhausted tranche with something behind it is followed, at the back of its queue, by one of the size the
      order displays, or by all that is left if that is less; with nothing behind it the order is gone. */
  lemma RevealOutcome(s: State, side: Side, k: nat, j: nat)
    requires Spot(s.Book(side), k, j) && s.Book(side)[k].orders[j].remaining == 0
    ensures var o, s' := s.Book(side)[k].orders[j], SettleAt(s, side, k, j);
      if o.display > 0 && o.total > o.filled then
        && k < |s'.Book(side)| && s'.Book(side)[k].orders != []
        && var x := s'.Book(side)[k].orders[|s'.Book(side)[k].orders| - 1];
           && x == o.(remaining := x.remaining) && x.remaining <= o.display && x.filled + x.remaining <= o.total
           && (x.remaining == o.display || x.filled + x.remaining == o.total)
      else o.id !in s'.live
  {
  }

  // ---------------------------------------------------------------- modified orders

  /** The modification of the order o is accepted and carried out. */
  ghost predicate Modifies(r: Rules, s: State, op: Op, note: Note, s': State, o: Order) {
    && Inv(r.lim, s, multiset{}) && op.Modify? && Owed(r, s, op) && Does(r, s, op, note, s')
    && AllPass(ModifyChecks(r, s, op.id, op.price, op.quantity, op.throttled)) && Held(s, o) && o.id == op.id
  }

  lemma ModifiesAt(r: Rules, s: State, op: Op, note: Note, s': State, o: Order)
    requires Modifies(r, s, op, note, s', o)
    ensures note.ModifiedAt? && Modified(r, s, op.id, op.price, op.quantity, op.ts, note.at, note.story, s')
    ensures Modifiable(s, op.id, op.quantity) && s.Book(note.at.side)[note.at.k].orders[note.at.j] == o
    ensures o.kind == Limit && op.quantity >= o.filled
  {
    hide Inv, Held, AllPass, ModifyChecks, ModifyRejection, RoomToReplace, Played, PullAt, AmendAt;
    ModifyJudged(r, s, op.id, op.price, op.quantity, op.throttled);
    PassMeansNone(ModifyChecks(r, s, op.id, op.price, op.quantity, op.throttled),
                  ModifyRejection(r, s.session, s.live, op.id, op.price, op.quantity, op.throttled));
    HeldUnique(r.lim, s, note.at, o);
  }

  /** Whatever is held under its identifier afterwards is the order under its new terms: the price and quantity asked
      for, everything else its own, and filled with what it was filled with and its trades since. */
  lemma ModifyOutcome(r: Rules, s: State, op: Op, note: Note, s': State, o: Order, x: Order)
    requires Modifies(r, s, op, note, s', o) && Inv(r.lim, s', multiset{}) && Held(s', x) && x.id == o.id
    ensures x.price == op.price && x.quantity == op.quantity
    ensures x.side == o.side && x.account == o.account && x.tif == o.tif && x.kind == o.kind && x.gtdExpiry == o.gtdExpiry
    ensures x.display == o.display && x.total == o.total && x.marketMaker == o.marketMaker && x.topOrder == o.topOrder
    ensures x.timestamp == if Reduces(r, o, op.price, op.quantity) then o.timestamp else op.ts
    ensures x.filled == o.filled + Traded(s'.ledger, o.id) - Traded(s.ledger, o.id)
  {
    hide Inv, Held, Does, Owed, Roster, Amended, Traded, AllPass, ModifyChecks;
    ModifiesAt(r, s, op, note, s', o);
    OpKept(r, s, op, note, s');
    EnrolledHeld(Roster(r, s, op), s');
    OnlyTerms(r, s, op, o, Face(x));
    HeldTraded(r.lim, s, o);
    HeldTraded(r.lim, s', x);
    TermsAre(r, o, op, x);
  }

  lemma TermsAre(r: Rules, o: Order, op: Op, x: Order)
    requires op.Modify? && Face(x) == Amended(r, o, op.price, op.quantity, op.ts)
    ensures x == o.(price := op.price, quantity := op.quantity, filled := x.filled, remaining := x.remaining,
                    timestamp := if Reduces(r, o, op.price, op.quantity) then o.timestamp else op.ts)
  {
  }

  /** On the roster of a modification its order has its new terms only. */
  lemma OnlyTerms(r: Rules, s: State, op: Op, o: Order, f: Order)
    requires Inv(r.lim, s, multiset{}) && op.Modify? && AllPass(ModifyChecks(r, s, op.id, op.price, op.quantity, op.throttled))
    requires Held(s, o) && o.id == op.id && o.kind == Limit && f in Roster(r, s, op) && f.id == op.id
    ensures f == Amended(r, o, op.price, op.quantity, op.ts)
  {
    hide Inv, Held, AllPass, ModifyChecks;
    forall y | Held(s, y) && y.id == op.id ensures y == o { HeldTwice(r.lim, s, o, y); }
  }

  lemma HeldTwice(lim: Limits, s: State, o: Order, y: Order)
    requires Inv(lim, s, multiset{}) && Held(s, o) && Held(s, y) && o.id == y.id
    ensures o == y
  {
    hide Inv, Bag;
    var at := PlaceOf(s, o);
    HeldUnique(lim, s, at, y);
  }

  lemma PlaceOf(s: State, o: Order) returns (at: Place)
    requires Held(s, o)
    ensures Spot(ListAt(s, at), at.k, at.j) && ListAt(s, at)[at.k].orders[at.j] == o
  {
    var side := if Listed(s.bids, o) || (!Listed(s.asks, o) && Listed(s.buyStops, o)) then Buy else Sell;
    var stops := !Listed(s.bids, o) && !Listed(s.asks, o);
    var ls := if stops then s.Stops(side) else s.Book(side);
    assert Listed(ls, o);
    var lv :| lv in ls && o in lv.orders;
    var k: nat :| k < |ls| && ls[k] == lv;
    var j: nat :| j < |lv.orders| && lv.orders[j] == o;
    at := Place(stops, side, k, j);
  }

  /** Its trades as an aggressor are its own and within its new price. */
  lemma ModifyTrades(r: Rules, s: State, op: Op, note: Note, s': State, o: Order, i: nat)
    requires Modifies(r, s, op, note, s', o) && |s.ledger.log| <= i < |s'.ledger.log| && s'.ledger.log[i].aggressor == o.id
    ensures var t := s'.ledger.log[i];
      && t.aggressorAccount == o.account && t.side == o.side
      && if o.side == Buy then t.price <= op.price else t.price >= op.price
  {
    hide Inv, Held, Does, Owed, Roster, Enrolled, AllPass, ModifyChecks;
    ModifiesAt(r, s, op, note, s', o);
    OpKept(r, s, op, note, s');
    var t := s'.ledger.log[i];
    assert Honest(Roster(r, s, op), t);
    var x, y :| x in Roster(r, s, op) && y in Roster(r, s, op) && Pairs(x, y, t);
    OnlyTerms(r, s, op, o, x);
  }

  /** Every order but one is where it was, as it was, and that one keeps its place. */
  ghost predicate InPlace(s: State, s': State, id: nat) {
    && s'.buyStops == s.buyStops && s'.sellStops == s.sellStops && |s'.bids| == |s.bids| && |s'.asks| == |s.asks|
    && forall side, k: nat {:trigger s.Book(side)[k]} :: k < |s.Book(side)| && k < |s'.Book(side)| ==>
         InPlaceAt(s.Book(side)[k], s'.Book(side)[k], id)
  }

  ghost predicate InPlaceAt(lv: Level, lv': Level, id: nat) {
    && lv'.price == lv.price && |lv'.orders| == |lv.orders|
    && forall j :: 0 <= j < |lv.orders| ==> lv'.orders[j].id == lv.orders[j].id && (lv.orders[j].id != id ==> lv'.orders[j] == lv.orders[j])
  }

  /** A reduction keeps the order's place and trades nothing; any other modification takes it off the book and works it
      as a new order under its old identifier and fills. */
  lemma ModifyPlace(r: Rules, s: State, op: Op, note: Note, s': State, o: Order)
    requires Modifies(r, s, op, note, s', o)
    ensures Reduces(r, o, op.price, op.quantity) ==>
      InPlace(s, s', o.id) && s'.ledger == s.ledger && s'.session == s.session && s'.live == s.live && s'.feed == s.feed
    ensures !Reduces(r, o, op.price, op.quantity) ==> note.ModifiedAt? && exists s1 ::
      && (forall y :: Held(s1, y) <==> Held(s, y) && y.id != o.id) && s1.ledger == s.ledger
      && Played(r, s1, o.(price := op.price, quantity := op.quantity, remaining := op.quantity - o.filled, timestamp := op.ts), note.story, s')
  {
    hide Inv, Held, Played, AllPass, ModifyChecks, Does, Owed;
    ModifiesAt(r, s, op, note, s', o);
    var at := note.at;
    if Reduces(r, o, op.price, op.quantity) {
      AmendedInPlace(s, at.side, at.k, at.j, op.quantity);
    } else {
      var s1 := PullAt(s, at.side, at.k, at.j, o.price);
      forall y ensures Held(s1, y) <==> Held(s, y) && y.id != o.id {
        CancelAnyHeld(r.lim, s, at, UserRequested, y);
        SameLists(CancelAny(s, at, UserRequested), s1, y);
      }
      assert s1.ledger == s.ledger;
    }
  }

  lemma AmendedInPlace(s: State, side: Side, k: nat, j: nat, quantity: int)
    requires Spot(s.Book(side), k, j)
    ensures InPlace(s, AmendAt(s, side, k, j, quantity), s.Book(side)[k].orders[j].id)
  {
  }

  // ---------------------------------------------------------------- self-matches

  /** A turn that stops at a fill which would pair the order with itself: the resting order named is cancelled, with a
      notice, unless the exchange cancels the newest; the order goes on only if it cancels the oldest. */
  lemma SmpOutcome(r: Rules, d: Round, v: State, o: Order, alive: bool)
    requires InHand(r.lim, d.before, d.order) && Turned(r, d, v, o, alive) && d.k < |d.fills|
    ensures var c, id := Committed(r.lim, d.before, d.order, d.fills[..d.k]), d.fills[d.k].resting;
      && (exists y :: Listed(c.Book(d.order.side.Opposite()), y) && y.id == id && r.selfMatch(d.order.account, y.account))
      && (alive <==> r.smp == CancelOldest)
      && (if r.smp == CancelNewest then v == c else v.live == c.live - {id} && v.cancels == c.cancels + [(id, SelfMatchPrevention)])
  {
    hide InHand, Turn, Answer, NoSelf, Committed;
    var fs, k := d.fills, d.k;
    var c := Committed(r.lim, d.before, d.order, fs[..k]);
    TurnAt(r, d.before, d.order, fs, k);
    SelfSpot(r, d.before, d.order, c, o, fs[k..]);
    var opp := d.order.side.Opposite();
    var j := FirstAt(c.Book(opp)[0].orders, fs[k].resting);
    assert c.Book(opp)[0] in c.Book(opp) && Listed(c.Book(opp), c.Book(opp)[0].orders[j]);
  }

  // ---------------------------------------------------------------- restored orders

  /** An order brought back rests last at its price as it was, without a trade, unless no level was to be had, and new
      identifiers stay clear of it. */
  lemma RestoreOutcome(r: Rules, s: State, op: Op, note: Note, s': State)
    requires Inv(r.lim, s, multiset{}) && op.Restore? && AllPass(RestoreChecks(r, s, op.order, op.now, op.approved))
    requires Owed(r, s, op) && Does(r, s, op, note, s')
    ensures s'.ledger == s.ledger && s'.session == s.session && s'.nextId > op.order.id && s'.nextId >= s.nextId
    ensures op.order.id in s'.live <==> s.freeLevels > 0
    ensures s.freeLevels > 0 ==> LastAt(s'.Book(op.order.side), op.order.price, op.order)
  {
    hide Inv, RestoreRejection, RestoreChecks, Judged, AllPass, Rest;
    RestoreJudged(r, s, op.order, op.now, op.approved);
    PassMeansNone(RestoreChecks(r, s, op.order, op.now, op.approved),
                  RestoreRejection(r, s.live, s.lastTrade, s.freeOrders, op.order, op.now, op.approved));
    var s1, o := Reindexed(s, op.order.id), op.order;
    StopsSorted(r.lim, s, o.side);
    BookSorted(r.lim, s, o.side);
    RestedLast(r.lim, s1, o);
    RestAside(s1, o);
  }
}
