/**
  The matching engine (exchange-core/matching_engine.h): one instrument, continuous matching
  with self-match prevention, stop orders, auctions, implied fills and trade busts.
 */
module Engine {
  import opened Types
  import opened Queues
  import opened Levels
  import opened Tape
  import opened Ledger
  import opened EngineState
  import opened Steps
  import opened Trading
  import opened Matching
  import opened Progress
  import opened Alloc
  import opened Stops
  import opened Lifecycle
  import opened Cancels
  import opened Busts
  import opened Implied
  import opened Crowds
  import opened Room
  import opened Restores
  import opened Auction
  import opened Wholes
  import opened Crossing
  import opened Runs
  import opened Effects
  import Changes
  import FillOrKill
  import opened Checks
  import Parties
  import Positions
  import opened Turns
  import opened Policies

  /** What working an order in hand from s0 to s1 comes to. */
  ghost predicate Worked(r: Rules, s0: State, o0: Order, w: Work, s1: State) {
    && Inv(r.lim, s1, multiset{}) && Roomy(r.policy, s1) && s1.buyStops == s0.buyStops && s1.sellStops == s0.sellStops
    && (MirrorsBook(s0) ==> MirrorsBook(s1)) && (Calm(r, s0) && Uncrossed(s0) ==> Uncrossed(s1))
    && (o0.tif == FOK && Calm(r, s0) && Strangers(r, o0, s0.Book(o0.side.Opposite())) ==>
          (AllOrNothing(s0, o0, s1, w.o, w.outcome) <==> ShowsAll(o0) || FallsShort(s0, o0)))
    && WorkedBy(r, s0, o0, w, s1) && (Calm(r, s0) ==> s1.session == s0.session)
  }

  /** What every step of a stop cascade keeps. */
  ghost predicate Carried(r: Rules, s0: State, s: State) {
    && Inv(r.lim, s, multiset{}) && Roomy(r.policy, s)
    && (MirrorsBook(s0) ==> MirrorsBook(s)) && (Calm(r, s0) ==> s.session == s0.session)
    && (Calm(r, s0) && Uncrossed(s0) ==> Uncrossed(s))
    && StopCount(s) <= StopCount(s0) && s.nextId == s0.nextId
    && s0.ledger.log <= s.ledger.log && (forall i :: |s0.ledger.log| <= i < |s.ledger.log| ==> NotSelf(r, s.ledger.log[i]))
  }

  lemma Converts(o: Order, c: Order)
    requires c == if o.kind == Stop then o.(kind := Market, price := 0) else o.(kind := Limit)
    ensures c == Convert(o)
  {
  }

  lemma CarriedOn(r: Rules, s0: State, trail: seq<Event>, e: Event)
    requires Carried(r, s0, e.before) && Cascade(r, s0, trail, e.before)
    requires e.before.lastTrade > 0 && Spot(e.before.Stops(e.side), 0, 0)
    requires Triggers(e.side, e.before.Stops(e.side)[0].price, e.before.lastTrade)
    requires e.side == Sell ==> e.before.buyStops == [] || e.before.lastTrade < e.before.buyStops[0].price
    requires var s, o := Unpark(e.before, e.side, 0, 0), Convert(e.before.Stops(e.side)[0].orders[0]);
      Worked(r, s, o, e.work, e.after) && Advanced(r, s, o, e.work.v, e.work.o)
    ensures Carried(r, s0, e.after) && Cascade(r, s0, trail + [e], e.after) && StopCount(e.after) < StopCount(e.before)
  {
    hide Inv, MirrorsBook, Uncrossed, InHand, Advanced, Cascade, Unpark, Roomy, Convert, Strangers, AllOrNothing, NotSelf,
         TurnsTo, Ends, Halted, Ended, StopCount, Calm;
    var s, o, w := Unpark(e.before, e.side, 0, 0), Convert(e.before.Stops(e.side)[0].orders[0]), e.work;
    UnparkCount(e.before, e.side, 0, 0);
    UnparkAside(e.before, e.side, 0, 0);
    StillCalm(r, e.before, s);
    StillCalm(r, s0, e.before);
    TradesSince(r, s, o, w.v, w.o, w.outcome, SessionSince(r, s, w.turns, w.v));
    OneMoreStop(r, s0, trail, e);
  }

  lemma StillCalm(r: Rules, s: State, s': State)
    requires Calm(r, s) ==> s'.session == s.session
    ensures Calm(r, s) ==> Calm(r, s')
  {
  }

  /** An order that has been filled, however little, has less to do. */
  lemma StillToDo(r: Rules, s0: State, o0: Order, v: State, agg: Order, fs: seq<Fill>)
    requires Turn(r, s0, o0, v, agg, fs)
    ensures InHand(r.lim, v, agg) && Advanced(r, s0, o0, v, agg) && ToDo(v, agg) <= ToDo(s0, o0)
    ensures agg.remaining < o0.remaining ==> ToDo(v, agg) < ToDo(s0, o0)
  {
    hide Turn, InHand, Advanced;
    TurnCount(r, s0, o0, v, agg, fs);
  }

  lemma CommittedNone(lim: Limits, s: State, o: Order, fs: seq<Fill>)
    ensures fs[0..] == fs && Committed(lim, s, o, fs[..0]) == s && o.Filled(TotalFills(fs[..0])) == o
  {
  }

  lemma FokShort(r: Rules, s0: State, o: Order)
    requires InHand(r.lim, s0, o) && RoomyWith(r.policy, s0, o) && o.tif == FOK
    requires Reach(o.side.Opposite(), s0.Book(o.side.Opposite()), BoundOf(o)) < o.remaining
    ensures Advanced(r, s0, o, s0, o)
    ensures Worked(r, s0, o, Work([], s0, o, Dropped(FOKFailed)), DropHand(s0, o.id, FOKFailed))
  {
    hide InHand, Advanced, Strangers, MirrorsBook, Uncrossed, Inv, TurnsTo, OutOfReach, Reach, Halted, Roomy, RoomyWith;
    var outcome := Dropped(FOKFailed);
    NoTurns(r, s0, o);
    EndedRoomy(r, s0, o, outcome, s0.session);
    StartLoop(r, s0, o);
    EndedKeeps(r, s0, o, s0, o, outcome, s0.session);
    EndedUncrossed(r, s0, o, s0, o, outcome, s0.session);
  }

  lemma LoopEnds(r: Rules, s0: State, o0: Order, w: Work, alive: bool, x: SessionState)
    requires InHand(r.lim, s0, o0) && RoomyWith(r.policy, s0, o0)
    requires InHand(r.lim, w.v, w.o) && Advanced(r, s0, o0, w.v, w.o) && TurnsTo(r, s0, o0, w.turns, w.v, w.o, alive)
    requires Calm(r, s0) && alive ==> w.o.remaining == 0 || OutOfReach(w.v, w.o)
    requires Strangers(r, o0, s0.Book(o0.side.Opposite())) ==> alive
    requires alive ==> w.o.remaining == 0 || OutOfReach(w.v, w.o) || Halted(r, s0, w.turns, w.v)
    requires x == SessionSince(r, s0, w.turns, w.v)
    requires (!alive ==> r.smp != CancelOldest) && (Calm(r, s0) ==> x == s0.session)
    requires w.outcome == if alive then Fate(w.o) else Dropped(SelfMatchPrevention)
    requires o0.tif == FOK ==> Reach(o0.side.Opposite(), s0.Book(o0.side.Opposite()), BoundOf(o0)) >= o0.remaining
    ensures Worked(r, s0, o0, w, Ended(w.v.(session := x), w.o, w.outcome))
  {
    hide InHand, Advanced, Strangers, MirrorsBook, Uncrossed, Inv, TurnsTo, OutOfReach, Reach, Halted, SessionSince, Roomy, RoomyWith, Calm, Rest;
    HandSorted(r.lim, w.v, w.o);
    AdvancedRoomy(r, s0, o0, w.v, w.o);
    EndedRoomy(r, w.v, w.o, w.outcome, x);
    EndedKeeps(r, s0, o0, w.v, w.o, w.outcome, x);
    if w.outcome == Booked { RestAside(w.v.(session := x), w.o); }
    if Calm(r, s0) {
      EndedUncrossed(r, s0, o0, w.v, w.o, w.outcome, x);
      if alive && o0.tif == FOK { FokFills(r, s0, o0, w.v, w.o); }
    }
  }

  /** Whose an auction's trades are and what they do to positions. */
  lemma AuctionMoves(lim: Limits, s: State, reference: int, r: AuctionResult, trail: seq<Walk>, last: Walk, s': State)
    requires Inv(lim, s, multiset{}) && Auctioned(lim, s, reference, r, trail, last, s')
    ensures Parties.Fresh(Parties.Faces(s), Parties.MarkOf(s), s') && forall a: nat :: Positions.Settles(s, s', a)
  {
    hide Inv, Auctioned, Positions.Settles, Parties.Fresh;
    Positions.AuctionHonest(lim, s, reference, r, trail, last, s');
    forall a: nat ensures Positions.Settles(s, s', a) { Positions.AuctionSettles(lim, s, reference, r, trail, last, s', a); }
  }

  class MatchingEngine {
    const rules: Rules
    var bids: seq<Level>
    var asks: seq<Level>
    var buyStops: seq<Level>
    var sellStops: seq<Level>
    var live: set<nat>
    var nextId: nat
    var freeOrders: int
    var freeLevels: int
    var lastTrade: int
    var session: SessionState
    var viReference: int
    var log: seq<Trade>
    var trades: seq<TradeRecord>
    var positions: seq<int>
    var feed: seq<BookAction>
    var cancels: seq<(nat, CancelReason)>

    ghost function Now(): State
      reads this
    {
      State(bids, asks, buyStops, sellStops, live, nextId, freeOrders, freeLevels, lastTrade, session,
            viReference, Ledger(log, trades, positions), feed, cancels)
    }

    function Book(side: Side): seq<Level>
      reads this
    {
      if side.Buy? then bids else asks
    }

    /** Empty books, full pools, flat positions, Continuous. */
    constructor (rules: Rules)
      ensures this.rules == rules && Initial(rules.lim, Now())
      ensures Inv(rules.lim, Now(), multiset{}) && MirrorsBook(Now()) && Uncrossed(Now()) && Roomy(rules.policy, Now())
    {
      this.rules := rules;
      bids, asks, buyStops, sellStops := [], [], [], [];
      live, nextId := {}, 1;
      freeOrders, freeLevels := rules.lim.maxOrders, rules.lim.maxLevels;
      lastTrade, session, viReference := 0, Continuous, 0;
      log, trades, positions := [], [], seq(rules.lim.maxAccounts, i => 0);
      feed, cancels := [], [];
      new;
      InitialInv(rules.lim, Now());
    }

    method SetBook(side: Side, ls: seq<Level>)
      modifies this`bids, this`asks
      ensures Now() == old(Now()).WithBook(side, ls)
    {
      if side == Buy { bids := ls; } else { asks := ls; }
    }

    /** Announce a trade, move both positions and record it. */
    method PostTrade(t: Trade)
      requires |trades| <= Capacity(rules.lim.maxTrades)
      modifies this`log, this`trades, this`positions, this`lastTrade
      ensures Now() == old(Now()).(ledger := Posted(old(Now()).ledger, t, rules.lim.maxTrades), lastTrade := t.price)
    {
      hide Moved, Signed;
      lastTrade := t.price;
      var moved := UpdateFill(positions, t.aggressorAccount, t.side, t.qty);
      if t.aggressor != t.resting {
        moved := UpdateFill(moved, t.restingAccount, t.side.Opposite(), t.qty);
      }
      var recorded, id := Record(trades, t, rules.lim.maxTrades);
      log, trades, positions := log + [t], recorded, moved;
    }

    /** Commit a fill on a stored level: total, next tranche or removal. */
    static method CommitLevel(lv: Level, at: nat, f: Fill) returns (r: Level, gone: bool)
      requires at < |lv.orders|
      ensures r == Commit(lv, at, f) && r.count == lv.count - if gone then 1 else 0
      ensures gone <==> f.restingRemaining == 0 && !lv.orders[at].HasHidden()
    {
      var resting := lv.orders[at];
      r, gone := lv.(total := lv.total - f.quantity), false;
      if f.restingRemaining == 0 {
        if resting.HasHidden() {
          var next := resting.NextTranche();
          r := r.(total := r.total + next, orders := Without(lv.orders, at) + [resting.(remaining := next)]);
        } else {
          r, gone := r.(total := r.total - resting.remaining, count := r.count - 1, orders := Without(lv.orders, at)), true;
        }
      }
    }

    /** Give back an order's slot and, with the last order, its level's. */
    method FreeSlots(id: nat, last: bool)
      modifies this`live, this`freeOrders, this`freeLevels
      ensures Now() == Free(old(Now()), id).(freeLevels := old(freeLevels) + if last then 1 else 0)
    {
      live, freeOrders := live - {id}, freeOrders + 1;
      if last { freeLevels := freeLevels + 1; }
    }

    /** Commit a fill on the best level and announce it. */
    method CommitOnBook(side: Side, at: nat, f: Fill)
      requires Book(side) != [] && at < |Book(side)[0].orders| == Book(side)[0].count
      modifies this`bids, this`asks, this`feed, this`live, this`freeOrders, this`freeLevels
      ensures Now() == CommittedOnBook(old(Now()), side, at, f)
    {
      hide Commit;
      var ls := Book(side);
      var resting := ls[0].orders[at];
      var news := [BookAction(resting.id, side, f.price, f.quantity, Action.Fill)];
      var lv, gone := CommitLevel(ls[0], at, f);
      if gone {
        FreeSlots(resting.id, lv.count == 0);
      } else if f.restingRemaining == 0 {
        news := news + [BookAction(resting.id, side, resting.price, resting.NextTranche(), Action.Add)];
      }
      feed := feed + news;
      SetBook(side, if lv.count == 0 then ls[1..] else ls[0 := lv]);
    }

    /** One pending fill becomes a trade.  The stored side goes from the fills `fs` pending to
        the rest of them pending, over a book in which exactly this trade has happened. */
    method CommitFill(order: Order, f: Fill, ghost v: State, ghost fs: seq<Fill>) returns (ghost j: nat)
      requires fs != [] && f == fs[0] && |v.ledger.trades| <= Capacity(rules.lim.maxTrades)
      requires Best(v, order.side.Opposite(), fs)
      requires Now() == v.WithBook(order.side.Opposite(), Wind(v.Book(order.side.Opposite()), fs))
      modifies this
      ensures Holds(v.Book(order.side.Opposite())[0].orders, j, f.resting)
      ensures var v' := MatchStep(rules.lim, v, order, j, f.quantity);
        Now() == v'.WithBook(order.side.Opposite(), Wind(v'.Book(order.side.Opposite()), fs[1..]))
    {
      var opp := order.side.Opposite();
      var lv := Book(opp)[0];
      j := FirstPending(v.Book(opp)[0].orders, lv.price, fs);
      assert Ids(lv.orders)[j] == f.resting;
      var at := Locate(lv.orders, f.resting);
      assert at == j;
      var resting := lv.orders[at];
      PostTrade(Trade(f.price, f.quantity, order.id, resting.id, order.side, order.account, resting.account));
      CommitOnBook(opp, at, f);
      CommitIsMatchStep(rules.lim, v, order, fs, j);
    }

    /** undo_fills: put uncommitted fills back into the orders they were taken from. */
    method UndoFills(side: Side, fs: seq<Fill>, ghost v: State) returns (undone: int)
      requires Best(v, side, fs) && Now() == v.WithBook(side, Wind(v.Book(side), fs))
      modifies this`bids, this`asks
      ensures Now() == v && undone == TotalFills(fs)
    {
      hide Wind, TotalFills, NoDup, Reports;
      undone := 0;
      FillsAreFor(v.Book(side)[0].orders, fs);
      assert fs[0..] == fs;
      for j := 0 to |fs|
        invariant Now() == v.WithBook(side, Wind(v.Book(side), fs[j..]))
        invariant undone + TotalFills(fs[j..]) == TotalFills(fs)
      {
        WindIds(v.Book(side), fs[j..]);
        var lv := Book(side)[0];
        var at := Locate(lv.orders, fs[j].resting);
        assert fs[j..][1..] == fs[j+1..] && fs[j..][0] == fs[j];
        UnwindTop(v.Book(side), fs[j..], at);
        TotalFillsHead(fs[j..]);
        lv := lv.(orders := lv.orders[at := lv.orders[at].Filled(-fs[j].quantity)]);
        SetBook(side, Book(side)[0 := lv]);
        undone := undone + fs[j].quantity;
      }
      WindNothing(v.Book(side));
      TotalFillsNone(fs[|fs|..]);
    }

    /** Cancel an order that is in no list. */
    method CancelHand(id: nat, reason: CancelReason)
      modifies this`live, this`freeOrders, this`cancels
      ensures Now() == DropHand(old(Now()), id, reason)
    {
      live := live - {id};
      cancels := cancels + [(id, reason)];
      freeOrders := freeOrders + 1;
    }

    /** Take the order at (k, j) off the book and announce the cancel at `price`. */
    method CancelResting(side: Side, k: nat, j: nat, price: int, reason: CancelReason)
      requires Spot(Book(side), k, j) && CachesOk(Book(side)[k])
      modifies this`bids, this`asks, this`feed, this`live, this`freeOrders, this`freeLevels, this`cancels
      ensures Now() == CancelAt(old(Now()), side, k, j, price, reason)
    {
      var id := Book(side)[k].orders[j].id;
      PullResting(side, k, j, price);
      CancelHand(id, reason);
    }

    method PullResting(side: Side, k: nat, j: nat, price: int)
      requires Spot(Book(side), k, j) && CachesOk(Book(side)[k])
      modifies this`bids, this`asks, this`feed, this`freeLevels
      ensures Now() == PullAt(old(Now()), side, k, j, price)
    {
      var o := Book(side)[k].orders[j];
      var ls, freed := RemoveOrder(Book(side), k, j);
      feed := feed + [BookAction(o.id, side, price, o.remaining, Action.Cancel)];
      if freed { freeLevels := freeLevels + 1; }
      SetBook(side, ls);
    }

    /** apply_smp_action; false when the aggressor was cancelled. */
    method ApplySmp(order: Order, at: nat, price: int) returns (alive: bool, ghost v: State)
      requires Spot(Book(order.side.Opposite()), 0, at) && CachesOk(Book(order.side.Opposite())[0])
      modifies this
      ensures v == if rules.smp == CancelOldest || rules.smp == CancelBoth then
                     CancelAt(old(Now()), order.side.Opposite(), 0, at, price, SelfMatchPrevention)
                   else old(Now())
      ensures alive <==> rules.smp != CancelNewest && rules.smp != CancelBoth
      ensures Now() == if alive then v else DropHand(v, order.id, SelfMatchPrevention)
    {
      v := Now();
      var opp := order.side.Opposite();
      if rules.smp == CancelOldest || rules.smp == CancelBoth {
        CancelResting(opp, 0, at, price, SelfMatchPrevention);
        v := Now();
      }
      alive := rules.smp != CancelNewest && rules.smp != CancelBoth;
      if !alive { CancelHand(order.id, SelfMatchPrevention); }
    }

    /** A self-match: put back what is not committed, then cancel as the exchange prescribes. */
    method PreventSelfMatch(order0: Order, at: nat, fs: seq<Fill>, ghost v0: State, ghost agg: Order, ghost s0: State, ghost o0: Order)
      returns (order: Order, alive: bool, ghost v: State)
      requires rules.Valid() && fs != [] && Turn(rules, s0, o0, v0, agg, fs)
      requires Now() == v0.WithBook(o0.side.Opposite(), Wind(v0.Book(o0.side.Opposite()), fs))
      requires order0 == agg.(remaining := agg.remaining - TotalFills(fs))
      requires at < |v0.Book(o0.side.Opposite())[0].orders|
      requires rules.selfMatch(agg.account, v0.Book(o0.side.Opposite())[0].orders[at].account)
      modifies this
      ensures order == agg && InHand(rules.lim, v, order) && Advanced(rules, s0, o0, v, order)
      ensures Now() == if alive then v else DropHand(v, order.id, SelfMatchPrevention)
      ensures alive ==> ToDo(v, order) < ToDo(v0, agg)
      ensures !Strangers(rules, o0, s0.Book(o0.side.Opposite()))
      ensures alive <==> rules.smp == CancelOldest
      ensures v == if rules.smp == CancelNewest then v0
                   else CancelAt(v0, o0.side.Opposite(), 0, at, fs[0].price, SelfMatchPrevention)
    {
      hide Turn, Advanced, InHand, Strangers;
      ghost var at0 := NextResting(rules, s0, o0, v0, agg, fs);
      TurnCount(rules, s0, o0, v0, agg, fs);
      BestCaches(v0, o0.side.Opposite(), fs);
      var undone := UndoFills(order0.side.Opposite(), fs, v0);
      order := order0.(remaining := order0.remaining + undone);
      SelfMatchOutcome(rules, s0, o0, v0, agg, at, fs[0].price);
      alive, v := ApplySmp(order, at, fs[0].price);
    }

    /** Commit one fill, or stop at a self-match. */
    method HandleFill(order0: Order, fs: seq<Fill>, ghost v0: State, ghost agg0: Order, ghost s0: State, ghost o0: Order)
      returns (order: Order, stop: bool, alive: bool, ghost v: State, ghost agg: Order)
      requires rules.Valid() && fs != [] && Turn(rules, s0, o0, v0, agg0, fs)
      requires Now() == v0.WithBook(o0.side.Opposite(), Wind(v0.Book(o0.side.Opposite()), fs))
      requires order0 == agg0.(remaining := agg0.remaining - TotalFills(fs))
      modifies this
      ensures !stop ==> alive && Turn(rules, s0, o0, v, agg, fs[1..]) && agg.remaining < agg0.remaining
      ensures !stop ==> Now() == v.WithBook(o0.side.Opposite(), Wind(v.Book(o0.side.Opposite()), fs[1..]))
      ensures !stop ==> order == agg.(remaining := agg.remaining - TotalFills(fs[1..]))
      ensures stop ==> order == agg0 && InHand(rules.lim, v, order) && Advanced(rules, s0, o0, v, order)
      ensures stop ==> Now() == if alive then v else DropHand(v, order.id, SelfMatchPrevention)
      ensures stop && alive ==> ToDo(v, order) < ToDo(v0, agg0)
      ensures stop ==> !Strangers(rules, o0, s0.Book(o0.side.Opposite()))
      ensures !stop ==> !SelfFill(rules, v0, o0, fs[0])
      ensures !stop ==> v == CommitStep(rules.lim, v0, o0, fs[0]) && agg == agg0.Filled(fs[0].quantity)
      ensures stop ==> SelfMatched(rules, v0, o0, fs[0], v) && (alive <==> rules.smp == CancelOldest)
    {
      hide Turn, Advanced, InHand, Strangers, Best, CommitStep, SelfFill, SelfMatched, CancelAt, MatchStep;
      var opp := order0.side.Opposite();
      ghost var at0 := NextResting(rules, s0, o0, v0, agg0, fs);
      var lv := Book(opp)[0];
      var at := Locate(lv.orders, fs[0].resting);
      assert at == at0;
      agg := agg0;
      if rules.selfMatch(order0.account, lv.orders[at].account) {
        stop := true;
        order, alive, v := PreventSelfMatch(order0, at, fs, v0, agg0, s0, o0);
        SelfMatchIs(rules, s0, o0, v0, agg0, fs, at, v);
      } else {
        StrangerIs(rules, s0, o0, v0, agg0, fs, at);
        CommitIs(rules, s0, o0, v0, agg0, fs, at);
        TurnStep(rules, s0, o0, v0, agg0, fs, at);
        OrderStep(order0, agg0, fs);
        SameMatchStep(rules.lim, v0, order0, agg0, at, fs[0].quantity);
        v, agg := MatchStep(rules.lim, v0, agg0, at, fs[0].quantity), agg0.Filled(fs[0].quantity);
        ghost var j := CommitFill(order0, fs[0], v0, fs);
        assert j == at;
        stop, alive, order := false, true, order0.(filled := order0.filled + fs[0].quantity);
      }
    }

    /** The fill loop: commit the fills of a level one by one until a self-match stops it. */
    method HandleFills(order1: Order, fs: seq<Fill>, ghost order0: Order, ghost s0: State)
      returns (order: Order, alive: bool, ghost v: State, ghost k: nat)
      requires rules.Valid() && fs != [] && Turn(rules, s0, order0, s0, order0, fs) && Answer(rules, s0, order0, fs)
      requires Now() == s0.WithBook(order0.side.Opposite(), Wind(s0.Book(order0.side.Opposite()), fs))
      requires order1 == order0.(remaining := order0.remaining - TotalFills(fs))
      modifies this
      ensures InHand(rules.lim, v, order) && Advanced(rules, s0, order0, v, order)
      ensures Now() == if alive then v else DropHand(v, order.id, SelfMatchPrevention)
      ensures alive ==> ToDo(v, order) < ToDo(s0, order0)
      ensures Strangers(rules, order0, s0.Book(order0.side.Opposite())) ==> alive
      ensures TurnIs(rules, s0, order0, fs, k, v, order)
      ensures alive <==> k == |fs| || rules.smp == CancelOldest
    {
      hide Turn, Advanced, InHand, Strangers, CommitStep, SelfFill, SelfMatched, Committed, TurnIs, Answer, Wind, ToDo;
      order, alive, v, k := order1, true, s0, 0;
      ghost var agg := order0;
      ghost var opp := order0.side.Opposite();
      CommittedNone(rules.lim, s0, order0, fs);
      var i := 0;
      while i < |fs|
        invariant 0 <= i <= |fs| && alive
        invariant Turn(rules, s0, order0, v, agg, fs[i..])
        invariant Now() == v.WithBook(opp, Wind(v.Book(opp), fs[i..]))
        invariant order == agg.(remaining := agg.remaining - TotalFills(fs[i..]))
        invariant i > 0 ==> agg.remaining < order0.remaining
        invariant NoSelf(rules, s0, order0, fs, i)
        invariant k == i && v == Committed(rules.lim, s0, order0, fs[..i]) && agg == order0.Filled(TotalFills(fs[..i]))
      {
        assert fs[i..][1..] == fs[i+1..] && fs[i..][0] == fs[i];
        CommittedSnoc(rules.lim, s0, order0, fs, i);
        FilledSnoc(order0, fs, i);
        var stop;
        StillToDo(rules, s0, order0, v, agg, fs[i..]);
        ghost var c := v;
        order, stop, alive, v, agg := HandleFill(order, fs[i..], v, agg, s0, order0);
        if stop {
          TurnStopped(rules, s0, order0, fs, i, c, v, order);
          return;
        }
        NoSelfMore(rules, s0, order0, fs, i);
        i, k := i + 1, k + 1;
      }
      assert fs[i..] == [] && fs[..i] == fs;
      NothingPending(v, opp, order, agg);
      StillToDo(rules, s0, order0, v, agg, []);
      TurnDone(rules, s0, order0, fs, i, v, order);
    }

    /** One turn of the matching loop: run the policy on the best opposite level and commit its
        fills until one would be a self-match. */
    method MatchBestLevel(order0: Order)
      returns (order: Order, alive: bool, ghost v: State, ghost fills: seq<Fill>, ghost k: nat)
      requires rules.Valid() && InHand(rules.lim, Now(), order0) && order0.remaining > 0
      requires Book(order0.side.Opposite()) != []
      requires Within(order0.side.Opposite(), Book(order0.side.Opposite())[0].price, BoundOf(order0))
      requires RoomyWith(rules.policy, Now(), order0)
      modifies this
      ensures InHand(rules.lim, v, order) && Advanced(rules, old(Now()), order0, v, order)
      ensures Now() == if alive then v else DropHand(v, order.id, SelfMatchPrevention)
      ensures alive ==> ToDo(v, order) < ToDo(old(Now()), order0)
      ensures Strangers(rules, order0, old(Book(order0.side.Opposite()))) ==> alive
      ensures TurnIs(rules, old(Now()), order0, fills, k, v, order)
      ensures alive <==> k == |fills| || rules.smp == CancelOldest
      ensures |fills| <= MAX_FILLS
    {
      hide Turn, Advanced, InHand, Ready, Strangers, Plans, TurnIs, Answer, Matched, RoomyWith, Wind, ToDo;
      var opp := order0.side.Opposite();
      ghost var s0 := Now();
      var lv := Book(opp)[0];
      ReadyToMatch(rules, s0, order0);
      var fs, q, left := MatchLevel(rules.policy, lv, order0.remaining);
      FirstTurn(rules, s0, order0, fs, q, left);
      BestShows(rules, s0, order0);
      BestFits(rules, s0, order0);
      Answers(rules, s0, order0, fs);
      SetBook(opp, Book(opp)[0 := lv.(orders := q)]);
      fills := fs;
      order, alive, v, k := HandleFills(order0.(remaining := left), fs, order0, s0);
    }

    /** insert_into_book: rest a limit order, or cancel it when the level pool is exhausted. */
    method InsertIntoBook(o: Order)
      requires WellFormed(o.side, Book(o.side))
      modifies this
      ensures Now() == Rest(old(Now()), o)
    {
      if freeLevels == 0 {
        CancelHand(o.id, LevelPoolExhausted);
        return;
      }
      NonEmptyQueue(o.side, Book(o.side), o.price);
      freeLevels := freeLevels - 1;
      var ls, linked := InsertOrder(o.side, Book(o.side), o, o.price);
      if !linked { freeLevels := freeLevels + 1; }
      feed := feed + [BookAction(o.id, o.side, o.price, o.remaining, Action.Add)];
      SetBook(o.side, ls);
    }

    /** compute_matchable_qty: what the opposite side shows at acceptable prices. */
    method ComputeMatchable(order: Order) returns (n: int)
      requires Sorted(order.side.Opposite(), Book(order.side.Opposite()))
      ensures n == Reach(order.side.Opposite(), Book(order.side.Opposite()), BoundOf(order))
    {
      var opp := order.side.Opposite();
      var ls, b := Book(opp), BoundOf(order);
      n := 0;
      var k := 0;
      assert ls[0..] == ls;
      while k < |ls|
        invariant 0 <= k <= |ls| && n + Reach(opp, ls[k..], b) == Reach(opp, ls, b)
      {
        if order.kind == Limit && Better(opp, order.price, ls[k].price) {
          NoReach(opp, ls[k..], b);
          break;
        }
        assert ls[k..][1..] == ls[k+1..];
        n := n + ls[k].total;
        k := k + 1;
      }
    }

    /** check_daily_limit_hit: lock the market once the last trade is at a daily limit. */
    method CheckDailyLimit() returns (hit: bool)
      modifies this`session
      ensures hit <==> old(session) == LockLimit || AtDailyLimit(rules, lastTrade)
      ensures session == if hit then LockLimit else old(session)
    {
      if session == LockLimit { return true; }
      var upper := rules.dailyHigh > 0 && lastTrade >= rules.dailyHigh;
      var lower := rules.dailyLow > 0 && lastTrade <= rules.dailyLow;
      hit := upper || lower;
      if hit { session := LockLimit; }
    }

    /** check_volatility_interruption. */
    method CheckVolatility() returns (hit: bool)
      modifies this`session
      ensures hit <==> old(session) == Continuous && viReference != 0 && rules.volatile(lastTrade, viReference)
      ensures session == if hit then VolatilityAuction else old(session)
    {
      hit := session == Continuous && viReference != 0 && rules.volatile(lastTrade, viReference);
      if hit { session := VolatilityAuction; }
    }

    /** The two checks after a turn, in their order. */
    method CheckHalts(ghost s0: State) returns (stop: bool)
      requires session == s0.session && viReference == s0.viReference
      modifies this`session
      ensures stop <==> Halts(rules, s0, lastTrade)
      ensures session == SessionAfter(rules, s0, lastTrade)
    {
      stop := CheckDailyLimit();
      if !stop { stop := CheckVolatility(); }
    }

    /** The matching loop.  v is the state in which matching ended, before any halt. */
    method MatchLoop(order0: Order) returns (order: Order, alive: bool, ghost v: State, ghost ds: seq<Round>)
      requires rules.Valid() && InHand(rules.lim, Now(), order0) && RoomyWith(rules.policy, Now(), order0)
      modifies this
      ensures InHand(rules.lim, v, order) && Advanced(rules, old(Now()), order0, v, order)
      ensures Now() == (if alive then v else DropHand(v, order.id, SelfMatchPrevention)).(session := session)
      ensures Calm(rules, old(Now())) ==> session == old(session)
      ensures Calm(rules, old(Now())) && alive ==> order.remaining == 0 || OutOfReach(v, order)
      ensures Strangers(rules, order0, old(Book(order0.side.Opposite()))) ==> alive
      ensures TurnsTo(rules, old(Now()), order0, ds, v, order, alive)
      ensures alive ==> order.remaining == 0 || OutOfReach(v, order) || Halted(rules, old(Now()), ds, v)
      ensures session == SessionSince(rules, old(Now()), ds, v)
      ensures !alive ==> rules.smp != CancelOldest
    {
      hide InHand, Advanced, Strangers, TurnIs, TurnsTo, RoomyWith, OutOfReach, Halts, SessionAfter, Calm;
      order, alive, v, ds := order0, true, Now(), [];
      NoTurns(rules, v, order0);
      StartLoop(rules, v, order0);
      ghost var s0 := Now();
      var opp := order.side.Opposite();
      while alive && order.remaining > 0
        invariant InHand(rules.lim, v, order) && Advanced(rules, s0, order0, v, order)
        invariant Now() == if alive then v else DropHand(v, order.id, SelfMatchPrevention)
        invariant order.side == order0.side && session == s0.session && v.viReference == s0.viReference
        invariant ds != [] ==> !Halts(rules, s0, v.lastTrade)
        invariant Strangers(rules, order0, s0.Book(opp)) ==> alive
        invariant TurnsTo(rules, s0, order0, ds, v, order, alive) && (!alive ==> rules.smp != CancelOldest)
        decreases if alive then 1 + ToDo(v, order) else 0
      {
        LoopFacts(rules, s0, order0, v, order);
        var ls := Book(opp);
        if ls == [] { break; }
        if order.kind == Limit && Better(opp, order.price, ls[0].price) { break; }
        ghost var v0, o0 := v, order;
        AdvancedRoomy(rules, s0, order0, v, order);
        ghost var fs, k;
        order, alive, v, fs, k := MatchBestLevel(order);
        LoopStep(rules, s0, order0, v0, o0, v, order);
        OneMoreTurn(rules, s0, order0, ds, Round(v0, o0, fs, k), v, order, alive);
        ds := ds + [Round(v0, o0, fs, k)];
        var stop := CheckHalts(s0);
        if stop { break; }
        GoesOn(rules, s0, v.lastTrade);
      }
      LoopFacts(rules, s0, order0, v, order);
      if ds != [] { GoesOn(rules, s0, v.lastTrade); }
      if Calm(rules, s0) { NeverHalted(rules, s0, ds, v); }
    }

    /** post_match: what becomes of the order once matching is over. */
    method PostMatch(order: Order) returns (outcome: Outcome)
      requires WellFormed(order.side, Book(order.side))
      modifies this
      ensures outcome == Fate(order) && Now() == Ended(old(Now()), order, outcome) && session == old(session)
    {
      if order.remaining == 0 {
        live, freeOrders := live - {order.id}, freeOrders + 1;
        return Filled;
      }
      if order.kind == Market || order.tif == IOC {
        CancelHand(order.id, IOCRemainder);
        return Dropped(IOCRemainder);
      }
      if order.tif == FOK {
        CancelHand(order.id, FOKFailed);
        return Dropped(FOKFailed);
      }
      InsertIntoBook(order);
      return Booked;
    }

    /**
      match_order: work an order in hand against the book and settle what is left of it.
      `order` and v are the order and the state when matching ended.
     */
    method MatchOrder(order0: Order) returns (order: Order, outcome: Outcome, ghost v: State, ghost w: Work)
      requires rules.Valid() && InHand(rules.lim, Now(), order0) && RoomyWith(rules.policy, Now(), order0)
      modifies this
      ensures InHand(rules.lim, v, order) && Advanced(rules, old(Now()), order0, v, order)
      ensures Now() == Ended(v.(session := session), order, outcome)
      ensures Inv(rules.lim, Now(), multiset{})
      ensures buyStops == old(buyStops) && sellStops == old(sellStops)
      ensures old(MirrorsBook(Now())) ==> MirrorsBook(Now())
      ensures Calm(rules, old(Now())) ==> session == old(session)
      ensures Calm(rules, old(Now())) && old(Uncrossed(Now())) ==> Uncrossed(Now())
      ensures order0.tif == FOK && Calm(rules, old(Now())) && Strangers(rules, order0, old(Book(order0.side.Opposite()))) ==>
        (AllOrNothing(old(Now()), order0, Now(), order, outcome) <==> ShowsAll(order0) || FallsShort(old(Now()), order0))
      ensures order0.tif == FOK && Calm(rules, old(Now())) ==>
        (AllOrNothing(old(Now()), order0, Now(), order, outcome) <==> FillOrKill.AllOrNone(rules, old(Now()), order0))
      ensures WorkedBy(rules, old(Now()), order0, w, Now()) && w.v == v && w.o == order && w.outcome == outcome
      ensures Roomy(rules.policy, Now()) && Worked(rules, old(Now()), order0, w, Now())
    {
      hide InHand, Advanced, Strangers, MirrorsBook, Uncrossed, Inv, TurnsTo, OutOfReach, Reach, Halted, Roomy, RoomyWith,
           Calm, Rest, AllOrNothing, WorkedBy;
      ghost var s0 := Now();
      HandSorted(rules.lim, s0, order0);
      if order0.tif == FOK {
        var available := ComputeMatchable(order0);
        if available < order0.remaining {
          CancelHand(order0.id, FOKFailed);
          order, outcome, v := order0, Dropped(FOKFailed), s0;
          w := Work([], v, order, outcome);
          FokShort(rules, s0, order0);
          if Calm(rules, s0) { FillOrKill.FokExactly(rules, s0, order0, w, Now()); }
          return;
        }
      }
      var alive; ghost var ds;
      order, alive, v, ds := MatchLoop(order0);
      if alive {
        HandSorted(rules.lim, v, order);
        outcome := PostMatch(order);
      } else {
        outcome := Dropped(SelfMatchPrevention);
      }
      w := Work(ds, v, order, outcome);
      LoopEnds(rules, s0, order0, w, alive, session);
      if order0.tif == FOK && Calm(rules, s0) { FillOrKill.FokExactly(rules, s0, order0, w, Now()); }
    }

    // -------------------------------------------------------------- stops

    function StopList(side: Side): seq<Level>
      reads this
    {
      if side.Buy? then buyStops else sellStops
    }

    method SetStops(side: Side, ls: seq<Level>)
      modifies this`buyStops, this`sellStops
      ensures Now() == old(Now()).WithStops(side, ls)
    {
      if side == Buy { buyStops := ls; } else { sellStops := ls; }
    }

    /** insert_into_stop_book. */
    method InsertStop(o: Order, stopPrice: int)
      requires WellFormed(o.side.Opposite(), StopList(o.side))
      modifies this
      ensures Now() == Park(old(Now()), o, stopPrice)
    {
      if freeLevels == 0 {
        CancelHand(o.id, LevelPoolExhausted);
        return;
      }
      NonEmptyQueue(o.side.Opposite(), StopList(o.side), stopPrice);
      freeLevels := freeLevels - 1;
      var ls, linked := InsertOrder(o.side.Opposite(), StopList(o.side), o, stopPrice);
      if !linked { freeLevels := freeLevels + 1; }
      SetStops(o.side, ls);
    }

    /** remove_stop, and the level's slot given back when it was the last order. */
    method RemoveStop(side: Side, k: nat, j: nat)
      requires Spot(StopList(side), k, j) && CachesOk(StopList(side)[k])
      modifies this`buyStops, this`sellStops, this`freeLevels
      ensures Now() == Unpark(old(Now()), side, k, j)
    {
      var ls, freed := RemoveOrder(StopList(side), k, j);
      if freed { freeLevels := freeLevels + 1; }
      SetStops(side, ls);
    }

    /** has_triggered_stops and next_triggered_stop: only the two heads are inspected. */
    method NextTriggered() returns (found: bool, side: Side)
      requires Inv(rules.lim, Now(), multiset{})
      ensures found ==> StopList(side) != [] && Triggers(side, StopList(side)[0].price, lastTrade)
      ensures found && side == Sell ==> buyStops == [] || lastTrade < buyStops[0].price
      ensures !found <==> NoneTriggered(Now())
    {
      HeadsDecide(rules.lim, Now(), multiset{});
      if buyStops != [] && lastTrade >= buyStops[0].price { return true, Buy; }
      if sellStops != [] && lastTrade <= sellStops[0].price { return true, Sell; }
      return false, Buy;
    }

    /** check_and_trigger_stops: the cascade ends, and then no stop in either list triggers. */
    method CheckAndTriggerStops() returns (ghost trail: seq<Event>)
      requires rules.Valid() && Inv(rules.lim, Now(), multiset{}) && Roomy(rules.policy, Now())
      modifies this
      ensures Inv(rules.lim, Now(), multiset{}) && Roomy(rules.policy, Now())
      ensures lastTrade > 0 ==> NoneTriggered(Now())
      ensures old(MirrorsBook(Now())) ==> MirrorsBook(Now())
      ensures Calm(rules, old(Now())) ==> session == old(session)
      ensures Calm(rules, old(Now())) && old(Uncrossed(Now())) ==> Uncrossed(Now())
      ensures StopCount(Now()) <= old(StopCount(Now())) && nextId == old(nextId)
      ensures old(log) <= log && forall i :: old(|log|) <= i < |log| ==> NotSelf(rules, log[i])
      ensures Cascade(rules, old(Now()), trail, Now())
    {
      hide Inv, MirrorsBook, Uncrossed, NoneTriggered, InHand, Advanced, WorkedBy, Cascade, Unpark, Roomy, RoomyWith, Worked,
           Convert, Calm, NotSelf;
      ghost var s0 := Now();
      trail := [];
      NoStops(rules, s0);
      while lastTrade > 0
        invariant Carried(rules, s0, Now()) && Cascade(rules, s0, trail, Now())
        decreases StopCount(Now())
      {
        var found, side := NextTriggered();
        if !found { break; }
        HeadStop(rules.lim, Now(), side);
        HeadRoomy(rules, Now(), side);
        var head := StopList(side)[0].orders[0];
        ghost var s1 := Now();
        RemoveStop(side, 0, 0);
        hide Carried;
        var stop := if head.kind == Stop then head.(kind := Market, price := 0) else head.(kind := Limit);
        Converts(head, stop);
        var order, outcome; ghost var v, w;
        order, outcome, v, w := MatchOrder(stop);
        CarriedOn(rules, s0, trail, Event(s1, side, w, Now()));
        trail := trail + [Event(s1, side, w, Now())];
      }
    }

    /** Match an order in hand, then run the stop cascade it may have set off. */
    method MatchAndCascade(order: Order) returns (ghost story: Story)
      requires rules.Valid() && InHand(rules.lim, Now(), order) && RoomyWith(rules.policy, Now(), order)
      modifies this
      ensures Inv(rules.lim, Now(), multiset{}) && Roomy(rules.policy, Now())
      ensures old(MirrorsBook(Now())) ==> MirrorsBook(Now())
      ensures Calm(rules, old(Now())) ==> session == old(session)
      ensures Calm(rules, old(Now())) && old(Uncrossed(Now())) ==> Uncrossed(Now())
      ensures lastTrade > 0 ==> NoneTriggered(Now())
      ensures nextId == old(nextId)
      ensures old(log) <= log && forall i :: old(|log|) <= i < |log| ==> NotSelf(rules, log[i])
      ensures Played(rules, old(Now()), order, story, Now())
    {
      hide Inv, MirrorsBook, Uncrossed, NoneTriggered, InHand, Advanced, Strangers, AllOrNothing, Ended, NotSelf, WorkedBy,
           Cascade, Roomy, RoomyWith;
      ghost var s1 := Now();
      var o, outcome; ghost var v, w;
      o, outcome, v, w := MatchOrder(order);
      TradesSince(rules, s1, order, v, o, outcome, session);
      ghost var middle := Now();
      ghost var trail := CheckAndTriggerStops();
      story := Story(w, middle, trail);
    }

    // -------------------------------------------------------------- new_order

    /** The checks of new_order, one after the other. */
    method Validate(req: Request, throttled: bool) returns (why: Option<RejectReason>)
      ensures why == Rejection(rules, session, lastTrade, nextId, freeOrders, positions, req, throttled)
    {
      if throttled { return Some(RateThrottled); }
      if !rules.validates(req) { return Some(ExchangeSpecific); }
      if !rules.tifValid(req.tif) { return Some(InvalidTif); }
      if req.quantity <= 0 { return Some(InvalidQuantity); }
      if rules.lot > 0 && req.quantity % rules.lot != 0 { return Some(InvalidQuantity); }
      if req.display > 0 {
        if req.display > req.quantity { return Some(InvalidQuantity); }
        if rules.lot > 0 && req.display % rules.lot != 0 { return Some(InvalidQuantity); }
        var minDisplay := rules.minDisplay(req);
        if minDisplay > 0 && req.display < minDisplay { return Some(InvalidQuantity); }
      }
      if rules.maxSize > 0 && req.quantity > rules.maxSize { return Some(MaxOrderSizeExceeded); }
      if req.kind == Limit || req.kind == StopLimit {
        why := ValidatePrice(req.price);
        if why.Some? { return; }
      }
      if (req.kind == Stop || req.kind == StopLimit) && req.stopPrice <= 0 { return Some(InvalidPrice); }
      if session == Closed { return Some(ExchangeSpecific); }
      if !rules.allowedIn(req, session) { return Some(InvalidTif); }
      if rules.checksPositions {
        var exceeds := WouldExceed(positions, req, rules.positionLimit(req.account));
        if exceeds { return Some(PositionLimitExceeded); }
      }
      if nextId >= rules.lim.maxIds { return Some(PoolExhausted); }
      if freeOrders == 0 { return Some(PoolExhausted); }
      return None;
    }

    method ValidatePrice(price: int) returns (why: Option<RejectReason>)
      ensures why == PriceRejection(rules, lastTrade, price)
    {
      if price <= 0 { return Some(InvalidPrice); }
      if rules.tick > 0 && price % rules.tick != 0 { return Some(InvalidPrice); }
      var (low, high) := rules.bands(lastTrade);
      if low > 0 && price < low { return Some(PriceBandViolation); }
      if high > 0 && price > high { return Some(PriceBandViolation); }
      if rules.dailyHigh > 0 && price > rules.dailyHigh { return Some(LockLimitUp); }
      if rules.dailyLow > 0 && price < rules.dailyLow { return Some(LockLimitDown); }
      return None;
    }

    /** would_exceed_limit. */
    static method WouldExceed(positions: seq<int>, req: Request, limit: int) returns (b: bool)
      ensures b <==> ExceedsLimit(positions, req, limit)
    {
      if limit <= 0 { return false; }
      if req.account == 0 || req.account >= |positions| { return false; }
      var pos := positions[req.account];
      if req.side == Buy { return pos + req.quantity > limit; } else { return pos - req.quantity < -limit; }
    }

    /** Validate, accept and route an incoming order. */
    method NewOrder(req: Request, throttled: bool) returns (r: Admission, ghost story: Story)
      requires rules.Valid() && Inv(rules.lim, Now(), multiset{}) && Roomy(rules.policy, Now())
      requires Rejection(rules, session, lastTrade, nextId, freeOrders, positions, req, throttled).None? ==>
        RoomFor(rules.policy, Now(), req)
      modifies this
      ensures Roomy(rules.policy, Now())
      ensures r == Verdict(Rejection(rules, old(session), old(lastTrade), old(nextId), old(freeOrders), old(positions), req, throttled),
                           old(nextId))
      ensures Judged(NewChecks(rules, old(Now()), req, throttled), if r.Rejected? then Some(r.reason) else None)
      ensures r.Rejected? ==> Now() == old(Now())
      ensures r.Accepted? ==> r.id == old(nextId) && nextId == old(nextId) + 1
      ensures Inv(rules.lim, Now(), multiset{})
      ensures old(MirrorsBook(Now())) ==> MirrorsBook(Now())
      ensures Calm(rules, old(Now())) ==> session == old(session)
      ensures Calm(rules, old(Now())) && !Collecting(old(session)) && old(Uncrossed(Now())) ==> Uncrossed(Now())
      ensures r.Accepted? && !req.IsStop() && !Collecting(old(session)) && lastTrade > 0 ==> NoneTriggered(Now())
      ensures old(log) <= log && forall i :: old(|log|) <= i < |log| ==> NotSelf(rules, log[i])
      ensures r.Accepted? ==> Routed(rules, AcceptedState(old(Now())), OrderOf(req, old(nextId)), req, story, Now())
    {
      hide Inv, MirrorsBook, Uncrossed, NoneTriggered, InHand, NotSelf, Park, Rest, OrderOf, Played, Roomy, RoomyWith, RoomFor, Rejection,
        Admissible, Ended, Calm, WaitsAt, Judged, NewChecks;
      story := *;
      ghost var s0 := Now();
      var why := Validate(req, throttled);
      NewJudged(rules, s0, req, throttled);
      if why.Some? {
        r := Rejected(why.value);
        return;
      }
      var order := OrderOf(req, nextId);
      r := Accepted(nextId);
      StillCalm(rules, s0, AcceptedState(s0));
      NotThrottled(rules, s0, req, throttled);
      AcceptInv(rules, s0, req);
      AcceptAside(s0);
      AcceptRoomy(rules.policy, s0, req);
      live, freeOrders, nextId := live + {nextId}, freeOrders - 1, nextId + 1;
      if req.IsStop() {
        ParkKeeps(rules.lim, Now(), order, req.stopPrice);
        ParkRoomy(rules.policy, Now(), order, req.stopPrice);
        AcceptSides(rules.lim, Now(), order.id, order.side);
        InsertStop(order, req.stopPrice);
        return;
      }
      if Collecting(session) {
        Collect(order);
        return;
      }
      story := MatchAndCascade(order);
    }

    /** An order entered in a phase without matching: limit orders rest, others are cancelled. */
    method Collect(order: Order)
      requires InHand(rules.lim, Now(), order) && RoomyWith(rules.policy, Now(), order) && order.remaining > 0
      modifies this
      ensures Now() == Ended(old(Now()), order, if order.kind == Limit then Booked else Dropped(IOCRemainder))
      ensures Inv(rules.lim, Now(), multiset{}) && Roomy(rules.policy, Now()) && (old(MirrorsBook(Now())) ==> MirrorsBook(Now()))
      ensures session == old(session) && nextId == old(nextId) && log == old(log)
    {
      hide Inv, MirrorsBook, InHand, Rest, Roomy, RoomyWith;
      ghost var outcome := if order.kind == Limit then Booked else Dropped(IOCRemainder);
      EndedOnce(rules.lim, Now(), order, outcome);
      EndedRoomy(rules, Now(), order, outcome, session);
      HandSorted(rules.lim, Now(), order);
      if order.kind == Limit { InsertIntoBook(order); } else { CancelHand(order.id, IOCRemainder); }
    }

    // -------------------------------------------------------------- cancels

    /** Search one list for an order. */
    static method FindIn(ls: seq<Level>, id: nat) returns (found: bool, k: nat, j: nat)
      ensures found ==> Spot(ls, k, j) && ls[k].orders[j].id == id
      ensures !found ==> Bag(ls)[id] == 0
    {
      found, k, j := false, 0, 0;
      assert ls[..0] == [] && ls[..|ls|] == ls;
      while k < |ls|
        invariant 0 <= k <= |ls| && Bag(ls[..k])[id] == 0
      {
        j := 0;
        while j < |ls[k].orders|
          invariant 0 <= j <= |ls[k].orders| && forall i :: 0 <= i < j ==> ls[k].orders[i].id != id
        {
          if ls[k].orders[j].id == id { return true, k, j; }
          j := j + 1;
        }
        assert id !in Ids(ls[k].orders);
        assert ls[..k+1] == ls[..k] + [ls[k]];
        BagConcat(ls[..k], [ls[k]]);
        BagOne(ls[k]);
        k := k + 1;
      }
    }

    /** Follow an index entry to the order: every indexed order is in exactly one list. */
    method Find(id: nat) returns (at: Place)
      requires Shape(rules.lim, Now(), multiset{}) && id in live
      ensures Spot(ListAt(Now(), at), at.k, at.j) && ListAt(Now(), at)[at.k].orders[at.j].id == id
    {
      var found, k, j := FindIn(bids, id);
      if found { return Place(false, Buy, k, j); }
      found, k, j := FindIn(asks, id);
      if found { return Place(false, Sell, k, j); }
      found, k, j := FindIn(buyStops, id);
      if found { return Place(true, Buy, k, j); }
      found, k, j := FindIn(sellStops, id);
      assert (AllIds(Now()) + multiset{})[id] == multiset(live)[id];
      return Place(true, Sell, k, j);
    }

    /** cancel_active_order: from the stop book or the book, by the order's type. */
    method CancelActive(at: Place, reason: CancelReason)
      requires Inv(rules.lim, Now(), multiset{}) && Spot(ListAt(Now(), at), at.k, at.j)
      modifies this
      ensures Now() == CancelAny(old(Now()), at, reason)
    {
      ListAtOk(rules.lim, Now(), at);
      hide Inv;
      if at.stops {
        var o := StopList(at.side)[at.k].orders[at.j];
        RemoveStop(at.side, at.k, at.j);
        CancelHand(o.id, reason);
      } else {
        CancelResting(at.side, at.k, at.j, Book(at.side)[at.k].orders[at.j].price, reason);
      }
    }

    /** cancel_order. */
    method CancelOrder(id: nat, throttled: bool) returns (r: Option<RejectReason>, ghost at: Place)
      requires Inv(rules.lim, Now(), multiset{})
      modifies this
      ensures r ==
        if old(session) == Closed then Some(ExchangeSpecific) else if id !in old(live) then Some(UnknownOrder)
        else if throttled then Some(RateThrottled) else None
      ensures Judged(CancelChecks(old(Now()), id, throttled), r)
      ensures r.Some? ==> Now() == old(Now())
      ensures r.None? ==> Finds(old(Now()), at, id) && Now() == CancelAny(old(Now()), at, UserRequested)
      ensures r.None? ==> forall o :: Held(Now(), o) <==> old(Held(Now(), o)) && o.id != id
      ensures r.None? ==> live == old(live) - {id} && log == old(log) && cancels == old(cancels) + [(id, UserRequested)]
      ensures Inv(rules.lim, Now(), multiset{}) && session == old(session) && nextId == old(nextId)
      ensures old(MirrorsBook(Now())) ==> MirrorsBook(Now())
      ensures old(Uncrossed(Now())) ==> Uncrossed(Now())
      ensures Thins(old(Now()), Now())
    {
      hide Crowd, Judged, CancelChecks;
      at := *;
      CancelJudged(Now(), id, throttled);
      if session == Closed { return Some(ExchangeSpecific), at; }
      if id !in live { return Some(UnknownOrder), at; }
      if throttled { return Some(RateThrottled), at; }
      ghost var s := Now();
      var place := Find(id);
      at := place;
      hide Inv, Held, MirrorsBook, Uncrossed, CancelAny;
      CancelAnyInv(rules.lim, s, at, UserRequested);
      CancelAnyBook(rules.lim, s, at, UserRequested);
      CancelAnyThins(s, at, UserRequested);
      CancelAnyLists(s, at, UserRequested);
      forall o ensures Held(CancelAny(s, at, UserRequested), o) <==> Held(s, o) && o.id != id {
        CancelAnyHeld(rules.lim, s, at, UserRequested, o);
      }
      CancelActive(place, UserRequested);
      return None, at;
    }

    /** trigger_expiry, mass_cancel and mass_cancel_all: a scan of the index by identifier. */
    method SweepIndex(w: Sweep, reason: CancelReason) returns (count: nat, ghost trail: seq<Visit>)
      requires Inv(rules.lim, Now(), multiset{})
      modifies this
      ensures (forall o :: Held(Now(), o) <==> old(Held(Now(), o)) && !w.Takes(o)) && Sweeps(w, reason, old(Now()), trail, Now())
      ensures count == old(|live|) - |live| && live <= old(live) && Notified(old(Now()), Now(), reason)
      ensures Thins(old(Now()), Now())
      ensures Inv(rules.lim, Now(), multiset{}) && session == old(session) && log == old(log) && nextId == old(nextId)
      ensures old(MirrorsBook(Now())) ==> MirrorsBook(Now())
      ensures old(Uncrossed(Now())) ==> Uncrossed(Now())
    {
      hide Inv, Held, MirrorsBook, Uncrossed, Notified, SweptTo, Crowd, Sweeps;
      ghost var s0 := Now();
      count, trail := 0, [];
      SweepNone(w, reason, s0);
      var i := 1;
      StartSweep(rules.lim, s0, w);
      NotifiedNone(s0, reason);
      while i < nextId
        invariant 1 <= i && nextId == s0.nextId && session == s0.session && log == s0.ledger.log
        invariant Inv(rules.lim, Now(), multiset{}) && SweptTo(s0, Now(), w, i)
        invariant MirrorsBook(s0) ==> MirrorsBook(Now())
        invariant Uncrossed(s0) ==> Uncrossed(Now())
        invariant live <= s0.live && count == |s0.live| - |live| && Notified(s0, Now(), reason)
        invariant Thins(s0, Now()) && Sweeps(w, reason, s0, trail, Now())
      {
        ghost var s := Now();
        var taken;
        taken, trail := SweepOne(i, w, reason, s0, trail);
        ThinsTrans(s0, s, Now());
        if taken { count := count + 1; }
        i := i + 1;
      }
      EndSweep(rules.lim, s0, Now(), w, i);
    }

    /** One index entry of the scan. */
    method SweepOne(i: nat, w: Sweep, reason: CancelReason, ghost s0: State, ghost trail0: seq<Visit>)
      returns (taken: bool, ghost trail: seq<Visit>)
      requires Inv(rules.lim, Now(), multiset{}) && SweptTo(s0, Now(), w, i) && Notified(s0, Now(), reason)
      requires Sweeps(w, reason, s0, trail0, Now())
      modifies this
      ensures Sweeps(w, reason, s0, trail, Now())
      ensures Inv(rules.lim, Now(), multiset{}) && SweptTo(s0, Now(), w, i + 1)
      ensures Notified(s0, Now(), reason) && Thins(old(Now()), Now())
      ensures live <= old(live) && |live| == |old(live)| - if taken then 1 else 0
      ensures nextId == old(nextId) && session == old(session) && log == old(log)
      ensures old(MirrorsBook(Now())) ==> MirrorsBook(Now())
      ensures old(Uncrossed(Now())) ==> Uncrossed(Now())
    {
      hide Inv, Held, MirrorsBook, Uncrossed, CancelAny, Bag, Notified, SweptTo, Shape, Thins, Sweeps;
      ghost var s := Now();
      trail := trail0;
      NoneThinner(s);
      if i in live {
        InvShape(rules.lim, s, multiset{});
        var at := Find(i);
        var o := if at.stops then StopList(at.side)[at.k].orders[at.j] else Book(at.side)[at.k].orders[at.j];
        NotTaken(rules.lim, s, w, i, at);
        if w.Takes(o) {
          SweepCancel(rules.lim, s0, s, w, i, at, reason);
          SweepMore(w, reason, s0, trail0, Visit(s, at));
          CancelActive(at, reason);
          return true, trail0 + [Visit(s, at)];
        }
      } else {
        NotHeld(rules.lim, s, i);
      }
      SweepSkips(rules.lim, s0, s, w, i);
      return false, trail0;
    }

    // -------------------------------------------------------------- modify_order

    /** modify_order: amend down in place where the policy allows, else cancel and re-enter. */
    method ModifyOrder(id: nat, price: int, quantity: int, ts: int, throttled: bool)
      returns (r: Option<RejectReason>, ghost at: Place, ghost story: Story)
      requires rules.Valid() && Inv(rules.lim, Now(), multiset{}) && Roomy(rules.policy, Now())
      requires ModifyRejection(rules, session, live, id, price, quantity, throttled).None? ==>
        Modifiable(Now(), id, quantity) && RoomToReplace(rules, Now(), id, price)
      modifies this
      ensures Roomy(rules.policy, Now())
      ensures r == ModifyRejection(rules, old(session), old(live), id, price, quantity, throttled)
      ensures Judged(ModifyChecks(rules, old(Now()), id, price, quantity, throttled), r)
      ensures r.Some? ==> Now() == old(Now())
      ensures Inv(rules.lim, Now(), multiset{}) && nextId == old(nextId)
      ensures r.None? ==> Spot(old(Book(at.side)), at.k, at.j) && old(Book(at.side))[at.k].orders[at.j].id == id
      ensures r.None? && old(MirrorsBook(Now())) ==>
        (MirrorsBook(Now()) <==> !AmendsUntold(rules, old(Book(at.side))[at.k].orders[at.j], price, quantity))
      ensures Calm(rules, old(Now())) ==> session == old(session)
      ensures Calm(rules, old(Now())) && old(Uncrossed(Now())) ==> Uncrossed(Now())
      ensures r.None? && rules.amend == CancelReplace && lastTrade > 0 ==> NoneTriggered(Now())
      ensures old(log) <= log && forall i :: old(|log|) <= i < |log| ==> NotSelf(rules, log[i])
      ensures r.None? ==> Modified(rules, old(Now()), id, price, quantity, ts, at, story, Now())
    {
      hide Inv, Held, MirrorsBook, Uncrossed, NoneTriggered, InHand, NotSelf, Modifiable, Played, PullAt, AmendAt, Roomy,
           RoomToReplace, Thins, Judged, ModifyChecks, ModifyRejection;
      at, story := *, *;
      r := ValidateModify(id, price, quantity, throttled);
      ModifyJudged(rules, Now(), id, price, quantity, throttled);
      if r.Some? { return; }
      ModifyKnows(rules, Now(), id, price, quantity, throttled);
      InvShape(rules.lim, Now(), multiset{});
      var place := Find(id);
      at := place;
      ModifyTarget(rules.lim, Now(), place, id, quantity);
      var order := Book(place.side)[place.k].orders[place.j];
      if AmendsInPlace(rules, order, price, quantity) {
        AmendInv(rules.lim, Now(), place.side, place.k, place.j, quantity);
        AmendThins(Now(), place.side, place.k, place.j, quantity);
        RoomyThins(rules.policy, Now(), AmendAt(Now(), place.side, place.k, place.j, quantity));
        if MirrorsBook(Now()) { AmendTold(rules.lim, Now(), place.side, place.k, place.j, quantity); }
        Amend(place.side, place.k, place.j, quantity);
        return;
      }
      story := ReEnter(place.side, place.k, place.j, price, quantity, ts);
    }

    /** The checks of modify_order. */
    method ValidateModify(id: nat, price: int, quantity: int, throttled: bool) returns (why: Option<RejectReason>)
      ensures why == ModifyRejection(rules, session, live, id, price, quantity, throttled)
    {
      if session == Closed { return Some(ExchangeSpecific); }
      if id !in live { return Some(UnknownOrder); }
      if throttled { return Some(RateThrottled); }
      if quantity <= 0 { return Some(InvalidQuantity); }
      if price <= 0 { return Some(InvalidPrice); }
      if rules.tick > 0 && price % rules.tick != 0 { return Some(InvalidPrice); }
      if rules.lot > 0 && quantity % rules.lot != 0 { return Some(InvalidQuantity); }
      if rules.amend == RejectModify { return Some(ExchangeSpecific); }
      return None;
    }

    /** The cancel-replace branch: off the book, then matched afresh under its old identifier. */
    method ReEnter(side: Side, k: nat, j: nat, price: int, quantity: int, ts: int) returns (ghost story: Story)
      requires rules.Valid() && Inv(rules.lim, Now(), multiset{}) && Spot(Book(side), k, j) && CachesOk(Book(side)[k])
      requires Replaceable(Book(side)[k].orders[j], quantity)
      requires Roomy(rules.policy, Now()) && RoomToReplace(rules, Now(), Book(side)[k].orders[j].id, price)
      modifies this
      ensures Inv(rules.lim, Now(), multiset{}) && nextId == old(nextId) && Roomy(rules.policy, Now())
      ensures old(MirrorsBook(Now())) ==> MirrorsBook(Now())
      ensures Calm(rules, old(Now())) ==> session == old(session)
      ensures Calm(rules, old(Now())) && old(Uncrossed(Now())) ==> Uncrossed(Now())
      ensures lastTrade > 0 ==> NoneTriggered(Now())
      ensures old(log) <= log && forall i :: old(|log|) <= i < |log| ==> NotSelf(rules, log[i])
      ensures var o := old(Book(side))[k].orders[j];
        Played(rules, PullAt(old(Now()), side, k, j, o.price), Replaced(o, price, quantity, ts), story, Now())
    {
      hide Inv, MirrorsBook, Uncrossed, NoneTriggered, InHand, NotSelf, PullAt, CachesOk, Replaceable, Played, Roomy,
           RoomyWith, RoomToReplace;
      var order := Book(side)[k].orders[j];
      ReplaceInHand(rules.lim, Now(), side, k, j, price, quantity, ts);
      PullKeeps(rules.lim, Now(), side, k, j);
      ReplaceRoomy(rules, Now(), side, k, j, price, quantity, ts);
      PullResting(side, k, j, order.price);
      order := order.(price := price, quantity := quantity, remaining := quantity - order.filled, timestamp := ts);
      story := MatchAndCascade(order);
    }

    /** The amend-down branch: order quantities and the level's cached total. */
    method Amend(side: Side, k: nat, j: nat, quantity: int)
      requires Spot(Book(side), k, j) && CachesOk(Book(side)[k])
      modifies this`bids, this`asks
      ensures Now() == AmendAt(old(Now()), side, k, j, quantity)
    {
      var ls := Book(side);
      var lv := ls[k];
      var o := lv.orders[j];
      var remaining := quantity - o.filled;
      var o' := o.(quantity := quantity, remaining := remaining);
      SumRemUpdate(lv.orders, j, o');
      lv := lv.(total := lv.total - (o.remaining - remaining), orders := lv.orders[j := o']);
      SetBook(side, ls[k := lv]);
    }

    // -------------------------------------------------------------- bust_trade

    /** Give the quantity of a busted trade back to one of its orders, if it is still there. */
    method RestoreParty(id: nat, qty: int) returns (ghost at: Place)
      requires Shape(rules.lim, Now(), multiset{}) && Showing(bids) && Showing(asks) && Restful(Now(), id)
      modifies this`bids, this`asks
      ensures old(CanGiveBack(Now(), id, qty)) ==> Shape(rules.lim, Now(), multiset{}) && Showing(bids) && Showing(asks)
      ensures GivenBack(old(Now()), Now(), id, qty) && GaveBack(old(Now()), id, qty, at, Now())
      ensures Now() == old(Now()).(bids := bids, asks := asks)
      ensures PricesWithin(bids, old(bids)) && PricesWithin(asks, old(asks)) && Thins(old(Now()), Now())
    {
      hide Shape, Showing, CanGiveBack, Restful, GivenBack, PricesWithin, Crowd;
      ghost var s := Now();
      SamePrices(bids);
      SamePrices(asks);
      at := *;
      if id !in live {
        NobodyToRestore(rules.lim, s, id, qty);
        return;
      }
      var at0 := Find(id);
      at := at0;
      GiveBackTarget(rules.lim, s, at, id, qty);
      if CanGiveBack(s, id, qty) { RestoreShape(rules.lim, s, at.side, at.k, at.j, qty); }
      RestoreGivesBack(rules.lim, s, at.side, at.k, at.j, qty);
      RestoreThins(s, at.side, at.k, at.j, qty);
      GiveBack(at0.side, at0.k, at0.j, qty);
    }

    method GiveBack(side: Side, k: nat, j: nat, qty: int)
      requires Spot(Book(side), k, j) && CachesOk(Book(side)[k])
      modifies this`bids, this`asks
      ensures Now() == RestoreAt(old(Now()), side, k, j, qty)
      ensures PricesWithin(Book(side), old(Book(side)))
    {
      var ls := Book(side);
      var lv := ls[k];
      var o := lv.orders[j];
      o := o.(filled := o.filled - qty, remaining := o.remaining + qty);
      SumRemUpdate(lv.orders, j, o);
      PutPrices(ls, k, lv.orders[j := o]);
      lv := lv.(total := lv.total + qty, orders := lv.orders[j := o]);
      SetBook(side, ls[k := lv]);
    }

    /** bust_trade: takes effect at most once, and exactly reverses the trade. */
    method BustTrade(tradeId: nat, approved: bool) returns (ok: bool, ghost a: Place, ghost s1: State, ghost b: Place)
      requires Inv(rules.lim, Now(), multiset{})
      modifies this
      ensures ok <==> old(session) != Closed && 0 < tradeId <= |old(trades)| && !old(trades)[tradeId - 1].busted && approved
      ensures !ok ==> Now() == old(Now())
      ensures ok ==> BustOf(old(Now()), Now(), tradeId - 1) && Reversed(old(Now()), tradeId - 1, a, s1, b, Now())
      ensures ok && old(MirrorsBook(Now())) ==>
        var t := old(trades)[tradeId - 1].trade; MirrorsBook(Now()) <==> t.aggressor !in old(live) && t.resting !in old(live)
      ensures ok ==> (Inv(rules.lim, Now(), multiset{}) <==> Bustable(rules.lim, old(Now()), tradeId - 1))
      ensures Thins(old(Now()), Now()) && (old(Uncrossed(Now())) ==> Uncrossed(Now()))
    {
      hide Inv, Shape, Showing, Uncrossed, MirrorsBook, BustOf, BustedLedger, Bustable, Thins, BothGivenBack, GaveBack;
      if session == Closed || tradeId == 0 || tradeId > |trades| || trades[tradeId - 1].busted || !approved {
        NoneThinner(Now());
        a, s1, b := *, *, *;
        return false, a, s1, b;
      }
      ghost var s := Now();
      s1, a, b := GiveBackBoth(tradeId);
      ghost var s2 := Now();
      ReverseLedger(tradeId);
      BustDone(rules.lim, s, s1, s2, Now(), tradeId - 1);
      if MirrorsBook(s) { BustTold(rules.lim, s, tradeId - 1, a, s1, b, Now()); }
      return true, a, s1, b;
    }

    /** Give the quantity of a trade back to both its orders, as far as they are still there. */
    method GiveBackBoth(tradeId: nat) returns (ghost s1: State, ghost a: Place, ghost b: Place)
      requires Inv(rules.lim, Now(), multiset{}) && 0 < tradeId <= |trades| && !trades[tradeId - 1].busted
      modifies this`bids, this`asks
      ensures BothGivenBack(rules.lim, old(Now()), s1, Now(), tradeId - 1)
      ensures Shape(rules.lim, s1, multiset{}) && Showing(s1.bids) && Showing(s1.asks)
      ensures var t := trades[tradeId - 1].trade; GaveBack(old(Now()), t.aggressor, t.qty, a, s1) && GaveBack(s1, t.resting, t.qty, b, Now())
    {
      hide Inv, Shape, Showing, GivenBack, CanGiveBack, Restful, PricesWithin, Thins;
      ghost var s, i := Now(), tradeId - 1;
      var t := trades[tradeId - 1].trade;
      InvShape(rules.lim, s, multiset{});
      PartyCanGiveBack(rules.lim, s, i, t.aggressor);
      PartyCanGiveBack(rules.lim, s, i, t.resting);
      CanRest(s, t.aggressor, t.qty);
      a := RestoreParty(t.aggressor, t.qty);
      OtherCanGiveBack(s, Now(), t.aggressor, t.resting, t.qty);
      s1 := Now();
      if t.resting !in live { NobodyGivesBack(rules.lim, s1, t.resting, t.qty); }
      b := RestoreParty(t.resting, t.qty);
    }

    /** Mark the record and reverse both positions from it, whether or not the orders remain. */
    method ReverseLedger(tradeId: nat)
      requires 0 < tradeId <= |trades| && !trades[tradeId - 1].busted
      modifies this`trades, this`positions
      ensures Now() == old(Now()).(ledger := BustedLedger(old(Now()).ledger, tradeId - 1))
    {
      var t := trades[tradeId - 1].trade;
      var ok;
      trades, ok := MarkBusted(trades, tradeId);
      positions := ReverseFill(positions, t.aggressorAccount, t.side, t.qty);
      positions := ReverseFill(positions, t.restingAccount, t.side.Opposite(), t.qty);
    }

    // -------------------------------------------------------------- fills of resting orders

    /** Fill n of a resting order in place and announce it. */
    method TakeResting(side: Side, k: nat, j: nat, n: int, price: int)
      requires Spot(Book(side), k, j) && CachesOk(Book(side)[k])
      modifies this`bids, this`asks, this`feed
      ensures Now() == TakeAt(old(Now()), side, k, j, n, price)
    {
      var ls := Book(side);
      var lv := ls[k];
      var o := lv.orders[j];
      o := o.(filled := o.filled + n, remaining := o.remaining - n);
      SumRemUpdate(lv.orders, j, o);
      lv := lv.(total := lv.total - n, orders := lv.orders[j := o]);
      feed := feed + [BookAction(o.id, side, price, n, Action.Fill)];
      SetBook(side, ls[k := lv]);
    }

    /** Show an exhausted iceberg's next tranche at the back of its queue. */
    method RevealResting(side: Side, k: nat, j: nat)
      requires Spot(Book(side), k, j) && CachesOk(Book(side)[k])
      requires Book(side)[k].orders[j].remaining == 0 && Book(side)[k].orders[j].HasHidden()
      modifies this`bids, this`asks, this`feed
      ensures Now() == SettleAt(old(Now()), side, k, j)
    {
      hide CachesOk, PutQueue, Without;
      var ls := Book(side);
      var lv := ls[k];
      var o := lv.orders[j];
      var next := o.NextTranche();
      MoveParts(ls, k, j, o.(remaining := next));
      lv := lv.(total := lv.total + next, orders := Without(lv.orders, j) + [o.(remaining := next)]);
      feed := feed + [BookAction(o.id, side, o.price, next, Action.Add)];
      SetBook(side, ls[k := lv]);
    }

    /** Unlink a filled order and free its slot, and its level's with the last one. */
    method DropResting(side: Side, k: nat, j: nat)
      requires Spot(Book(side), k, j) && CachesOk(Book(side)[k])
      requires Book(side)[k].orders[j].remaining == 0 && !Book(side)[k].orders[j].HasHidden()
      modifies this`bids, this`asks, this`live, this`freeOrders, this`freeLevels
      ensures Now() == SettleAt(old(Now()), side, k, j)
    {
      hide PutQueue, Without, SumRem;
      var id := Book(side)[k].orders[j].id;
      var ls, freed := RemoveOrder(Book(side), k, j);
      hide CachesOk;
      FreeSlots(id, freed);
      SetBook(side, ls);
    }

    /** auction_handle_filled_order: an exhausted order shows its next tranche or leaves. */
    method SettleResting(side: Side, k: nat, j: nat) returns (gone: bool)
      requires Spot(Book(side), k, j) && CachesOk(Book(side)[k])
      modifies this`bids, this`asks, this`feed, this`live, this`freeOrders, this`freeLevels
      ensures Now() == SettleAt(old(Now()), side, k, j)
      ensures var o := old(Book(side))[k].orders[j]; gone <==> o.remaining == 0 && !o.HasHidden()
    {
      hide CachesOk, PutQueue, Without;
      var o := Book(side)[k].orders[j];
      if o.remaining != 0 { return false; }
      if o.HasHidden() { RevealResting(side, k, j); return false; }
      DropResting(side, k, j);
      return true;
    }

    /** One implied fill. */
    method FillLeg(side: Side, k: nat, j: nat, leg: Leg)
      requires Spot(Book(side), k, j) && CachesOk(Book(side)[k]) && |trades| <= Capacity(rules.lim.maxTrades)
      modifies this
      ensures Now() == TradeStep(rules.lim, old(Now()), side, k, j, LegTrade(old(Book(side))[k].orders[j], leg))
    {
      ghost var s := Now();
      var o := Book(side)[k].orders[j];
      TakeResting(side, k, j, leg.qty, leg.price);
      ghost var s1 := Now();
      TakenSpot(s, side, k, j, leg.qty, leg.price);
      PostTrade(Trade(leg.price, leg.qty, o.id, o.id, o.side, o.account, o.account));
      SettleAside(s1, side, k, j, Now().ledger, leg.price);
      var gone := SettleResting(side, k, j);
    }

    /** apply_implied_fills: every leg is validated first; then all are applied or none is. */
    method ApplyImpliedFills(legs: seq<Leg>) returns (ok: bool, ghost trail: seq<Visit>)
      requires Inv(rules.lim, Now(), multiset{}) && DistinctLegs(legs) && RestingLegs(Now(), legs)
      modifies this
      ensures ok <==> old(LegsOk(Now(), legs))
      ensures !ok ==> Now() == old(Now())
      ensures Inv(rules.lim, Now(), multiset{}) && session == old(session) && nextId == old(nextId)
      ensures ok ==> |log| == |old(log)| + |legs| && |trail| == |legs| && FillsLegs(rules.lim, legs, old(Now()), trail, Now())
      ensures old(log) <= log && forall i :: 0 <= i < |log| - |old(log)| && i < |legs| ==> IsLegTrade(legs[i], log[|old(log)| + i])
      ensures old(MirrorsBook(Now())) ==> MirrorsBook(Now())
      ensures old(Uncrossed(Now())) ==> Uncrossed(Now())
      ensures Thins(old(Now()), Now())
    {
      hide Inv, MirrorsBook, Uncrossed, Held, TradeStep, LegsOk, RestingLegs, Thins, FillsLegs, CachesOk, Shape;
      ghost var s0 := Now();
      trail := [];
      NoneThinner(s0);
      ok := ValidateLegs(legs);
      if !ok { return; }
      LegsBegin(rules.lim, legs, s0);
      for i := 0 to |legs|
        invariant LegsDone(rules.lim, legs, s0, trail, Now()) && |trail| == i
      {
        LegReady(rules.lim, legs, s0, trail, Now());
        hide LegsDone;
        var at := Find(legs[i].id);
        LegDone(rules.lim, legs, s0, trail, Visit(Now(), at));
        trail := trail + [Visit(Now(), at)];
        FillLeg(at.side, at.k, at.j, legs[i]);
      }
    }

    /** The validation pass. */
    method ValidateLegs(legs: seq<Leg>) returns (ok: bool)
      requires Inv(rules.lim, Now(), multiset{})
      ensures ok <==> LegsOk(Now(), legs)
    {
      hide Inv, Shape, LegOk;
      InvShape(rules.lim, Now(), multiset{});
      for i := 0 to |legs|
        invariant forall k :: 0 <= k < i ==> LegOk(Now(), legs[k])
      {
        if legs[i].id !in live {
          NoLeg(rules.lim, Now(), legs[i]);
          return false;
        }
        var at := Find(legs[i].id);
        LegAt(rules.lim, Now(), at, legs[i]);
        var o := if at.stops then StopList(at.side)[at.k].orders[at.j] else Book(at.side)[at.k].orders[at.j];
        if legs[i].qty <= 0 || o.remaining < legs[i].qty { return false; }
      }
      return true;
    }

    // -------------------------------------------------------------- auctions

    /** Fill both orders and post the trade. */
    method TakeBoth(jb: nat, ja: nat, n: int, p: int)
      requires Spot(bids, 0, jb) && Spot(asks, 0, ja) && CachesOk(bids[0]) && CachesOk(asks[0])
      requires |trades| <= Capacity(rules.lim.maxTrades)
      modifies this
      ensures Now() == CrossTaken(rules.lim, old(Now()), jb, ja, n, p)
      ensures Spot(bids, 0, jb) && bids[0].orders[jb] == old(bids)[0].orders[jb].Filled(n) && CachesOk(bids[0])
      ensures Spot(asks, 0, ja) && asks[0].orders[ja] == old(asks)[0].orders[ja].Filled(n) && CachesOk(asks[0])
    {
      hide Posted;
      var bid, ask := bids[0].orders[jb], asks[0].orders[ja];
      TakenSpot(Now(), Buy, 0, jb, n, p);
      TakeResting(Buy, 0, jb, n, p);
      TakenSpot(Now(), Sell, 0, ja, n, p);
      TakeResting(Sell, 0, ja, n, p);
      PostTrade(Trade(p, n, bid.id, ask.id, Buy, bid.account, ask.account));
    }

    /** One fill between two resting orders; the pointers move as the source's do. */
    method CrossOrders(jb: nat, ja: nat, n: int, p: int) returns (nextBid: Option<nat>, nextAsk: Option<nat>)
      requires Spot(bids, 0, jb) && Spot(asks, 0, ja) && CachesOk(bids[0]) && CachesOk(asks[0])
      requires |trades| <= Capacity(rules.lim.maxTrades)
      modifies this
      ensures Now() == CrossStep(rules.lim, old(Now()), jb, ja, n, p)
      ensures nextBid == WalkOn(old(bids)[0].orders, jb, n) && nextAsk == WalkOn(old(asks)[0].orders, ja, n)
    {
      hide SettleAt, FillQ, Without, WalkOn, CrossTaken;
      ghost var s := Now();
      var bid, ask := bids[0].orders[jb], asks[0].orders[ja];
      var bidFollows, askFollows := jb + 1 < |bids[0].orders|, ja + 1 < |asks[0].orders|;
      var lastBid, lastAsk := |bids[0].orders| - 1, |asks[0].orders| - 1;
      TakeBoth(jb, ja, n, p);
      ghost var s3 := Now();
      SettleLocal(s3, s3, Buy, 0, jb);
      var bidGone := SettleResting(Buy, 0, jb);
      var askGone := SettleResting(Sell, 0, ja);
      WalkIs(s.bids[0].orders, jb, n, bidGone);
      WalkIs(s.asks[0].orders, ja, n, askGone);
      nextBid := if bidGone then (if bidFollows then Some(jb) else None) else if bid.remaining == n then Some(lastBid) else Some(jb);
      nextAsk := if askGone then (if askFollows then Some(ja) else None) else if ask.remaining == n then Some(lastAsk) else Some(ja);
    }

    /** The inner walk: the best bid level against the best ask level, until one of the two
        pointers runs off its queue or the volume is done. */
    method CrossLevels(p: int, left0: int, ghost s0: State, ghost done0: int, ghost start: Walk, ghost trail0: seq<Walk>, ghost from: Walk)
      returns (left: int, ghost trail: seq<Walk>, ghost last: Walk)
      requires Inv(rules.lim, s0, multiset{}) && Walked(rules.lim, s0, Now(), p, done0) && Enough(Now(), p, left0)
      requires bids != [] && asks != [] && bids[0].price >= p >= asks[0].price && left0 > 0
      requires Walks(rules.lim, p, start, trail0, from) && from.s == Now() && from.left == left0 && (from.bid.None? || from.ask.None?)
      modifies this
      ensures Walks(rules.lim, p, start, trail, last) && last.s == Now() && last.left == left
      ensures left > 0 ==> last.bid.None? || last.ask.None?
      ensures 0 <= left < left0 && Enough(Now(), p, left)
      ensures Walked(rules.lim, s0, Now(), p, done0 + left0 - left)
    {
      hide Walked, Enough, CrossStep, WalkOn, PlainBoth, Inv, CachesOk, Walks, WalksOn;
      left, trail, last := left0, trail0, from;
      var bid, ask: Option<nat> := Some(0), Some(0);
      WalkStart(rules.lim, s0, Now(), p, done0);
      while left > 0 && bid.Some? && ask.Some?
        invariant 0 <= left <= left0 && Enough(Now(), p, left) && Walked(rules.lim, s0, Now(), p, done0 + left0 - left)
        invariant Pointed(s0, Now(), p, bid, ask)
        invariant left == left0 ==> bid.Some? && ask.Some?
        invariant Walks(rules.lim, p, start, trail, last) && last.s == Now() && last.left == left
        invariant if left == left0 then last == from && bid == Some(0) && ask == Some(0) else last.bid == bid && last.ask == ask
        decreases left
      {
        ghost var w := last;
        var jb, ja := bid.value, ask.value;
        var n := Min(left, Min(bids[0].orders[jb].remaining, asks[0].orders[ja].remaining));
        CrossReady(rules.lim, s0, p, done0 + left0 - left, w);
        CrossOn(rules.lim, s0, p, done0 + left0 - left, w);
        bid, ask := CrossOrders(jb, ja, n, p);
        left := left - n;
        last := Walk(Now(), left, bid, ask);
        WalkMore(rules.lim, p, start, trail, w, last);
        trail := trail + [w];
      }
    }

    /** execute_auction: find the price, trade its volume at it, and take it as the new reference. */
    method ExecuteAuction(reference: int) returns (r: AuctionResult, ghost trail: seq<Walk>, ghost last: Walk)
      requires Inv(rules.lim, Now(), multiset{})
      modifies this
      ensures r.hasPrice <==> !old(Uncrossed(Now()))
      ensures Auctioned(rules.lim, old(Now()), reference, r, trail, last, Now())
      ensures Parties.Fresh(Parties.Faces(old(Now())), Parties.MarkOf(old(Now())), Now())
      ensures forall a: nat :: Positions.Settles(old(Now()), Now(), a)
      ensures !r.hasPrice ==> Now() == old(Now())
      ensures r.hasPrice ==> Clears(old(bids), old(asks), reference, r) && viReference == r.price && lastTrade == r.price
      ensures r.hasPrice ==> AuctionLog(old(Now()), Now(), r.price, r.matched)
      ensures Inv(rules.lim, Now(), multiset{}) && session == old(session) && nextId == old(nextId)
      ensures old(MirrorsBook(Now())) ==> MirrorsBook(Now())
      ensures Thins(old(Now()), Now())
      ensures r.hasPrice ==> (Uncrossed(Now()) <==> Covers(old(bids), old(asks), r.matched))
      ensures r.hasPrice && PlainBoth(old(Now()), r.price) ==>
        bids == TakeFront(old(bids), r.matched) && asks == TakeFront(old(asks), r.matched) && Uncrossed(Now())
    {
      hide Walked, Enough, Inv, Clears, TakeFront, PlainBoth, MirrorsBook, AuctionLog, CachesOk, Depth, Sorted, Stocked,
           Volume, Covers, Crowd, Walks, Parties.Fresh, Parties.Faces, Positions.Settles;
      ghost var s0 := Now();
      AuctionReady(rules.lim, s0);
      r := CalculateAuctionPrice(bids, asks, reference);
      trail, last := [], Walk(s0, r.matched, None, None);
      WalkNone(rules.lim, r.price, last);
      if !r.hasPrice {
        AuctionMoves(rules.lim, s0, reference, r, trail, last, Now());
        return;
      }
      var p, left := r.price, r.matched;
      ghost var start := last;
      AuctionStart(rules.lim, s0, reference, r);
      while left > 0
        invariant 0 <= left <= r.matched && Enough(Now(), p, left) && Walked(rules.lim, s0, Now(), p, r.matched - left)
        invariant Walks(rules.lim, p, start, trail, last) && last.s == Now() && last.left == left
        invariant left > 0 ==> last.bid.None? || last.ask.None?
        decreases left
      {
        WalkOpen(rules.lim, s0, Now(), p, r.matched - left, left);
        if bids == [] || asks == [] || bids[0].price < p || asks[0].price > p { break; }
        left, trail, last := CrossLevels(p, left, s0, r.matched - left, start, trail, last);
      }
      ghost var s1 := Now();
      viReference := p;
      AuctionEnd(rules.lim, s0, reference, r, s1, Now());
      AuctionMoves(rules.lim, s0, reference, r, trail, last, Now());
    }

    // -------------------------------------------------------------- runs

    /** set_session_state. */
    method SetSessionState(to: SessionState, allowed: bool)
      modifies this`session, this`viReference
      ensures Now() == EnterState(old(Now()), to, allowed) && session == (if allowed then to else old(session))
      ensures viReference ==
        if allowed && to == Continuous && old(session) != Continuous && lastTrade > 0 then lastTrade else old(viReference)
    {
      if to == session || !allowed { return; }
      session := to;
      if to == Continuous && lastTrade > 0 { viReference := lastTrade; }
    }

    /** unlock_limit. */
    method UnlockLimit()
      modifies this`session
      ensures Now() == Unlocked(old(Now())) && session == if old(session) == LockLimit then Continuous else old(session)
    {
      if session == LockLimit { session := Continuous; }
    }

    /** restore_order. */
    method RestoreOrder(o: Order, now: int, approved: bool) returns (r: Option<RejectReason>)
      requires Inv(rules.lim, Now(), multiset{})
      modifies this
      ensures r == RestoreRejection(rules, old(live), old(lastTrade), old(freeOrders), o, now, approved)
      ensures Judged(RestoreChecks(rules, old(Now()), o, now, approved), r)
      ensures r.Some? ==> Now() == old(Now())
      ensures r.None? ==> Now() == Restored(old(Now()), o)
      ensures r.None? ==> (Inv(rules.lim, Now(), multiset{}) <==> old(freeLevels) == 0 || Restorable(old(Now()), o))
      ensures old(MirrorsBook(Now())) ==> MirrorsBook(Now())
      ensures old(Roomy(rules.policy, Now())) && (Bids(o, o.price) ==> old(Crowd(Now(), o.side, o.price)) < PerPrice(rules.policy)) ==>
        Roomy(rules.policy, Now())
      ensures log == old(log) && session == old(session)
    {
      hide Inv, MirrorsBook, Roomy, Restorable, Rest, Crowd, RestoreRejection, WellFormed, Judged, RestoreChecks;
      r := ValidateRestore(o, now, approved);
      RestoreJudged(rules, Now(), o, now, approved);
      if r.Some? { return; }
      ghost var s := Now();
      RestoreInv(rules, s, o, now, approved);
      RestoreSide(rules.lim, s, o.side);
      if Roomy(rules.policy, s) && (Bids(o, o.price) ==> Crowd(s, o.side, o.price) < PerPrice(rules.policy)) {
        RestoredRoomy(rules.policy, s, o);
      }
      RestAside(Reindexed(s, o.id), o);
      Reindex(o.id);
      InsertIntoBook(o);
    }

    /** The checks of restore_order. */
    method ValidateRestore(o: Order, now: int, approved: bool) returns (why: Option<RejectReason>)
      ensures why == RestoreRejection(rules, live, lastTrade, freeOrders, o, now, approved)
    {
      if o.id == 0 || o.id >= rules.lim.maxIds { return Some(ExchangeSpecific); }
      if o.id in live { return Some(ExchangeSpecific); }
      if o.remaining <= 0 { return Some(InvalidQuantity); }
      if rules.lot > 0 && o.quantity % rules.lot != 0 { return Some(InvalidQuantity); }
      if o.kind == Limit || o.kind == StopLimit {
        if o.price <= 0 { return Some(InvalidPrice); }
        if rules.tick > 0 && o.price % rules.tick != 0 { return Some(InvalidPrice); }
        var (low, high) := rules.bands(lastTrade);
        if low > 0 && o.price < low { return Some(PriceBandViolation); }
        if high > 0 && o.price > high { return Some(PriceBandViolation); }
      }
      if o.tif == GTD && o.gtdExpiry <= now { return Some(ExchangeSpecific); }
      if !approved { return Some(ExchangeSpecific); }
      if freeOrders == 0 { return Some(PoolExhausted); }
      return None;
    }

    /** Take a slot for an order under its old identifier. */
    method Reindex(id: nat)
      modifies this`live, this`freeOrders, this`nextId
      ensures Now() == Reindexed(old(Now()), id)
    {
      live, freeOrders := live + {id}, freeOrders - 1;
      if id >= nextId { nextId := id + 1; }
    }

    method HasRoom(side: Side, price: int) returns (ok: bool)
      ensures ok <==> Crowd(Now(), side, price) < PerPrice(rules.policy)
    {
      return Priced(Book(side), price) + Priced(StopList(side), price) < PerPrice(rules.policy);
    }

    /** Decide what a caller owes before a bust. */
    method CanBust(tradeId: nat) returns (ok: bool)
      ensures ok <==> (0 < tradeId <= |trades| ==> Bustable(rules.lim, Now(), tradeId - 1))
    {
      if tradeId == 0 || tradeId > |trades| { return true; }
      var t := trades[tradeId - 1].trade;
      return t.Implied() ==> t.resting !in live && !Tracked(t.restingAccount, rules.lim.maxAccounts);
    }

    /** Decide what a caller owes before a modify. */
    method CanModify(id: nat, price: int, quantity: int) returns (ok: bool)
      requires Inv(rules.lim, Now(), multiset{})
      ensures ok <==> Modifiable(Now(), id, quantity) && RoomToReplace(rules, Now(), id, price)
    {
      hide Inv, Shape, Modifiable, RoomToReplace, Crowd;
      InvShape(rules.lim, Now(), multiset{});
      if id !in live {
        NobodyHeld(rules.lim, Now(), id);
        NobodyModifiable(rules, Now(), id, price, quantity);
        return true;
      }
      var at := Find(id);
      ModifiableAt(rules, Now(), at, id, price, quantity);
      var o := if at.stops then StopList(at.side)[at.k].orders[at.j] else Book(at.side)[at.k].orders[at.j];
      var room := HasRoom(o.side, price);
      return o.kind == Limit && Replaceable(o, quantity) && (o.price == price || room);
    }

    /** Decide whether a batch names each order once and only resting ones. */
    method CanFill(legs: seq<Leg>) returns (ok: bool)
      requires Inv(rules.lim, Now(), multiset{})
      ensures ok <==> DistinctLegs(legs) && RestingLegs(Now(), legs)
    {
      hide Inv, Shape, RestingLegs, RestingLeg;
      InvShape(rules.lim, Now(), multiset{});
      RestingEach(Now(), legs);
      for i := 0 to |legs|
        invariant forall k :: 0 <= k < i ==> RestingLeg(Now(), legs[k])
        invariant DistinctLegs(legs[..i])
      {
        for k := 0 to i
          invariant forall m :: 0 <= m < k ==> legs[m].id != legs[i].id
        {
          if legs[k].id == legs[i].id { return false; }
        }
        if legs[i].id in live {
          var at := Find(legs[i].id);
          RestingLegAt(rules.lim, Now(), at, legs[i]);
          var kind := if at.stops then StopList(at.side)[at.k].orders[at.j].kind else Book(at.side)[at.k].orders[at.j].kind;
          if kind != Limit { return false; }
        } else {
          NobodyResting(rules.lim, Now(), legs[i]);
        }
        assert legs[..i+1] == legs[..i] + [legs[i]];
      }
      assert legs[..|legs|] == legs;
      return true;
    }

    /** One operation, if the caller may ask for it: it has its effect, and the order feed keeps up with
        the book exactly when it tells the whole of it. */
    method Step(op: Op) returns (ghost note: Note)
      requires rules.Valid() && Inv(rules.lim, Now(), multiset{}) && Roomy(rules.policy, Now())
      modifies this
      ensures Does(rules, old(Now()), op, note, Now())
      ensures Inv(rules.lim, Now(), multiset{}) && Roomy(rules.policy, Now()) && old(log) <= log
      ensures old(MirrorsBook(Now())) && old(Owed(rules, Now(), op)) ==> (MirrorsBook(Now()) <==> old(ToldInFull(rules, Now(), op)))
      ensures Quiet(op) && Calm(rules, old(Now())) ==> session == old(session)
      ensures Quiet(op) && Calm(rules, old(Now())) && !Collecting(old(session)) && old(Uncrossed(Now())) ==> Uncrossed(Now())
    {
      hide Inv, MirrorsBook, Uncrossed, Held, Modifiable, RestingLegs, NoneTriggered, Calm, LegsOk, Routed, Modified, Roomy,
           RoomToReplace, Thins, Crowd, Restorable, Sweeps, FillsLegs, RestoreRejection, Rejection, ModifyRejection, CancelAny,
           Reversed, Auctioned, Bustable, RoomFor;
      ghost var s := Now();
      note := Nothing;
      match op
      case New(req, throttled) =>
        note := StepNew(req, throttled);
      case Cancel(id, throttled) =>
        var r; ghost var at;
        r, at := CancelOrder(id, throttled);
        note := Note.Taken(at);
        RoomyThins(rules.policy, s, Now());
      case SweepOrders(w, reason) =>
        var n; ghost var trail;
        n, trail := SweepIndex(w, reason);
        note := Swept(trail);
        RoomyThins(rules.policy, s, Now());
      case Modify(id, price, quantity, ts, throttled) =>
        note := StepModify(id, price, quantity, ts, throttled);
      case Bust(tradeId, approved) =>
        var ok := CanBust(tradeId);
        if ok { note := StepBust(tradeId, approved); }
      case Fills(legs) =>
        var ok := CanFill(legs);
        if ok {
          var done; ghost var trail;
          done, trail := ApplyImpliedFills(legs);
          note := LegsFilled(trail);
          RoomyThins(rules.policy, s, Now());
        }
      case Uncross(reference) =>
        note := StepAuction(reference);
      case Enter(to, allowed) =>
        EnterKeeps(rules.lim, Now(), to, allowed);
        SetSessionState(to, allowed);
        SameRoomy(rules.policy, s, Now());
      case Unlock =>
        UnlockKeeps(rules.lim, Now());
        if Calm(rules, s) { UnlockCalm(rules, s); }
        UnlockLimit();
        SameRoomy(rules.policy, s, Now());
      case Restore(o, now, approved) =>
        StepRestore(o, now, approved);
    }

    method StepNew(req: Request, throttled: bool) returns (ghost note: Note)
      requires rules.Valid() && Inv(rules.lim, Now(), multiset{}) && Roomy(rules.policy, Now())
      modifies this
      ensures Does(rules, old(Now()), New(req, throttled), note, Now())
      ensures Inv(rules.lim, Now(), multiset{}) && Roomy(rules.policy, Now()) && old(log) <= log
      ensures old(MirrorsBook(Now())) ==> MirrorsBook(Now())
      ensures Calm(rules, old(Now())) ==> session == old(session)
      ensures Calm(rules, old(Now())) && !Collecting(old(session)) && old(Uncrossed(Now())) ==> Uncrossed(Now())
    {
      hide Inv, MirrorsBook, Uncrossed, NoneTriggered, Calm, Routed, Roomy, Crowd, Rejection;
      note := Nothing;
      var room := HasRoom(req.side, req.price);
      if !req.IsPriced() || room || Rejection(rules, session, lastTrade, nextId, freeOrders, positions, req, throttled).Some? {
        var r; ghost var story;
        r, story := NewOrder(req, throttled);
        note := Told(story);
      }
    }

    method StepModify(id: nat, price: int, quantity: int, ts: int, throttled: bool) returns (ghost note: Note)
      requires rules.Valid() && Inv(rules.lim, Now(), multiset{}) && Roomy(rules.policy, Now())
      modifies this
      ensures Does(rules, old(Now()), Op.Modify(id, price, quantity, ts, throttled), note, Now())
      ensures Inv(rules.lim, Now(), multiset{}) && Roomy(rules.policy, Now()) && old(log) <= log
      ensures var op := Op.Modify(id, price, quantity, ts, throttled);
        old(MirrorsBook(Now())) && old(Owed(rules, Now(), op)) ==> (MirrorsBook(Now()) <==> old(ToldInFull(rules, Now(), op)))
      ensures Calm(rules, old(Now())) ==> session == old(session)
      ensures Calm(rules, old(Now())) && old(Uncrossed(Now())) ==> Uncrossed(Now())
    {
      hide Inv, MirrorsBook, Uncrossed, Held, NoneTriggered, Calm, Modified, Roomy, Crowd, ModifyRejection, Modifiable,
           RoomToReplace, AmendsUntold;
      ghost var s := Now();
      note := Nothing;
      var ok := CanModify(id, price, quantity);
      if ok || ModifyRejection(rules, session, live, id, price, quantity, throttled).Some? {
        var r; ghost var at, story;
        r, at, story := ModifyOrder(id, price, quantity, ts, throttled);
        note := ModifiedAt(at, story);
        if r.None? { OneHeld(rules.lim, s, Place(false, at.side, at.k, at.j), id); }
      }
    }

    method StepRestore(o: Order, now: int, approved: bool)
      requires Inv(rules.lim, Now(), multiset{}) && Roomy(rules.policy, Now())
      modifies this
      ensures Does(rules, old(Now()), Restore(o, now, approved), Nothing, Now())
      ensures Inv(rules.lim, Now(), multiset{}) && Roomy(rules.policy, Now()) && log == old(log)
      ensures old(MirrorsBook(Now())) ==> MirrorsBook(Now())
    {
      hide Inv, MirrorsBook, Roomy, Crowd, QtyOk, Traded, RestoreRejection, Restored;
      var room := HasRoom(o.side, o.price);
      var fits := o.kind == Limit && QtyOk(o) && o.filled == Traded(Ledger(log, trades, positions), o.id);
      if RestoreRejection(rules, live, lastTrade, freeOrders, o, now, approved).Some? || (fits && room) {
        var r := RestoreOrder(o, now, approved);
      }
    }

    method StepBust(tradeId: nat, approved: bool) returns (ghost note: Note)
      requires Inv(rules.lim, Now(), multiset{}) && Roomy(rules.policy, Now())
      requires 0 < tradeId <= |trades| ==> Bustable(rules.lim, Now(), tradeId - 1)
      modifies this
      ensures Effect(rules, old(Now()), Bust(tradeId, approved), note, Now())
      ensures Inv(rules.lim, Now(), multiset{}) && log == old(log) && session == old(session) && Roomy(rules.policy, Now())
      ensures old(Uncrossed(Now())) ==> Uncrossed(Now())
      ensures old(MirrorsBook(Now())) ==> (MirrorsBook(Now()) <==> old(ToldInFull(rules, Now(), Bust(tradeId, approved))))
    {
      hide Inv, Uncrossed, Roomy, Crowd, MirrorsBook, Reversed, Bustable;
      ghost var s := Now();
      var ok; ghost var a, s1, b;
      ok, a, s1, b := BustTrade(tradeId, approved);
      note := Gave(a, s1, b);
      if ok { BustAside(s, Now(), tradeId - 1); }
      RoomyThins(rules.policy, s, Now());
    }

    method StepAuction(reference: int) returns (ghost note: Note)
      requires Inv(rules.lim, Now(), multiset{}) && Roomy(rules.policy, Now())
      modifies this
      ensures Effect(rules, old(Now()), Uncross(reference), note, Now())
      ensures Inv(rules.lim, Now(), multiset{}) && old(log) <= log && session == old(session) && Roomy(rules.policy, Now())
      ensures old(MirrorsBook(Now())) ==> MirrorsBook(Now())
      ensures old(Uncrossed(Now())) ==> Uncrossed(Now())
    {
      hide Inv, MirrorsBook, Uncrossed, Clears, TakeFront, PlainBoth, Roomy, Crowd, Covers, Auctioned;
      ghost var s := Now();
      var r; ghost var trail, last;
      r, trail, last := ExecuteAuction(reference);
      note := Crossed(r, trail, last);
      RoomyThins(rules.policy, s, Now());
    }

    /** Any run: every operation owed has its effect, the invariants hold throughout, the tape only grows,
        the announced runs can be replayed, and a run that never leaves Continuous never leaves the book
        crossed. */
    method Run(ops: seq<Op>) returns (ghost trail: seq<Did>)
      requires rules.Valid() && Inv(rules.lim, Now(), multiset{}) && Roomy(rules.policy, Now())
      modifies this
      ensures DoesAll(rules, old(Now()), ops, trail, Now())
      ensures |trail| == |ops| && Changes.Traces(old(Now()), Changes.RunChanges(rules, ops, trail), Now())
      ensures Inv(rules.lim, Now(), multiset{}) && Roomy(rules.policy, Now())
      ensures old(log) <= log && Parties.AllMade(rules, ops, trail, Parties.MarkOf(old(Now())), Now())
      ensures AllAnnounced(rules, ops) && old(MirrorsBook(Now())) ==> MirrorsBook(Now())
      ensures StaysPut(rules, old(Now()), ops) && old(Uncrossed(Now())) ==> Uncrossed(Now())
    {
      hide Inv, MirrorsBook, Uncrossed, Roomy, Does, DoesAll, ToldInFull, Owed, Changes.Traces, Changes.RunChanges, Parties.AllMade;
      ghost var s0 := Now();
      trail := [];
      DoesNone(rules, s0);
      Changes.TracesSame(s0);
      Changes.RunNone(rules);
      Parties.NoneMade(rules, s0);
      assert ops[..|ops|] == ops;
      for i := 0 to |ops|
        invariant DoesAll(rules, s0, ops[..i], trail, Now())
        invariant |trail| == i && Changes.Traces(s0, Changes.RunChanges(rules, ops[..i], trail), Now())
        invariant Inv(rules.lim, Now(), multiset{}) && Roomy(rules.policy, Now())
        invariant s0.ledger.log <= log && Parties.AllMade(rules, ops[..i], trail, Parties.MarkOf(s0), Now())
        invariant AllAnnounced(rules, ops) && MirrorsBook(s0) ==> MirrorsBook(Now())
        invariant StaysPut(rules, s0, ops) ==> session == s0.session
        invariant StaysPut(rules, s0, ops) && Uncrossed(s0) ==> Uncrossed(Now())
      {
        ghost var s := Now();
        if Announced(rules, ops[i]) { AnnouncedInFull(rules, s, ops[i]); }
        ghost var note := Step(ops[i]);
        UndoneSame(rules, s, ops[i], note, Now());
        Changes.RunMore(rules, s0, ops[..i], ops[i], trail, Did(s, note), Now());
        Parties.MoreMade(rules, ops[..i], ops[i], trail, Parties.MarkOf(s0), Did(s, note), Now());
        assert ops[..i+1] == ops[..i] + [ops[i]];
        DoesMore(rules, s0, ops[..i], ops[i], trail, Did(s, note), Now());
        trail := trail + [Did(s, note)];
      }
    }
  }
}
