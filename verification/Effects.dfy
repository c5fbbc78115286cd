/**
  What each public operation of the engine (exchange-core/matching_engine.h) does to its state: the
  chain of elementary changes it is made of, down to the last fill and cancel.
 */
module Effects {
  import opened Types
  import opened Queues
  import opened Levels
  import opened Ledger
  import opened EngineState
  import opened Trading
  import opened Matching
  import opened Progress
  import opened Lifecycle
  import opened Cancels
  import opened Busts
  import opened Implied
  import opened Auction
  import opened Crossing
  import opened Room
  import opened Restores
  import opened Turns
  import opened Runs

  // ---------------------------------------------------------------- chains

  /** An order visited in a state. */
  datatype Visit = Visit(before: State, at: Place)

  ghost predicate Finds(s: State, at: Place, id: nat) {
    Spot(ListAt(s, at), at.k, at.j) && ListAt(s, at)[at.k].orders[at.j].id == id
  }

  /** A sweep: cancels of orders it is for, in the order of their identifiers. */
  ghost predicate Sweeps(w: Sweep, reason: CancelReason, s: State, trail: seq<Visit>, s': State) {
    if trail == [] then s' == s
    else
      var n := |trail| - 1;
      var e := trail[n];
      && Sweeps(w, reason, s, trail[..n], e.before)
      && Spot(ListAt(e.before, e.at), e.at.k, e.at.j) && w.Takes(ListAt(e.before, e.at)[e.at.k].orders[e.at.j])
      && s' == CancelAny(e.before, e.at, reason)
  }

  lemma SweepNone(w: Sweep, reason: CancelReason, s: State)
    ensures Sweeps(w, reason, s, [], s)
  {
  }

  lemma SweepMore(w: Sweep, reason: CancelReason, s: State, trail: seq<Visit>, e: Visit)
    requires Sweeps(w, reason, s, trail, e.before)
    requires Spot(ListAt(e.before, e.at), e.at.k, e.at.j) && w.Takes(ListAt(e.before, e.at)[e.at.k].orders[e.at.j])
    ensures Sweeps(w, reason, s, trail + [e], CancelAny(e.before, e.at, reason))
  {
    assert (trail + [e])[..|trail|] == trail;
  }

  /** What cancelling the next order of a sweep keeps. */
  lemma SweepCancel(lim: Limits, s0: State, s: State, w: Sweep, i: nat, at: Place, reason: CancelReason)
    requires Inv(lim, s, multiset{}) && SweptTo(s0, s, w, i) && Notified(s0, s, reason) && Finds(s, at, i) && i in s.live
    requires w.Takes(ListAt(s, at)[at.k].orders[at.j])
    ensures var s' := CancelAny(s, at, reason);
      && Inv(lim, s', multiset{}) && SweptTo(s0, s', w, i + 1) && Notified(s0, s', reason) && Thins(s, s')
      && s'.live <= s.live && |s'.live| == |s.live| - 1
      && s'.nextId == s.nextId && s'.session == s.session && s'.ledger == s.ledger
      && (MirrorsBook(s) ==> MirrorsBook(s')) && (Uncrossed(s) ==> Uncrossed(s'))
  {
    hide Inv, Held, MirrorsBook, Uncrossed, CancelAny, Notified, SweptTo, Thins, PutQueue, Without;
    var s' := CancelAny(s, at, reason);
    CancelAnyInv(lim, s, at, reason);
    CancelAnyBook(lim, s, at, reason);
    CancelAnyLists(s, at, reason);
    SweepTakes(lim, s0, s, w, i, at, reason);
    CancelAnyNotes(s, at, reason);
    CancelAnyThins(s, at, reason);
    NotifiedMore(s0, s, s', i, reason);
  }

  /** Implied fills: one trade per leg, in order, with the order the leg names. */
  ghost predicate FillsLegs(lim: Limits, legs: seq<Leg>, s: State, trail: seq<Visit>, s': State)
    requires |trail| <= |legs|
  {
    if trail == [] then s' == s
    else
      var n := |trail| - 1;
      var e := trail[n];
      && FillsLegs(lim, legs, s, trail[..n], e.before)
      && !e.at.stops && Finds(e.before, e.at, legs[n].id)
      && s' == TradeStep(lim, e.before, e.at.side, e.at.k, e.at.j, LegTrade(ListAt(e.before, e.at)[e.at.k].orders[e.at.j], legs[n]))
  }

  lemma LegMore(lim: Limits, legs: seq<Leg>, s: State, trail: seq<Visit>, e: Visit)
    requires |trail| < |legs| && FillsLegs(lim, legs, s, trail, e.before) && !e.at.stops && Finds(e.before, e.at, legs[|trail|].id)
    ensures FillsLegs(lim, legs, s, trail + [e],
      TradeStep(lim, e.before, e.at.side, e.at.k, e.at.j, LegTrade(ListAt(e.before, e.at)[e.at.k].orders[e.at.j], legs[|trail|])))
  {
    hide TradeStep;
    assert (trail + [e])[..|trail|] == trail;
  }

  /** Part of a batch of legs has been filled. */
  ghost predicate LegsDone(lim: Limits, legs: seq<Leg>, s0: State, trail: seq<Visit>, s: State) {
    && |trail| <= |legs| && FillsLegs(lim, legs, s0, trail, s)
    && Inv(lim, s, multiset{}) && LegsOk(s, legs[|trail|..]) && RestingLegs(s, legs[|trail|..])
    && s.session == s0.session && s.nextId == s0.nextId && Thins(s0, s)
    && s0.ledger.log <= s.ledger.log && |s.ledger.log| == |s0.ledger.log| + |trail|
    && (forall k :: 0 <= k < |trail| ==> IsLegTrade(legs[k], s.ledger.log[|s0.ledger.log| + k]))
    && (MirrorsBook(s0) ==> MirrorsBook(s)) && (Uncrossed(s0) ==> Uncrossed(s))
  }

  lemma LegsBegin(lim: Limits, legs: seq<Leg>, s: State)
    requires Inv(lim, s, multiset{}) && LegsOk(s, legs) && RestingLegs(s, legs)
    ensures LegsDone(lim, legs, s, [], s)
  {
    hide Inv, MirrorsBook, Uncrossed, LegsOk, RestingLegs, Crowd;
    assert legs[0..] == legs;
  }

  lemma LegReady(lim: Limits, legs: seq<Leg>, s0: State, trail: seq<Visit>, s: State)
    requires LegsDone(lim, legs, s0, trail, s) && |trail| < |legs|
    ensures legs[|trail|].id in s.live && Shape(lim, s, multiset{}) && |s.ledger.trades| <= Capacity(lim.maxTrades)
  {
    hide Inv, FillsLegs, Thins, MirrorsBook, Uncrossed;
    LegLive(lim, s, legs[|trail|..]);
  }

  /** The next leg keeps all of it. */
  lemma LegDone(lim: Limits, legs: seq<Leg>, s0: State, trail: seq<Visit>, e: Visit)
    requires LegsDone(lim, legs, s0, trail, e.before) && |trail| < |legs| && DistinctLegs(legs) && Finds(e.before, e.at, legs[|trail|].id)
    ensures !e.at.stops && CachesOk(e.before.Book(e.at.side)[e.at.k])
    ensures LegsDone(lim, legs, s0, trail + [e],
      TradeStep(lim, e.before, e.at.side, e.at.k, e.at.j, LegTrade(e.before.Book(e.at.side)[e.at.k].orders[e.at.j], legs[|trail|])))
  {
    hide Inv, Shape, FillsLegs, Thins, MirrorsBook, Uncrossed, LegsOk, RestingLegs, TradeStep, CachesOk, LegOk, Held;
    var s, at, n := e.before, e.at, |trail|;
    LegLive(lim, s, legs[n..]);
    LegTarget(lim, s, at, legs[n..]);
    LegsTail(lim, s, at.side, at.k, at.j, legs, n);
    LegStep(lim, s, at.side, at.k, at.j, legs[n]);
    TradeThins(lim, s, at.side, at.k, at.j, LegTrade(s.Book(at.side)[at.k].orders[at.j], legs[n]));
    LegMore(lim, legs, s0, trail, e);
    ThinsTrans(s0, s, TradeStep(lim, s, at.side, at.k, at.j, LegTrade(s.Book(at.side)[at.k].orders[at.j], legs[n])));
  }

  /** A state of the auction's walk: what is left to trade, and where the two pointers are. */
  datatype Walk = Walk(s: State, left: int, bid: Option<nat>, ask: Option<nat>) {
    /** With a pointer off its queue both start again at the best levels. */
    function Bid(): nat { if bid.Some? && ask.Some? then bid.value else 0 }

    function Ask(): nat { if bid.Some? && ask.Some? then ask.value else 0 }
  }

  /** One fill of the walk: as much as the two orders and the volume allow. */
  ghost predicate WalksOn(lim: Limits, p: int, w: Walk, w': Walk) {
    var s, jb, ja := w.s, w.Bid(), w.Ask();
    && w.left > 0 && Spot(s.bids, 0, jb) && Spot(s.asks, 0, ja) && s.bids[0].price >= p >= s.asks[0].price
    && var n := Min(w.left, Min(s.bids[0].orders[jb].remaining, s.asks[0].orders[ja].remaining));
    && w'.s == CrossStep(lim, s, jb, ja, n, p) && w'.left == w.left - n
    && w'.bid == WalkOn(s.bids[0].orders, jb, n) && w'.ask == WalkOn(s.asks[0].orders, ja, n)
  }

  ghost predicate Walks(lim: Limits, p: int, w: Walk, trail: seq<Walk>, w': Walk) {
    if trail == [] then w' == w
    else
      var n := |trail| - 1;
      Walks(lim, p, w, trail[..n], trail[n]) && WalksOn(lim, p, trail[n], w')
  }

  lemma WalkNone(lim: Limits, p: int, w: Walk)
    ensures Walks(lim, p, w, [], w)
  {
  }

  lemma WalkMore(lim: Limits, p: int, w: Walk, trail: seq<Walk>, w1: Walk, w': Walk)
    requires Walks(lim, p, w, trail, w1) && WalksOn(lim, p, w1, w')
    ensures Walks(lim, p, w, trail + [w1], w')
  {
    assert (trail + [w1])[..|trail|] == trail;
  }

  /** The pointers stand on orders that may trade at p, and at the front when nothing is hidden. */
  ghost predicate Pointed(s0: State, s: State, p: int, bid: Option<nat>, ask: Option<nat>) {
    && (bid.Some? ==> Spot(s.bids, 0, bid.value) && s.bids[0].price >= p)
    && (ask.Some? ==> Spot(s.asks, 0, ask.value) && s.asks[0].price <= p)
    && (PlainBoth(s0, p) ==> (bid.Some? ==> bid.value == 0) && (ask.Some? ==> ask.value == 0))
  }

  /** The walk after one more fill. */
  ghost function Onward(lim: Limits, p: int, w: Walk): Walk
    requires Spot(w.s.bids, 0, w.Bid()) && Spot(w.s.asks, 0, w.Ask())
  {
    var s, jb, ja := w.s, w.Bid(), w.Ask();
    var n := Min(w.left, Min(s.bids[0].orders[jb].remaining, s.asks[0].orders[ja].remaining));
    Walk(CrossStep(lim, s, jb, ja, n, p), w.left - n, WalkOn(s.bids[0].orders, jb, n), WalkOn(s.asks[0].orders, ja, n))
  }

  lemma CrossReady(lim: Limits, s0: State, p: int, done: int, w: Walk)
    requires Walked(lim, s0, w.s, p, done) && w.left > 0 && Pointed(s0, w.s, p, Some(w.Bid()), Some(w.Ask()))
    ensures CachesOk(w.s.bids[0]) && CachesOk(w.s.asks[0]) && |w.s.ledger.trades| <= Capacity(lim.maxTrades)
    ensures 0 <= Onward(lim, p, w).left < w.left && WalksOn(lim, p, w, Onward(lim, p, w))
  {
    hide Walked, CachesOk, WalkOn, CrossStep, PlainBoth;
    WalkReady(lim, s0, w.s, p, done, w.Bid(), w.Ask(), 0);
  }

  lemma CrossOn(lim: Limits, s0: State, p: int, done: int, w: Walk)
    requires Inv(lim, s0, multiset{}) && Walked(lim, s0, w.s, p, done) && Enough(w.s, p, w.left) && w.left > 0
    requires Pointed(s0, w.s, p, Some(w.Bid()), Some(w.Ask()))
    ensures var w' := Onward(lim, p, w);
      Walked(lim, s0, w'.s, p, done + w.left - w'.left) && Enough(w'.s, p, w'.left) && Pointed(s0, w'.s, p, w'.bid, w'.ask)
  {
    hide Walked, Enough, CrossStep, WalkOn, PlainBoth, Inv, CachesOk, FillQ, PutQueue;
    var s, jb, ja := w.s, w.Bid(), w.Ask();
    var n := Min(w.left, Min(s.bids[0].orders[jb].remaining, s.asks[0].orders[ja].remaining));
    WalkReady(lim, s0, s, p, done, jb, ja, n);
    WalkedStep(lim, s0, s, p, done, jb, ja, n);
    EnoughStep(lim, s, p, w.left, jb, ja, n);
    CrossBook(lim, s, jb, ja, n, p);
    WalkOnSpot(lim, s, Buy, jb, n);
    WalkOnSpot(lim, s, Sell, ja, n);
    if PlainBoth(s0, p) { WalkFirst(lim, s0, s, p, done, n); }
  }

  /** An auction: the clearing volume walked off both sides at the clearing price. */
  ghost predicate Auctioned(lim: Limits, s: State, reference: int, r: AuctionResult, trail: seq<Walk>, last: Walk, s': State) {
    if r.hasPrice then
      && Clears(s.bids, s.asks, reference, r) && Walks(lim, r.price, Walk(s, r.matched, None, None), trail, last)
      && last.left == 0 && s' == last.s.(viReference := r.price)
    else Uncrossed(s) && s' == s
  }

  // ---------------------------------------------------------------- operations

  /** How an operation went. */
  datatype Note =
    | Told(story: Story) | Taken(at: Place) | ModifiedAt(at: Place, story: Story) | Swept(trail: seq<Visit>)
    | Gave(a: Place, middle: State, b: Place) | LegsFilled(trail: seq<Visit>)
    | Crossed(r: AuctionResult, walk: seq<Walk>, last: Walk) | Nothing

  predicate CancelRefused(s: State, id: nat, throttled: bool) { s.session == Closed || id !in s.live || throttled }

  predicate BustsTrade(s: State, tradeId: nat, approved: bool) {
    s.session != Closed && 0 < tradeId <= |s.ledger.trades| && !s.ledger.trades[tradeId - 1].busted && approved
  }

  /** An operation takes s to s' in the way noted. */
  ghost predicate Effect(r: Rules, s: State, op: Op, note: Note, s': State) {
    match op
    case New(req, throttled) =>
      if Rejection(r, s.session, s.lastTrade, s.nextId, s.freeOrders, s.ledger.positions, req, throttled).Some? then s' == s
      else note.Told? && Routed(r, AcceptedState(s), OrderOf(req, s.nextId), req, note.story, s')
    case Cancel(id, throttled) =>
      if CancelRefused(s, id, throttled) then s' == s
      else note.Taken? && Finds(s, note.at, id) && s' == CancelAny(s, note.at, UserRequested)
    case SweepOrders(w, reason) =>
      note.Swept? && Sweeps(w, reason, s, note.trail, s') && forall o :: Held(s', o) <==> Held(s, o) && !w.Takes(o)
    case Modify(id, price, quantity, ts, throttled) =>
      if ModifyRejection(r, s.session, s.live, id, price, quantity, throttled).Some? then s' == s
      else note.ModifiedAt? && Modified(r, s, id, price, quantity, ts, note.at, note.story, s')
    case Bust(tradeId, approved) =>
      if BustsTrade(s, tradeId, approved) then note.Gave? && Reversed(s, tradeId - 1, note.a, note.middle, note.b, s') else s' == s
    case Fills(legs) =>
      if LegsOk(s, legs) then note.LegsFilled? && |note.trail| == |legs| && FillsLegs(r.lim, legs, s, note.trail, s') else s' == s
    case Uncross(reference) => note.Crossed? && Auctioned(r.lim, s, reference, note.r, note.walk, note.last, s')
    case Enter(to, allowed) => s' == EnterState(s, to, allowed)
    case Unlock => s' == Unlocked(s)
    case Restore(o, now, approved) =>
      if RestoreRejection(r, s.live, s.lastTrade, s.freeOrders, o, now, approved).Some? then s' == s else s' == Restored(s, o)
  }

  /** A step does what it was asked if it is owed it, and nothing if it is not. */
  ghost predicate Does(r: Rules, s: State, op: Op, note: Note, s': State) {
    if Owed(r, s, op) then Effect(r, s, op, note, s') else s' == s
  }

  /** A step of a run: where it started and how it went. */
  datatype Did = Did(before: State, note: Note)

  /** A run does every operation in turn. */
  ghost predicate DoesAll(r: Rules, s: State, ops: seq<Op>, trail: seq<Did>, s': State) {
    if ops == [] then trail == [] && s' == s
    else
      var n := |ops| - 1;
      && |trail| == |ops| && DoesAll(r, s, ops[..n], trail[..n], trail[n].before)
      && Does(r, trail[n].before, ops[n], trail[n].note, s')
  }

  lemma DoesNone(r: Rules, s: State)
    ensures DoesAll(r, s, [], [], s)
  {
  }

  lemma DoesMore(r: Rules, s: State, ops: seq<Op>, op: Op, trail: seq<Did>, e: Did, s': State)
    requires DoesAll(r, s, ops, trail, e.before) && Does(r, e.before, op, e.note, s')
    ensures DoesAll(r, s, ops + [op], trail + [e], s')
  {
    hide Does;
    if ops != [] { assert |trail| == |ops|; }
    assert (ops + [op])[..|ops|] == ops && (trail + [e])[..|trail|] == trail;
  }

  // ---------------------------------------------------------------- what the feed tells

  /** The order feed tells the whole of an operation: not so for a bust that gives quantity back to an
      order, nor for an amendment in place that changes what an order shows. */
  ghost predicate ToldInFull(r: Rules, s: State, op: Op) {
    match op
    case Bust(tradeId, approved) =>
      BustsTrade(s, tradeId, approved) ==>
        var t := s.ledger.trades[tradeId - 1].trade; t.aggressor !in s.live && t.resting !in s.live
    case Modify(id, price, quantity, ts, throttled) =>
      ModifyRejection(r, s.session, s.live, id, price, quantity, throttled).None? ==>
        forall o :: Held(s, o) && o.id == id ==> !AmendsUntold(r, o, price, quantity)
    case _ => true
  }

  lemma AnnouncedInFull(r: Rules, s: State, op: Op)
    requires Announced(r, op)
    ensures ToldInFull(r, s, op)
  {
  }

  lemma UndoneSame(r: Rules, s: State, op: Op, note: Note, s': State)
    requires Does(r, s, op, note, s')
    ensures !Owed(r, s, op) ==> s' == s
  {
  }

  lemma BustAside(s: State, s': State, i: nat)
    requires i < |s.ledger.trades| && BustOf(s, s', i)
    ensures s'.session == s.session && s'.ledger.log == s.ledger.log
  {
    BustParts(s, s', i);
  }

  /** A question about the orders with an identifier is one about the order the index finds. */
  lemma OneHeld(lim: Limits, s: State, at: Place, id: nat)
    requires Inv(lim, s, multiset{}) && Finds(s, at, id)
    ensures forall o :: Held(s, o) && o.id == id <==> o == ListAt(s, at)[at.k].orders[at.j]
  {
    hide Inv, Held;
    HeldAt(lim, s, at, ListAt(s, at)[at.k].orders[at.j]);
    forall o | Held(s, o) && o.id == id ensures o == ListAt(s, at)[at.k].orders[at.j] { HeldAt(lim, s, at, o); }
  }
}
