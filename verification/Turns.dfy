/**
  What working an order consists of, from the policy's fills on one level up to an operation with
  the stop cascade it sets off (exchange-core/matching_engine.h, match_order and
  check_and_trigger_stops).
 */
module Turns {
  import opened Types
  import opened Queues
  import opened Levels
  import opened Ledger
  import opened EngineState
  import opened Trading
  import opened Matching
  import opened Policies
  import opened Progress
  import opened Stops
  import opened Lifecycle
  import opened Cancels

  // ---------------------------------------------------------------- one turn

  /** Position of an order in a queue, or the length. */
  function FirstAt(q: seq<Order>, id: nat): (n: nat)
    ensures n <= |q| && (forall i :: 0 <= i < n ==> q[i].id != id) && (n < |q| ==> q[n].id == id)
  {
    if q == [] || q[0].id == id then 0 else 1 + FirstAt(q[1..], id)
  }

  /** One fill of the aggressor o becomes a trade with the order it names on the best level. */
  ghost function CommitStep(lim: Limits, s: State, o: Order, f: Fill): State {
    var ls := s.Book(o.side.Opposite());
    if ls != [] && FirstAt(ls[0].orders, f.resting) < |ls[0].orders| then
      MatchStep(lim, s, o, FirstAt(ls[0].orders, f.resting), f.quantity)
    else s
  }

  /** All of them, in order. */
  ghost function Committed(lim: Limits, s: State, o: Order, fs: seq<Fill>): State {
    if fs == [] then s else CommitStep(lim, Committed(lim, s, o, fs[..|fs| - 1]), o, fs[|fs| - 1])
  }

  lemma CommittedSnoc(lim: Limits, s: State, o: Order, fs: seq<Fill>, i: nat)
    requires i < |fs|
    ensures Committed(lim, s, o, fs[..i+1]) == CommitStep(lim, Committed(lim, s, o, fs[..i]), o, fs[i])
  {
    assert fs[..i+1][..i] == fs[..i];
  }

  lemma FilledSnoc(o: Order, fs: seq<Fill>, i: nat)
    requires i < |fs|
    ensures o.Filled(TotalFills(fs[..i+1])) == o.Filled(TotalFills(fs[..i])).Filled(fs[i].quantity)
  {
    assert fs[..i+1] == fs[..i] + [fs[i]];
    TotalFillsConcat(fs[..i], [fs[i]]);
    assert [fs[i]][1..] == [];
  }

  /** The fill f would pair o with itself. */
  ghost predicate SelfFill(r: Rules, c: State, o: Order, f: Fill) {
    var ls := c.Book(o.side.Opposite());
    && ls != [] && FirstAt(ls[0].orders, f.resting) < |ls[0].orders|
    && r.selfMatch(o.account, ls[0].orders[FirstAt(ls[0].orders, f.resting)].account)
  }

  /** The cancels the exchange prescribes instead of a fill that would pair o with itself. */
  ghost predicate SelfMatched(r: Rules, c: State, o: Order, f: Fill, v: State) {
    var opp := o.side.Opposite();
    && SelfFill(r, c, o, f)
    && v == if r.smp == CancelNewest then c
            else CancelAt(c, opp, 0, FirstAt(c.Book(opp)[0].orders, f.resting), f.price, SelfMatchPrevention)
  }

  /** None of the first k fills pairs o with itself. */
  ghost predicate NoSelf(r: Rules, s: State, o: Order, fs: seq<Fill>, k: nat)
    requires k <= |fs|
  {
    forall i :: 0 <= i < k ==> !SelfFill(r, Committed(r.lim, s, o, fs[..i]), o, fs[i])
  }

  /** The policy's answer for the best level, which the order reaches. */
  ghost predicate Answer(r: Rules, s: State, o: Order, fs: seq<Fill>) {
    var ls := s.Book(o.side.Opposite());
    && o.remaining > 0 && ls != [] && Within(o.side.Opposite(), ls[0].price, BoundOf(o))
    && Plans(r.policy, ls[0], o.remaining, fs)
  }

  /** One turn: the policy's fills for the best level, all committed, or the first k of them and
      then a self-match. */
  ghost predicate TurnIs(r: Rules, s: State, o: Order, fs: seq<Fill>, k: nat, v: State, o': Order) {
    && Answer(r, s, o, fs) && k <= |fs| && NoSelf(r, s, o, fs, k) && o' == o.Filled(TotalFills(fs[..k]))
    && var c := Committed(r.lim, s, o, fs[..k]);
    if k == |fs| then v == c else SelfMatched(r, c, o, fs[k], v)
  }

  lemma TurnDone(r: Rules, s: State, o: Order, fs: seq<Fill>, k: nat, v: State, o': Order)
    requires Answer(r, s, o, fs) && k == |fs| && NoSelf(r, s, o, fs, k) && v == Committed(r.lim, s, o, fs[..k]) && o' == o.Filled(TotalFills(fs[..k]))
    ensures TurnIs(r, s, o, fs, k, v, o')
  {
  }

  lemma TurnStopped(r: Rules, s: State, o: Order, fs: seq<Fill>, k: nat, c: State, v: State, o': Order)
    requires Answer(r, s, o, fs) && k < |fs| && NoSelf(r, s, o, fs, k) && c == Committed(r.lim, s, o, fs[..k]) && o' == o.Filled(TotalFills(fs[..k]))
    requires SelfMatched(r, c, o, fs[k], v)
    ensures TurnIs(r, s, o, fs, k, v, o')
  {
  }

  lemma Answers(r: Rules, s: State, o: Order, fs: seq<Fill>)
    requires o.remaining > 0 && s.Book(o.side.Opposite()) != []
    requires Within(o.side.Opposite(), s.Book(o.side.Opposite())[0].price, BoundOf(o))
    requires Plans(r.policy, s.Book(o.side.Opposite())[0], o.remaining, fs)
    ensures Answer(r, s, o, fs) && Committed(r.lim, s, o, fs[..0]) == s && o.Filled(TotalFills(fs[..0])) == o
  {
  }

  lemma FirstAtIs(q: seq<Order>, at: nat, id: nat)
    requires NoDup(q) && Holds(q, at, id)
    ensures FirstAt(q, id) == at
  {
  }

  lemma CommitIs(r: Rules, s0: State, o0: Order, v: State, agg: Order, fs: seq<Fill>, at: nat)
    requires fs != [] && Turn(r, s0, o0, v, agg, fs) && Holds(v.Book(o0.side.Opposite())[0].orders, at, fs[0].resting)
    ensures agg.side == o0.side && CommitStep(r.lim, v, o0, fs[0]) == MatchStep(r.lim, v, agg, at, fs[0].quantity)
  {
    hide InHand, MatchStep;
    FirstAtIs(v.Book(o0.side.Opposite())[0].orders, at, fs[0].resting);
    SameMatchStep(r.lim, v, o0, agg, at, fs[0].quantity);
  }

  lemma StrangerIs(r: Rules, s0: State, o0: Order, v: State, agg: Order, fs: seq<Fill>, at: nat)
    requires fs != [] && Turn(r, s0, o0, v, agg, fs) && Holds(v.Book(o0.side.Opposite())[0].orders, at, fs[0].resting)
    ensures SelfFill(r, v, o0, fs[0]) <==> r.selfMatch(agg.account, v.Book(o0.side.Opposite())[0].orders[at].account)
  {
    hide InHand;
    FirstAtIs(v.Book(o0.side.Opposite())[0].orders, at, fs[0].resting);
  }

  lemma NoSelfMore(r: Rules, s: State, o: Order, fs: seq<Fill>, k: nat)
    requires k < |fs| && NoSelf(r, s, o, fs, k) && !SelfFill(r, Committed(r.lim, s, o, fs[..k]), o, fs[k])
    ensures NoSelf(r, s, o, fs, k + 1)
  {
  }

  lemma SelfMatchIs(r: Rules, s0: State, o0: Order, v0: State, agg: Order, fs: seq<Fill>, at: nat, v: State)
    requires fs != [] && Turn(r, s0, o0, v0, agg, fs) && Holds(v0.Book(o0.side.Opposite())[0].orders, at, fs[0].resting)
    requires r.selfMatch(agg.account, v0.Book(o0.side.Opposite())[0].orders[at].account)
    requires v == if r.smp == CancelNewest then v0 else CancelAt(v0, o0.side.Opposite(), 0, at, fs[0].price, SelfMatchPrevention)
    ensures SelfMatched(r, v0, o0, fs[0], v)
  {
    hide InHand, CancelAt;
    FirstAtIs(v0.Book(o0.side.Opposite())[0].orders, at, fs[0].resting);
  }

  /** A turn half way through: the first i fills are committed and the others pending. */
  lemma {:induction false} TurnAt(r: Rules, s: State, o: Order, fs: seq<Fill>, i: nat)
    requires InHand(r.lim, s, o) && Answer(r, s, o, fs) && i <= |fs| && NoSelf(r, s, o, fs, i)
    ensures Turn(r, s, o, Committed(r.lim, s, o, fs[..i]), o.Filled(TotalFills(fs[..i])), fs[i..])
  {
    hide InHand, Turn, Answer, SelfFill, CommitStep;
    if i == 0 {
      TurnOpens(r, s, o, fs);
      assert fs[0..] == fs && fs[..0] == [];
    } else {
      TurnAt(r, s, o, fs, i - 1);
      CommittedSnoc(r.lim, s, o, fs, i - 1);
      FilledSnoc(o, fs, i - 1);
      var c, agg := Committed(r.lim, s, o, fs[..i-1]), o.Filled(TotalFills(fs[..i-1]));
      assert fs[i-1..][1..] == fs[i..] && fs[i-1..][0] == fs[i-1];
      assert !SelfFill(r, c, o, fs[i-1]);
      TurnCommits(r, s, o, c, agg, fs[i-1..]);
    }
  }

  lemma TurnOpens(r: Rules, s: State, o: Order, fs: seq<Fill>)
    requires InHand(r.lim, s, o) && Answer(r, s, o, fs)
    ensures Turn(r, s, o, s, o, fs)
  {
    hide InHand, Turn;
    var lv := s.Book(o.side.Opposite())[0];
    FirstTurn(r, s, o, fs, Wound(lv.orders, fs), o.remaining - TotalFills(fs));
  }

  lemma TurnCommits(r: Rules, s: State, o: Order, c: State, agg: Order, fs: seq<Fill>)
    requires Turn(r, s, o, c, agg, fs) && fs != [] && !SelfFill(r, c, o, fs[0])
    ensures Turn(r, s, o, CommitStep(r.lim, c, o, fs[0]), agg.Filled(fs[0].quantity), fs[1..])
  {
    hide InHand, Turn, SelfFill, CommitStep;
    var at := NextResting(r, s, o, c, agg, fs);
    StrangerIs(r, s, o, c, agg, fs, at);
    CommitIs(r, s, o, c, agg, fs, at);
    TurnStep(r, s, o, c, agg, fs, at);
  }

  /** A turn keeps the invariants of an order in hand. */
  lemma TurnKeeps(r: Rules, s: State, o: Order, fs: seq<Fill>, k: nat, v: State, o': Order)
    requires InHand(r.lim, s, o) && TurnIs(r, s, o, fs, k, v, o')
    ensures InHand(r.lim, v, o') && Advanced(r, s, o, v, o')
  {
    hide InHand, Advanced, Turn, Answer, SelfFill, CommitStep, NoSelf;
    var c := Committed(r.lim, s, o, fs[..k]);
    TurnAt(r, s, o, fs, k);
    TurnCount(r, s, o, c, o', fs[k..]);
    if k < |fs| && r.smp != CancelNewest {
      SelfSpot(r, s, o, c, o', fs[k..]);
      SelfMatchOutcome(r, s, o, c, o', FirstAt(c.Book(o.side.Opposite())[0].orders, fs[k].resting), fs[k].price);
    }
  }

  lemma SelfSpot(r: Rules, s: State, o: Order, c: State, agg: Order, fs: seq<Fill>)
    requires Turn(r, s, o, c, agg, fs) && fs != [] && SelfFill(r, c, o, fs[0])
    ensures var j := FirstAt(c.Book(o.side.Opposite())[0].orders, fs[0].resting);
      Spot(c.Book(o.side.Opposite()), 0, j) && r.selfMatch(agg.account, c.Book(o.side.Opposite())[0].orders[j].account)
  {
    hide InHand;
  }

  lemma TurnUpTo(r: Rules, s: State, o: Order, fs: seq<Fill>, k: nat, v: State, o': Order)
    requires TurnIs(r, s, o, fs, k, v, o')
    ensures k <= |fs|
  {
  }

  // ---------------------------------------------------------------- turn after turn

  /** A turn on record: where it began, the policy's fills, and how many of them were committed. */
  datatype Round = Round(before: State, order: Order, fills: seq<Fill>, k: nat)

  /** One turn; the aggressor survives it unless a self-match takes it. */
  ghost predicate Turned(r: Rules, d: Round, v: State, o: Order, alive: bool) {
    TurnIs(r, d.before, d.order, d.fills, d.k, v, o) && (alive <==> d.k == |d.fills| || r.smp == CancelOldest)
  }

  /** The last trade stops the market: it is locked already or at a daily limit, or a matching session is
      beyond the exchange's volatility threshold from the reference. */
  ghost predicate Halts(r: Rules, s: State, last: int) {
    || s.session == LockLimit || AtDailyLimit(r, last)
    || (s.session == Continuous && s.viReference != 0 && r.volatile(last, s.viReference))
  }

  /** The session after a turn that leaves the last trade price at `last`. */
  ghost function SessionAfter(r: Rules, s: State, last: int): SessionState {
    if s.session == LockLimit || AtDailyLimit(r, last) then LockLimit
    else if Halts(r, s, last) then VolatilityAuction
    else s.session
  }

  lemma GoesOn(r: Rules, s: State, last: int)
    ensures !Halts(r, s, last) ==> SessionAfter(r, s, last) == s.session
  {
  }

  /** Turns, one after the other, the aggressor surviving and the market going on after all but perhaps
      the last. */
  ghost predicate TurnsTo(r: Rules, s0: State, o0: Order, ds: seq<Round>, v: State, o: Order, alive: bool) {
    if ds == [] then v == s0 && o == o0 && alive
    else
      var d := ds[|ds| - 1];
      && TurnsTo(r, s0, o0, ds[..|ds| - 1], d.before, d.order, true) && Turned(r, d, v, o, alive)
      && (|ds| > 1 ==> !Halts(r, s0, d.before.lastTrade))
  }

  lemma NoTurns(r: Rules, s: State, o: Order)
    ensures TurnsTo(r, s, o, [], s, o, true)
  {
  }

  lemma OneMoreTurn(r: Rules, s0: State, o0: Order, ds: seq<Round>, d: Round, v: State, o: Order, alive: bool)
    requires TurnsTo(r, s0, o0, ds, d.before, d.order, true) && Turned(r, d, v, o, alive)
    requires ds != [] ==> !Halts(r, s0, d.before.lastTrade)
    ensures TurnsTo(r, s0, o0, ds + [d], v, o, alive)
  {
    hide Turned, Halts;
    assert (ds + [d])[..|ds|] == ds;
  }

  // ---------------------------------------------------------------- how it ends

  /** The market was halted by a turn. */
  ghost predicate Halted(r: Rules, s0: State, ds: seq<Round>, v: State) { ds != [] && Halts(r, s0, v.lastTrade) }

  /** The session in which turns leave the engine. */
  ghost function SessionSince(r: Rules, s0: State, ds: seq<Round>, v: State): SessionState {
    if ds == [] then s0.session else SessionAfter(r, s0, v.lastTrade)
  }

  /** With price limits and volatility interruption off nothing halts the market. */
  lemma NeverHalted(r: Rules, s: State, ds: seq<Round>, v: State)
    requires Calm(r, s)
    ensures !Halted(r, s, ds, v) && SessionSince(r, s, ds, v) == s.session
  {
  }

  /** The pre-check finds too little on the other side. */
  ghost predicate FallsShort(s: State, o: Order) {
    Reach(o.side.Opposite(), s.Book(o.side.Opposite()), BoundOf(o)) < o.remaining
  }

  /** Matching ends for one of three reasons: a fill-or-kill order that cannot be filled is not
      matched at all; a self-match takes the aggressor; or there is nothing left to do, unless the
      market was halted, and the order meets its fate. */
  ghost predicate Ends(r: Rules, s0: State, o0: Order, w: Work) {
    if o0.tif == FOK && FallsShort(s0, o0) then w == Work([], s0, o0, Dropped(FOKFailed))
    else
      || (w.outcome == Dropped(SelfMatchPrevention) && r.smp != CancelOldest && !Strangers(r, o0, s0.Book(o0.side.Opposite())))
      || (w.outcome == Fate(w.o) && (w.o.remaining == 0 || OutOfReach(w.v, w.o) || Halted(r, s0, w.turns, w.v)))
  }

  datatype Work = Work(turns: seq<Round>, v: State, o: Order, outcome: Outcome)

  /** An order in hand worked from s0 to s1. */
  ghost predicate WorkedBy(r: Rules, s0: State, o0: Order, w: Work, s1: State) {
    && TurnsTo(r, s0, o0, w.turns, w.v, w.o, w.outcome != Dropped(SelfMatchPrevention))
    && Ends(r, s0, o0, w)
    && s1 == Ended(w.v.(session := SessionSince(r, s0, w.turns, w.v)), w.o, w.outcome)
  }

  lemma {:induction false} TurnsAdvance(r: Rules, s0: State, o0: Order, ds: seq<Round>, v: State, o: Order, alive: bool)
    requires InHand(r.lim, s0, o0) && TurnsTo(r, s0, o0, ds, v, o, alive)
    ensures InHand(r.lim, v, o) && Advanced(r, s0, o0, v, o)
    decreases |ds|
  {
    hide InHand, Advanced, TurnIs, Halts;
    if ds == [] {
      StartLoop(r, s0, o0);
    } else {
      var d := ds[|ds| - 1];
      TurnsAdvance(r, s0, o0, ds[..|ds| - 1], d.before, d.order, true);
      TurnKeeps(r, d.before, d.order, d.fills, d.k, v, o);
      AdvancedTrans(r, s0, o0, d.before, d.order, v, o);
    }
  }

  /** Working an order keeps the invariant. */
  lemma WorkInv(r: Rules, s0: State, o0: Order, w: Work, s1: State)
    requires InHand(r.lim, s0, o0) && WorkedBy(r, s0, o0, w, s1)
    ensures Inv(r.lim, s1, multiset{}) && InHand(r.lim, w.v, w.o) && Advanced(r, s0, o0, w.v, w.o)
  {
    hide Inv, InHand, Advanced, TurnsTo, Ended, Reach, OutOfReach, Strangers, Halted, SessionSince, MirrorsBook;
    TurnsAdvance(r, s0, o0, w.turns, w.v, w.o, w.outcome != Dropped(SelfMatchPrevention));
    HandSorted(r.lim, w.v, w.o);
    EndedKeeps(r, s0, o0, w.v, w.o, w.outcome, SessionSince(r, s0, w.turns, w.v));
  }

  // ---------------------------------------------------------------- the cascade

  /** A stop of one side is taken out, converted and worked. */
  datatype Event = Event(before: State, side: Side, work: Work, after: State)

  /** The head of a stop list fires, the buy stops before the sell stops. */
  ghost predicate Fires(r: Rules, e: Event) {
    && e.before.lastTrade > 0 && Spot(e.before.Stops(e.side), 0, 0)
    && Triggers(e.side, e.before.Stops(e.side)[0].price, e.before.lastTrade)
    && (e.side == Sell ==> e.before.buyStops == [] || e.before.lastTrade < e.before.buyStops[0].price)
    && WorkedBy(r, Unpark(e.before, e.side, 0, 0), Convert(e.before.Stops(e.side)[0].orders[0]), e.work, e.after)
  }

  /** From s to s' by nothing but stops that fire. */
  ghost predicate Cascade(r: Rules, s: State, trail: seq<Event>, s': State) {
    if trail == [] then s' == s
    else
      var e := trail[|trail| - 1];
      Cascade(r, s, trail[..|trail| - 1], e.before) && Fires(r, e) && s' == e.after
  }

  lemma NoStops(r: Rules, s: State)
    ensures Cascade(r, s, [], s)
  {
  }

  lemma OneMoreStop(r: Rules, s: State, trail: seq<Event>, e: Event)
    requires Cascade(r, s, trail, e.before) && Fires(r, e)
    ensures Cascade(r, s, trail + [e], e.after)
  {
    hide Fires;
    assert (trail + [e])[..|trail|] == trail;
  }

  /** An order worked and then the cascade it set off. */
  datatype Story = Story(work: Work, middle: State, trail: seq<Event>)

  /** The cascade goes on until no stop triggers. */
  ghost predicate Played(r: Rules, s: State, o: Order, y: Story, s': State) {
    WorkedBy(r, s, o, y.work, y.middle) && Cascade(r, y.middle, y.trail, s') && (s'.lastTrade > 0 ==> NoneTriggered(s'))
  }

  // ---------------------------------------------------------------- operations

  /** Where an accepted order goes. */
  ghost predicate Routed(r: Rules, s: State, o: Order, req: Request, y: Story, s': State) {
    if req.IsStop() then s' == Park(s, o, req.stopPrice)
    else if Collecting(s.session) then s' == Ended(s, o, if o.kind == Limit then Booked else Dropped(IOCRemainder))
    else Played(r, s, o, y, s')
  }

  predicate AmendsInPlace(r: Rules, o: Order, price: int, quantity: int) {
    r.amend == AmendDown && price == o.price && o.filled < quantity < o.quantity
  }

  /** An amendment in place that changes what the order shows. */
  predicate AmendsUntold(r: Rules, o: Order, price: int, quantity: int) {
    AmendsInPlace(r, o, price, quantity) && quantity - o.filled != o.remaining
  }

  /** What a modification does to the order it names. */
  ghost predicate Modified(r: Rules, s: State, id: nat, price: int, quantity: int, ts: int, at: Place, y: Story, s': State) {
    && !at.stops && Spot(s.Book(at.side), at.k, at.j)
    && var o := s.Book(at.side)[at.k].orders[at.j];
    && o.id == id
    && if AmendsInPlace(r, o, price, quantity) then s' == AmendAt(s, at.side, at.k, at.j, quantity)
       else Played(r, PullAt(s, at.side, at.k, at.j, o.price), Replaced(o, price, quantity, ts), y, s')
  }
}
