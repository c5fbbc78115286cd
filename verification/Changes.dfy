/**
  The elementary changes that every operation of the engine comes down to, as far as lists, slots and
  the order index are concerned: a slot taken, an order filled, settled, rewritten, taken out, dropped,
  booked or shelved.
 */
module Changes {
  import opened Types
  import opened Queues
  import opened Levels
  import opened Ledger
  import opened EngineState
  import opened Steps
  import opened Trading
  import opened Matching
  import opened Progress
  import opened Stops
  import opened Lifecycle
  import opened Cancels
  import opened Silence
  import opened Busts
  import opened Implied
  import opened Crossing
  import opened Restores
  import Room
  import Auction
  import opened Turns
  import opened Runs
  import opened Effects
  import opened Linked
  import opened Slots

  /** An order named by its identifier is the one at the spot given with it. */
  datatype Change =
    | Accept(order: Order) | Take(side: Side, k: nat, j: nat, id: nat, n: int) | Settle(side: Side, k: nat, j: nat, id: nat)
    | Swap(side: Side, k: nat, j: nat, order: Order) | Pull(lane: Lane, k: nat, j: nat, id: nat) | Drop(id: nat)
    | Book(order: Order) | Shelve(order: Order, stopPrice: int)

  ghost predicate Named(ls: seq<Level>, k: nat, j: nat, id: nat) { Spot(ls, k, j) && ls[k].orders[j].id == id }

  /** An indexed order in no list. */
  ghost predicate Unlisted(s: State, id: nat) { id in s.live && AllIds(s)[id] == 0 }

  ghost predicate Can(s: State, c: Change) {
    match c
    case Accept(o) => o.id !in s.live && s.freeOrders > 0
    case Take(side, k, j, id, n) => Named(s.Book(side), k, j, id)
    case Settle(side, k, j, id) => Named(s.Book(side), k, j, id)
    case Swap(side, k, j, o) => Named(s.Book(side), k, j, o.id) && s.Book(side)[k].orders[j].side == o.side
    case Pull(w, k, j, id) => Named(ListOf(s, w), k, j, id)
    case Drop(id) => Unlisted(s, id)
    case Book(o) => Unlisted(s, o.id)
    case Shelve(o, p) => Unlisted(s, o.id) && (o.kind == StopLimit || (o.kind == Stop && o.price == p))
  }

  ghost function Do(s: State, c: Change): State
    requires Can(s, c)
  {
    match c
    case Accept(o) => s.(live := s.live + {o.id}, freeOrders := s.freeOrders - 1)
    case Take(side, k, j, id, n) => TakeAt(s, side, k, j, n, 0)
    case Settle(side, k, j, id) => SettleAt(s, side, k, j)
    case Swap(side, k, j, o) => Swapped(s, side, k, j, o)
    case Pull(w, k, j, id) => Detached(s, w, k, j)
    case Drop(id) => Free(s, id)
    case Book(o) => Rest(s, o)
    case Shelve(o, p) => Park(s, o, p)
  }

  /** The changes, done one after the other from s, end in a state with the lists, counts and index of s'. */
  ghost predicate Traces(s: State, cs: seq<Change>, s': State)
    decreases |cs|
  {
    if cs == [] then Alike(s, s') else Can(s, cs[0]) && Traces(Do(s, cs[0]), cs[1..], s')
  }

  // ---------------------------------------------------------------- putting changes together

  lemma AlikeDo(s: State, t: State, c: Change)
    requires Alike(s, t) && Can(s, c)
    ensures Can(t, c) && Alike(Do(s, c), Do(t, c))
  {
    hide Insert, PutQueue, Without, Bag, QueueAt, Rest, Park, SettleAt;
    match c
    case Settle(side, k, j, id) => AlikeSettle(s, t, side, k, j);
    case Book(o) => AlikeRest(s, t, o);
    case Shelve(o, p) => AlikePark(s, t, o, p);
    case _ =>
  }

  lemma AlikeSettle(s: State, t: State, side: Side, k: nat, j: nat)
    requires Alike(s, t) && Spot(s.Book(side), k, j)
    ensures Alike(SettleAt(s, side, k, j), SettleAt(t, side, k, j))
  {
    hide PutQueue, Without;
  }

  lemma AlikeRest(s: State, t: State, o: Order)
    requires Alike(s, t)
    ensures Alike(Rest(s, o), Rest(t, o))
  {
    hide Insert, QueueAt;
  }

  lemma AlikePark(s: State, t: State, o: Order, p: int)
    requires Alike(s, t)
    ensures Alike(Park(s, o, p), Park(t, o, p))
  {
    hide Insert, QueueAt;
  }

  lemma {:induction false} AlikeTraces(s: State, t: State, cs: seq<Change>, s': State)
    requires Alike(s, t) && Traces(s, cs, s')
    ensures Traces(t, cs, s')
    decreases |cs|
  {
    if cs != [] {
      AlikeDo(s, t, cs[0]);
      AlikeTraces(Do(s, cs[0]), Do(t, cs[0]), cs[1..], s');
    }
  }

  lemma AlikeBack(s: State, t: State)
    requires Alike(s, t)
    ensures Alike(t, s)
  {
  }

  lemma {:induction false} TracesTrans(s: State, a: seq<Change>, t: State, b: seq<Change>, u: State)
    requires Traces(s, a, t) && Traces(t, b, u)
    ensures Traces(s, a + b, u)
    decreases |a|
  {
    hide Can, Do, Alike;
    if a == [] {
      AlikeBack(s, t);
      AlikeTraces(t, s, b, u);
      assert a + b == b;
    } else {
      assert (a + b)[1..] == a[1..] + b;
      TracesTrans(Do(s, a[0]), a[1..], t, b, u);
    }
  }

  /** A trace may end in any state with the same lists, counts and index. */
  lemma {:induction false} TracesOn(s: State, cs: seq<Change>, t: State, u: State)
    requires Traces(s, cs, t) && Alike(t, u)
    ensures Traces(s, cs, u)
    decreases |cs|
  {
    hide Can, Do;
    if cs != [] { TracesOn(Do(s, cs[0]), cs[1..], t, u); }
  }

  lemma TracesAlike(s: State, t: State)
    requires Alike(s, t)
    ensures Traces(s, [], t)
  {
    hide Alike;
  }

  lemma TracesSame(s: State)
    ensures Traces(s, [], s)
  {
  }

  lemma TracesBy(s: State, c: Change, t: State)
    requires Can(s, c) && Alike(Do(s, c), t)
    ensures Traces(s, [c], t)
  {
    hide Can, Do, Alike;
    assert [c][1..] == [];
    assert Traces(Do(s, c), [c][1..], t);
  }

  // ---------------------------------------------------------------- the steps of the engine

  /** A fill of the order at a spot. */
  ghost function TradeChanges(s: State, side: Side, k: nat, j: nat, n: int): seq<Change> {
    if Spot(s.Book(side), k, j) then
      var id := s.Book(side)[k].orders[j].id;
      [Take(side, k, j, id, n), Settle(side, k, j, id)]
    else []
  }

  lemma TakeTraces(s: State, side: Side, k: nat, j: nat, n: int, p: int)
    requires Spot(s.Book(side), k, j)
    ensures var id, t := s.Book(side)[k].orders[j].id, TakeAt(s, side, k, j, n, p);
      Traces(s, [Take(side, k, j, id, n)], t) && Named(t.Book(side), k, j, id)
  {
    hide Traces;
    TracesBy(s, Take(side, k, j, s.Book(side)[k].orders[j].id, n), TakeAt(s, side, k, j, n, p));
  }

  lemma SettleTraces(s: State, side: Side, k: nat, j: nat, id: nat, t: State)
    requires Named(s.Book(side), k, j, id) && Alike(SettleAt(s, side, k, j), t)
    ensures Traces(s, [Settle(side, k, j, id)], t)
  {
    hide SettleAt, Traces;
    TracesBy(s, Settle(side, k, j, id), t);
  }

  lemma TradeTraces(lim: Limits, s: State, side: Side, k: nat, j: nat, t: Trade)
    requires Spot(s.Book(side), k, j)
    ensures Traces(s, TradeChanges(s, side, k, j, t.qty), TradeStep(lim, s, side, k, j, t))
  {
    hide SettleAt, Traces;
    var id, s1 := s.Book(side)[k].orders[j].id, TakeAt(s, side, k, j, t.qty, t.price);
    TakeTraces(s, side, k, j, t.qty, t.price);
    SettleTraces(s1, side, k, j, id, TradeStep(lim, s, side, k, j, t));
    TracesTrans(s, [Take(side, k, j, id, t.qty)], s1, [Settle(side, k, j, id)], TradeStep(lim, s, side, k, j, t));
    assert [Take(side, k, j, id, t.qty)] + [Settle(side, k, j, id)] == TradeChanges(s, side, k, j, t.qty);
  }

  /** A fill between two resting orders at the top of both sides. */
  ghost function CrossChanges(s: State, jb: nat, ja: nat, n: int): seq<Change> {
    if Spot(s.bids, 0, jb) && Spot(s.asks, 0, ja) then
      var b, a := s.bids[0].orders[jb].id, s.asks[0].orders[ja].id;
      [Take(Buy, 0, jb, b, n)] + [Take(Sell, 0, ja, a, n)] + [Settle(Buy, 0, jb, b)] + [Settle(Sell, 0, ja, a)]
    else []
  }

  lemma CrossTraces(lim: Limits, s: State, jb: nat, ja: nat, n: int, p: int)
    requires Spot(s.bids, 0, jb) && Spot(s.asks, 0, ja)
    ensures Traces(s, CrossChanges(s, jb, ja, n), CrossStep(lim, s, jb, ja, n, p))
  {
    hide SettleAt, Traces, Posted;
    var b, a := s.bids[0].orders[jb].id, s.asks[0].orders[ja].id;
    var s1 := TakeAt(s, Buy, 0, jb, n, p);
    var s2, s3 := TakeAt(s1, Sell, 0, ja, n, p), CrossTaken(lim, s, jb, ja, n, p);
    var c1, c2, c3, c4 := [Take(Buy, 0, jb, b, n)], [Take(Sell, 0, ja, a, n)], [Settle(Buy, 0, jb, b)], [Settle(Sell, 0, ja, a)];
    TakeTraces(s, Buy, 0, jb, n, p);
    TakeTraces(s1, Sell, 0, ja, n, p);
    TracesOn(s1, c2, s2, s3);
    var s4 := SettleAt(s3, Buy, 0, jb);
    SettleTraces(s3, Buy, 0, jb, b, s4);
    SettleLocal(s3, s3, Buy, 0, jb);
    SettleTraces(s4, Sell, 0, ja, a, CrossStep(lim, s, jb, ja, n, p));
    TracesTrans(s, c1, s1, c2, s3);
    TracesTrans(s, c1 + c2, s3, c3, s4);
    TracesTrans(s, c1 + c2 + c3, s4, c4, CrossStep(lim, s, jb, ja, n, p));
  }

  /** An order in hand is in no list. */
  lemma HandUnlisted(lim: Limits, s: State, hand: multiset<nat>, id: nat)
    requires Shape(lim, s, hand) && hand[id] > 0
    ensures Unlisted(s, id)
  {
    UniqueIds(lim, s, hand, id);
    assert (AllIds(s) + hand)[id] == multiset(s.live)[id];
  }

  lemma FreeTraces(lim: Limits, s: State, hand: multiset<nat>, id: nat, t: State)
    requires Shape(lim, s, hand) && hand[id] > 0 && Alike(Free(s, id), t)
    ensures Traces(s, [Drop(id)], t)
  {
    hide Traces;
    HandUnlisted(lim, s, hand, id);
    TracesBy(s, Drop(id), t);
  }

  ghost function PullChanges(s: State, w: Lane, k: nat, j: nat): seq<Change> {
    if Spot(ListOf(s, w), k, j) then [Pull(w, k, j, ListOf(s, w)[k].orders[j].id)] else []
  }

  lemma PullTraces(s: State, w: Lane, k: nat, j: nat, t: State)
    requires Spot(ListOf(s, w), k, j) && Alike(Detached(s, w, k, j), t)
    ensures Traces(s, PullChanges(s, w, k, j), t)
  {
    hide Traces;
    TracesBy(s, Pull(w, k, j, ListOf(s, w)[k].orders[j].id), t);
  }

  /** The cancel of the order at a place. */
  ghost function CancelChanges(s: State, at: Place): seq<Change> {
    PullChanges(s, Lane(at.stops, at.side), at.k, at.j) +
    if Spot(ListAt(s, at), at.k, at.j) then [Drop(ListAt(s, at)[at.k].orders[at.j].id)] else []
  }

  lemma CancelTraces(lim: Limits, s: State, hand: multiset<nat>, at: Place, t: State)
    requires Shape(lim, s, hand) && Spot(ListAt(s, at), at.k, at.j)
    requires Alike(Free(Detached(s, Lane(at.stops, at.side), at.k, at.j), ListAt(s, at)[at.k].orders[at.j].id), t)
    ensures Traces(s, CancelChanges(s, at), t)
  {
    hide Shape, Traces;
    var id := ListAt(s, at)[at.k].orders[at.j].id;
    var s1 := if at.stops then Unpark(s, at.side, at.k, at.j) else PullAt(s, at.side, at.k, at.j, 0);
    if at.stops { UnparkShape(lim, s, hand, at.side, at.k, at.j); } else { PullShape(lim, s, hand, at.side, at.k, at.j, 0); }
    PullTraces(s, Lane(at.stops, at.side), at.k, at.j, s1);
    FreeTraces(lim, s1, hand + multiset{id}, id, t);
    TracesTrans(s, PullChanges(s, Lane(at.stops, at.side), at.k, at.j), s1, [Drop(id)], t);
  }

  /** The end of an order in hand. */
  ghost function EndChanges(o: Order, outcome: Outcome): seq<Change> { if outcome == Booked then [Book(o)] else [Drop(o.id)] }

  lemma EndTraces(lim: Limits, s: State, o: Order, outcome: Outcome, t: State)
    requires Shape(lim, s, multiset{o.id}) && Alike(Ended(s, o, outcome), t)
    ensures Traces(s, EndChanges(o, outcome), t)
  {
    hide Shape, Rest, Traces;
    if outcome == Booked {
      HandUnlisted(lim, s, multiset{o.id}, o.id);
      TracesBy(s, Book(o), t);
    } else {
      FreeTraces(lim, s, multiset{o.id}, o.id, t);
    }
  }

  // ---------------------------------------------------------------- working an order

  /** A fill of the aggressor o. */
  ghost function CommitChanges(c: State, o: Order, f: Fill): seq<Change> {
    var ls := c.Book(o.side.Opposite());
    if ls == [] then [] else TradeChanges(c, o.side.Opposite(), 0, FirstAt(ls[0].orders, f.resting), f.quantity)
  }

  lemma CommitTraces(r: Rules, s: State, o: Order, c: State, agg: Order, fs: seq<Fill>)
    requires Turn(r, s, o, c, agg, fs) && fs != []
    ensures Traces(c, CommitChanges(c, o, fs[0]), CommitStep(r.lim, c, o, fs[0]))
  {
    hide Turn, TradeStep, Traces;
    var at := NextResting(r, s, o, c, agg, fs);
    CommitIs(r, s, o, c, agg, fs, at);
    NamedFirst(r, s, o, c, agg, fs, at);
    TradeTraces(r.lim, c, agg.side.Opposite(), 0, at, MatchTrade(c, agg, at, fs[0].quantity));
  }

  lemma NamedFirst(r: Rules, s: State, o: Order, c: State, agg: Order, fs: seq<Fill>, at: nat)
    requires fs != [] && Turn(r, s, o, c, agg, fs) && Holds(c.Book(o.side.Opposite())[0].orders, at, fs[0].resting)
    ensures FirstAt(c.Book(o.side.Opposite())[0].orders, fs[0].resting) == at
  {
    hide InHand;
    FirstAtIs(c.Book(o.side.Opposite())[0].orders, at, fs[0].resting);
  }

  ghost function CommittedChanges(lim: Limits, s: State, o: Order, fs: seq<Fill>): seq<Change> {
    if fs == [] then []
    else
      var n := |fs| - 1;
      CommittedChanges(lim, s, o, fs[..n]) + CommitChanges(Committed(lim, s, o, fs[..n]), o, fs[n])
  }

  lemma {:induction false} CommittedTraces(r: Rules, s: State, o: Order, fs: seq<Fill>, k: nat)
    requires InHand(r.lim, s, o) && Answer(r, s, o, fs) && k <= |fs| && NoSelf(r, s, o, fs, k)
    ensures Traces(s, CommittedChanges(r.lim, s, o, fs[..k]), Committed(r.lim, s, o, fs[..k]))
  {
    hide InHand, Turn, Answer, SelfFill, CommitStep, Traces, CommitChanges;
    if k == 0 {
      TracesSame(s);
      assert fs[..0] == [];
    } else {
      CommittedTraces(r, s, o, fs, k - 1);
      TurnAt(r, s, o, fs, k - 1);
      assert fs[k-1..][0] == fs[k-1];
      var c := Committed(r.lim, s, o, fs[..k-1]);
      CommitTraces(r, s, o, c, o.Filled(TotalFills(fs[..k-1])), fs[k-1..]);
      CommittedSnoc(r.lim, s, o, fs, k - 1);
      assert fs[..k][..k-1] == fs[..k-1];
      TracesTrans(s, CommittedChanges(r.lim, s, o, fs[..k-1]), c, CommitChanges(c, o, fs[k-1]), Committed(r.lim, s, o, fs[..k]));
    }
  }

  /** The cancel of a resting order in place of a fill that would pair o with itself. */
  ghost function SelfMatchChanges(r: Rules, c: State, o: Order, f: Fill): seq<Change> {
    var ls := c.Book(o.side.Opposite());
    if r.smp == CancelNewest || ls == [] then []
    else CancelChanges(c, Place(false, o.side.Opposite(), 0, FirstAt(ls[0].orders, f.resting)))
  }

  ghost function TurnChanges(r: Rules, d: Round): seq<Change>
    requires d.k <= |d.fills|
  {
    CommittedChanges(r.lim, d.before, d.order, d.fills[..d.k]) +
    if d.k == |d.fills| then []
    else SelfMatchChanges(r, Committed(r.lim, d.before, d.order, d.fills[..d.k]), d.order, d.fills[d.k])
  }

  lemma TurnTraces(r: Rules, d: Round, v: State, o: Order)
    requires InHand(r.lim, d.before, d.order) && TurnIs(r, d.before, d.order, d.fills, d.k, v, o)
    ensures Traces(d.before, TurnChanges(r, d), v)
  {
    hide InHand, Turn, Answer, SelfFill, NoSelf, CommitStep, Traces, CancelAt, CommittedChanges, SelfMatchChanges, Committed;
    var fs, k := d.fills, d.k;
    var c, cs := Committed(r.lim, d.before, d.order, fs[..k]), CommittedChanges(r.lim, d.before, d.order, fs[..k]);
    CommittedTraces(r, d.before, d.order, fs, k);
    if k < |fs| {
      SelfMatchTraces(r, d.before, d.order, fs, k, c, v, o);
      TracesTrans(d.before, cs, c, SelfMatchChanges(r, c, d.order, fs[k]), v);
    } else {
      assert cs + [] == cs;
    }
  }

  lemma SelfMatchTraces(r: Rules, s: State, o: Order, fs: seq<Fill>, k: nat, c: State, v: State, o': Order)
    requires InHand(r.lim, s, o) && TurnIs(r, s, o, fs, k, v, o') && k < |fs| && c == Committed(r.lim, s, o, fs[..k])
    ensures Traces(c, SelfMatchChanges(r, c, o, fs[k]), v)
  {
    hide InHand, Turn, Answer, SelfFill, NoSelf, CommitStep, Traces, CancelAt, CancelChanges, Committed;
    if r.smp == CancelNewest {
      TracesSame(c);
    } else {
      TurnAt(r, s, o, fs, k);
      TurnCount(r, s, o, c, o', fs[k..]);
      SelfSpot(r, s, o, c, o', fs[k..]);
      HandShape(r.lim, c, o');
      CancelAtTraces(r.lim, c, multiset{o'.id}, o.side.Opposite(), 0, FirstAt(c.Book(o.side.Opposite())[0].orders, fs[k].resting), fs[k].price);
    }
  }

  lemma HandShape(lim: Limits, s: State, o: Order)
    requires InHand(lim, s, o)
    ensures Shape(lim, s, multiset{o.id})
  {
  }

  lemma CancelAtTraces(lim: Limits, s: State, hand: multiset<nat>, side: Side, k: nat, j: nat, price: int)
    requires Shape(lim, s, hand) && Spot(s.Book(side), k, j)
    ensures Traces(s, CancelChanges(s, Place(false, side, k, j)), CancelAt(s, side, k, j, price, SelfMatchPrevention))
  {
    hide Shape, Traces, PutQueue, Without, CancelChanges;
    CancelTraces(lim, s, hand, Place(false, side, k, j), CancelAt(s, side, k, j, price, SelfMatchPrevention));
  }

  ghost function TurnsChanges(r: Rules, ds: seq<Round>): seq<Change> {
    if ds == [] then []
    else
      var d := ds[|ds| - 1];
      TurnsChanges(r, ds[..|ds| - 1]) + if d.k <= |d.fills| then TurnChanges(r, d) else []
  }

  lemma {:induction false} TurnsTraces(r: Rules, s0: State, o0: Order, ds: seq<Round>, v: State, o: Order, alive: bool)
    requires InHand(r.lim, s0, o0) && TurnsTo(r, s0, o0, ds, v, o, alive)
    ensures InHand(r.lim, v, o) && Traces(s0, TurnsChanges(r, ds), v)
    decreases |ds|
  {
    hide InHand, Advanced, Traces, TurnIs, TurnChanges, Halts;
    if ds == [] {
      TracesSame(s0);
    } else {
      var d, ds1 := ds[|ds| - 1], ds[..|ds| - 1];
      TurnsTraces(r, s0, o0, ds1, d.before, d.order, true);
      TurnKeeps(r, d.before, d.order, d.fills, d.k, v, o);
      TurnUpTo(r, d.before, d.order, d.fills, d.k, v, o);
      TurnTraces(r, d, v, o);
      TracesTrans(s0, TurnsChanges(r, ds1), d.before, TurnChanges(r, d), v);
    }
  }

  ghost function WorkChanges(r: Rules, w: Work): seq<Change> { TurnsChanges(r, w.turns) + EndChanges(w.o, w.outcome) }

  /** An order worked: the invariant holds afterwards, and what it was worked by reads off its turns and its end. */
  lemma WorkTraces(r: Rules, s0: State, o0: Order, w: Work, s1: State)
    requires InHand(r.lim, s0, o0) && WorkedBy(r, s0, o0, w, s1)
    ensures Inv(r.lim, s1, multiset{}) && Traces(s0, WorkChanges(r, w), s1)
  {
    hide Inv, InHand, Advanced, Traces, TurnsTo, Ends, SessionSince, Ended, Shape, TurnsChanges, EndChanges;
    TurnsTraces(r, s0, o0, w.turns, w.v, w.o, w.outcome != Dropped(SelfMatchPrevention));
    WorkInv(r, s0, o0, w, s1);
    var v := w.v.(session := SessionSince(r, s0, w.turns, w.v));
    HandShape(r.lim, w.v, w.o);
    SessionShape(r.lim, w.v, multiset{w.o.id}, v.session);
    TracesOn(s0, TurnsChanges(r, w.turns), w.v, v);
    EndTraces(r.lim, v, w.o, w.outcome, s1);
    TracesTrans(s0, TurnsChanges(r, w.turns), v, EndChanges(w.o, w.outcome), s1);
  }

  lemma SessionShape(lim: Limits, s: State, hand: multiset<nat>, x: SessionState)
    requires Shape(lim, s, hand)
    ensures Shape(lim, s.(session := x), hand)
  {
  }

  ghost function EventChanges(r: Rules, e: Event): seq<Change> {
    PullChanges(e.before, Lane(true, e.side), 0, 0) + WorkChanges(r, e.work)
  }

  ghost function CascadeChanges(r: Rules, trail: seq<Event>): seq<Change> {
    if trail == [] then [] else CascadeChanges(r, trail[..|trail| - 1]) + EventChanges(r, trail[|trail| - 1])
  }

  lemma EventTraces(r: Rules, e: Event)
    requires Inv(r.lim, e.before, multiset{}) && Fires(r, e)
    ensures Inv(r.lim, e.after, multiset{}) && Traces(e.before, EventChanges(r, e), e.after)
  {
    hide Inv, InHand, Traces, WorkedBy, Unpark, Convert, PullChanges, WorkChanges;
    HeadStop(r.lim, e.before, e.side);
    var s1 := Unpark(e.before, e.side, 0, 0);
    UnparkTraces(e.before, e.side, 0, 0);
    WorkTraces(r, s1, Convert(e.before.Stops(e.side)[0].orders[0]), e.work, e.after);
    TracesTrans(e.before, PullChanges(e.before, Lane(true, e.side), 0, 0), s1, WorkChanges(r, e.work), e.after);
  }

  lemma {:induction false} CascadeTraces(r: Rules, s: State, trail: seq<Event>, s': State)
    requires Inv(r.lim, s, multiset{}) && Cascade(r, s, trail, s')
    ensures Inv(r.lim, s', multiset{}) && Traces(s, CascadeChanges(r, trail), s')
    decreases |trail|
  {
    hide Inv, Traces, Fires, EventChanges;
    if trail == [] {
      TracesSame(s);
    } else {
      var e, rest := trail[|trail| - 1], trail[..|trail| - 1];
      CascadeTraces(r, s, rest, e.before);
      EventTraces(r, e);
      TracesTrans(s, CascadeChanges(r, rest), e.before, EventChanges(r, e), s');
    }
  }

  lemma UnparkTraces(s: State, side: Side, k: nat, j: nat)
    requires Spot(s.Stops(side), k, j)
    ensures Traces(s, PullChanges(s, Lane(true, side), k, j), Unpark(s, side, k, j))
  {
    hide PutQueue, Without, Traces, PullChanges;
    PullTraces(s, Lane(true, side), k, j, Unpark(s, side, k, j));
  }

  ghost function StoryChanges(r: Rules, y: Story): seq<Change> { WorkChanges(r, y.work) + CascadeChanges(r, y.trail) }

  lemma PlayedTraces(r: Rules, s: State, o: Order, y: Story, s': State)
    requires InHand(r.lim, s, o) && Played(r, s, o, y, s')
    ensures Traces(s, StoryChanges(r, y), s')
  {
    hide Inv, InHand, Traces, WorkedBy, Cascade, WorkChanges, CascadeChanges;
    WorkTraces(r, s, o, y.work, y.middle);
    CascadeTraces(r, y.middle, y.trail, s');
    TracesTrans(s, WorkChanges(r, y.work), y.middle, CascadeChanges(r, y.trail), s');
  }

  // ---------------------------------------------------------------- operations

  /** A new order accepted: its slot, then wherever it goes. */
  ghost function NewChanges(r: Rules, s: State, req: Request, y: Story): seq<Change> {
    var o := OrderOf(req, s.nextId);
    [Accept(o)] +
    if req.IsStop() then [Shelve(o, req.stopPrice)]
    else if Collecting(s.session) then EndChanges(o, if o.kind == Limit then Booked else Dropped(IOCRemainder))
    else StoryChanges(r, y)
  }

  lemma RoutedTraces(r: Rules, s: State, req: Request, throttled: bool, y: Story, s': State)
    requires Inv(r.lim, s, multiset{})
    requires Rejection(r, s.session, s.lastTrade, s.nextId, s.freeOrders, s.ledger.positions, req, throttled).None?
    requires Routed(r, AcceptedState(s), OrderOf(req, s.nextId), req, y, s')
    ensures Traces(s, NewChanges(r, s, req, y), s')
  {
    hide Inv, InHand, Traces, Routed, Shape, EndChanges, StoryChanges, Rejection;
    var s1, o := AcceptedState(s), OrderOf(req, s.nextId);
    AcceptTraces(r, s, req, throttled);
    RouteTraces(r, s1, o, req, y, s');
    TracesTrans(s, [Accept(o)], s1, NewChanges(r, s, req, y)[1..], s');
  }

  lemma RouteTraces(r: Rules, s: State, o: Order, req: Request, y: Story, s': State)
    requires Inv(r.lim, s, multiset{o.id}) && o == OrderOf(req, o.id) && Routed(r, s, o, req, y, s')
    requires !req.IsStop() ==> InHand(r.lim, s, o)
    ensures Traces(s,
      if req.IsStop() then [Shelve(o, req.stopPrice)]
      else if Collecting(s.session) then EndChanges(o, if o.kind == Limit then Booked else Dropped(IOCRemainder))
      else StoryChanges(r, y), s')
  {
    hide Inv, InHand, Traces, Played, Park, Rest, Ended, Shape, EndChanges, StoryChanges;
    InvShape(r.lim, s, multiset{o.id});
    if req.IsStop() {
      ShelveTraces(r.lim, s, o, req.stopPrice);
    } else if Collecting(s.session) {
      EndTraces(r.lim, s, o, if o.kind == Limit then Booked else Dropped(IOCRemainder), s');
    } else {
      PlayedTraces(r, s, o, y, s');
    }
  }

  lemma ShelveTraces(lim: Limits, s: State, o: Order, p: int)
    requires Shape(lim, s, multiset{o.id}) && (o.kind == StopLimit || (o.kind == Stop && o.price == p))
    ensures Traces(s, [Shelve(o, p)], Park(s, o, p))
  {
    hide Traces, Park, Shape;
    HandUnlisted(lim, s, multiset{o.id}, o.id);
    TracesBy(s, Shelve(o, p), Park(s, o, p));
  }

  lemma AcceptTraces(r: Rules, s: State, req: Request, throttled: bool)
    requires Inv(r.lim, s, multiset{})
    requires Rejection(r, s.session, s.lastTrade, s.nextId, s.freeOrders, s.ledger.positions, req, throttled).None?
    ensures var s1, o := AcceptedState(s), OrderOf(req, s.nextId);
      Traces(s, [Accept(o)], s1) && Inv(r.lim, s1, multiset{o.id}) && (!req.IsStop() ==> InHand(r.lim, s1, o))
  {
    hide Inv, InHand, Traces;
    NotThrottled(r, s, req, throttled);
    AcceptInv(r, s, req);
    InvShape(r.lim, s, multiset{});
    TracesBy(s, Accept(OrderOf(req, s.nextId)), AcceptedState(s));
  }

  lemma CancelAnyTraces(lim: Limits, s: State, at: Place, reason: CancelReason)
    requires Inv(lim, s, multiset{}) && Spot(ListAt(s, at), at.k, at.j)
    ensures Traces(s, CancelChanges(s, at), CancelAny(s, at, reason))
  {
    hide Inv, Shape, Traces, CancelAny, CancelChanges;
    InvShape(lim, s, multiset{});
    CancelIs(s, at, reason);
    CancelTraces(lim, s, multiset{}, at, CancelAny(s, at, reason));
  }

  ghost function SweepChanges(trail: seq<Visit>): seq<Change> {
    if trail == [] then []
    else
      var e := trail[|trail| - 1];
      SweepChanges(trail[..|trail| - 1]) + CancelChanges(e.before, e.at)
  }

  lemma {:induction false} SweepTraces(lim: Limits, w: Sweep, reason: CancelReason, s: State, trail: seq<Visit>, s': State)
    requires Inv(lim, s, multiset{}) && Sweeps(w, reason, s, trail, s')
    ensures Inv(lim, s', multiset{}) && Traces(s, SweepChanges(trail), s')
    decreases |trail|
  {
    hide Inv, Traces, CancelAny, CancelChanges;
    if trail == [] {
      TracesSame(s);
    } else {
      var e, rest := trail[|trail| - 1], trail[..|trail| - 1];
      SweepTraces(lim, w, reason, s, rest, e.before);
      CancelAnyInv(lim, e.before, e.at, reason);
      CancelAnyTraces(lim, e.before, e.at, reason);
      TracesTrans(s, SweepChanges(rest), e.before, CancelChanges(e.before, e.at), s');
    }
  }

  lemma SwapTraces(s: State, side: Side, k: nat, j: nat, o: Order)
    requires Spot(s.Book(side), k, j) && o.id == s.Book(side)[k].orders[j].id && o.side == s.Book(side)[k].orders[j].side
    ensures Traces(s, [Swap(side, k, j, o)], Swapped(s, side, k, j, o))
  {
    hide Traces;
    TracesBy(s, Swap(side, k, j, o), Swapped(s, side, k, j, o));
  }

  /** An amendment in place, or the order taken out and worked again. */
  ghost function ModifyChanges(r: Rules, s: State, price: int, quantity: int, at: Place, y: Story): seq<Change> {
    if !Spot(s.Book(at.side), at.k, at.j) then []
    else
      var o := s.Book(at.side)[at.k].orders[at.j];
      if AmendsInPlace(r, o, price, quantity) then [Swap(at.side, at.k, at.j, o.(quantity := quantity, remaining := quantity - o.filled))]
      else PullChanges(s, Lane(false, at.side), at.k, at.j) + StoryChanges(r, y)
  }

  lemma ModifiedTraces(r: Rules, s: State, id: nat, price: int, quantity: int, ts: int, at: Place, y: Story, s': State)
    requires Inv(r.lim, s, multiset{}) && Modifiable(s, id, quantity) && Modified(r, s, id, price, quantity, ts, at, y, s')
    ensures Traces(s, ModifyChanges(r, s, price, quantity, at, y), s')
  {
    hide Inv, InHand, Traces, Played, PutQueue, Without, Modifiable, PullChanges, StoryChanges;
    var o := s.Book(at.side)[at.k].orders[at.j];
    if AmendsInPlace(r, o, price, quantity) {
      SwapTraces(s, at.side, at.k, at.j, o.(quantity := quantity, remaining := quantity - o.filled));
    } else {
      var s1 := PullAt(s, at.side, at.k, at.j, o.price);
      PullTraces(s, Lane(false, at.side), at.k, at.j, s1);
      ModifyTarget(r.lim, s, at, id, quantity);
      ReplaceInHand(r.lim, s, at.side, at.k, at.j, price, quantity, ts);
      PlayedTraces(r, s1, Replaced(o, price, quantity, ts), y, s');
      TracesTrans(s, PullChanges(s, Lane(false, at.side), at.k, at.j), s1, StoryChanges(r, y), s');
    }
  }

  /** Quantity given back to an order that still rests. */
  ghost function GiveBackChanges(s: State, id: nat, q: int, at: Place): seq<Change> {
    if id in s.live && Spot(s.Book(at.side), at.k, at.j) then
      [Swap(at.side, at.k, at.j, s.Book(at.side)[at.k].orders[at.j].Filled(-q))]
    else []
  }

  lemma GaveBackTraces(s: State, id: nat, q: int, at: Place, s': State)
    requires GaveBack(s, id, q, at, s')
    ensures Traces(s, GiveBackChanges(s, id, q, at), s')
  {
    hide Traces;
    if id in s.live {
      SwapTraces(s, at.side, at.k, at.j, s.Book(at.side)[at.k].orders[at.j].Filled(-q));
    } else {
      TracesSame(s);
    }
  }

  ghost function BustChanges(s: State, i: nat, a: Place, s1: State, b: Place): seq<Change>
    requires i < |s.ledger.trades|
  {
    var t := s.ledger.trades[i].trade;
    GiveBackChanges(s, t.aggressor, t.qty, a) + GiveBackChanges(s1, t.resting, t.qty, b)
  }

  lemma ReversedTraces(s: State, i: nat, a: Place, s1: State, b: Place, s': State)
    requires i < |s.ledger.trades| && Reversed(s, i, a, s1, b, s')
    ensures Traces(s, BustChanges(s, i, a, s1, b), s')
  {
    hide Traces, GaveBack, BustedLedger, GiveBackChanges;
    var t, s2 := s.ledger.trades[i].trade, s'.(ledger := s.ledger);
    GaveBackTraces(s, t.aggressor, t.qty, a, s1);
    GaveBackTraces(s1, t.resting, t.qty, b, s2);
    TracesOn(s1, GiveBackChanges(s1, t.resting, t.qty, b), s2, s');
    TracesTrans(s, GiveBackChanges(s, t.aggressor, t.qty, a), s1, GiveBackChanges(s1, t.resting, t.qty, b), s');
  }

  ghost function LegsChanges(legs: seq<Leg>, trail: seq<Visit>): seq<Change>
    requires |trail| <= |legs|
  {
    if trail == [] then []
    else
      var n := |trail| - 1;
      var e := trail[n];
      LegsChanges(legs, trail[..n]) + TradeChanges(e.before, e.at.side, e.at.k, e.at.j, legs[n].qty)
  }

  lemma {:induction false} LegsTraces(lim: Limits, legs: seq<Leg>, s: State, trail: seq<Visit>, s': State)
    requires |trail| <= |legs| && FillsLegs(lim, legs, s, trail, s')
    ensures Traces(s, LegsChanges(legs, trail), s')
    decreases |trail|
  {
    hide Traces, TradeStep, TradeChanges;
    if trail == [] {
      TracesSame(s);
    } else {
      var n := |trail| - 1;
      var e := trail[n];
      LegsTraces(lim, legs, s, trail[..n], e.before);
      TradeTraces(lim, e.before, e.at.side, e.at.k, e.at.j, LegTrade(ListAt(e.before, e.at)[e.at.k].orders[e.at.j], legs[n]));
      TracesTrans(s, LegsChanges(legs, trail[..n]), e.before, TradeChanges(e.before, e.at.side, e.at.k, e.at.j, legs[n].qty), s');
    }
  }

  /** One fill of the auction's walk. */
  ghost function WalkOnChanges(w: Walk): seq<Change> {
    var s, jb, ja := w.s, w.Bid(), w.Ask();
    if Spot(s.bids, 0, jb) && Spot(s.asks, 0, ja) then
      CrossChanges(s, jb, ja, Min(w.left, Min(s.bids[0].orders[jb].remaining, s.asks[0].orders[ja].remaining)))
    else []
  }

  ghost function WalkChanges(trail: seq<Walk>): seq<Change> {
    if trail == [] then [] else WalkChanges(trail[..|trail| - 1]) + WalkOnChanges(trail[|trail| - 1])
  }

  lemma {:induction false} WalkTraces(lim: Limits, p: int, w: Walk, trail: seq<Walk>, w': Walk)
    requires Walks(lim, p, w, trail, w')
    ensures Traces(w.s, WalkChanges(trail), w'.s)
    decreases |trail|
  {
    hide Traces, CrossStep, WalkOnChanges;
    if trail == [] {
      TracesSame(w.s);
    } else {
      var n := |trail| - 1;
      WalkTraces(lim, p, w, trail[..n], trail[n]);
      WalkOnTraces(lim, p, trail[n], w');
      TracesTrans(w.s, WalkChanges(trail[..n]), trail[n].s, WalkOnChanges(trail[n]), w'.s);
    }
  }

  lemma WalkOnTraces(lim: Limits, p: int, w: Walk, w': Walk)
    requires WalksOn(lim, p, w, w')
    ensures Traces(w.s, WalkOnChanges(w), w'.s)
  {
    hide Traces, CrossStep, WalkOn, CrossChanges;
    var s, jb, ja := w.s, w.Bid(), w.Ask();
    CrossTraces(lim, s, jb, ja, Min(w.left, Min(s.bids[0].orders[jb].remaining, s.asks[0].orders[ja].remaining)), p);
  }

  lemma RestoredTraces(r: Rules, s: State, o: Order, now: int, approved: bool)
    requires Inv(r.lim, s, multiset{}) && RestoreRejection(r, s.live, s.lastTrade, s.freeOrders, o, now, approved).None?
    ensures Traces(s, [Accept(o), Book(o)], Restored(s, o))
  {
    hide Inv, Traces, Rest;
    var s1 := Reindexed(s, o.id);
    InvShape(r.lim, s, multiset{});
    RestorePool(r.lim, s);
    TracesBy(s, Accept(o), s1);
    IndexedShape(r.lim, s, o.id);
    HandUnlisted(r.lim, s1, multiset{o.id}, o.id);
    TracesBy(s1, Book(o), Restored(s, o));
    TracesTrans(s, [Accept(o)], s1, [Book(o)], Restored(s, o));
    assert [Accept(o)] + [Book(o)] == [Accept(o), Book(o)];
  }

  /** The changes an operation came down to, read off the note of how it went. */
  ghost function OpChanges(r: Rules, s: State, op: Op, note: Note): seq<Change> {
    if !Owed(r, s, op) then []
    else match op
      case New(req, throttled) =>
        if Rejection(r, s.session, s.lastTrade, s.nextId, s.freeOrders, s.ledger.positions, req, throttled).None? && note.Told? then
          NewChanges(r, s, req, note.story)
        else []
      case Cancel(id, throttled) => if !CancelRefused(s, id, throttled) && note.Taken? then CancelChanges(s, note.at) else []
      case SweepOrders(w, reason) => if note.Swept? then SweepChanges(note.trail) else []
      case Modify(id, price, quantity, ts, throttled) =>
        if ModifyRejection(r, s.session, s.live, id, price, quantity, throttled).None? && note.ModifiedAt? then
          ModifyChanges(r, s, price, quantity, note.at, note.story)
        else []
      case Bust(tradeId, approved) =>
        if BustsTrade(s, tradeId, approved) && note.Gave? then BustChanges(s, tradeId - 1, note.a, note.middle, note.b) else []
      case Fills(legs) =>
        if LegsOk(s, legs) && note.LegsFilled? && |note.trail| <= |legs| then LegsChanges(legs, note.trail) else []
      case Uncross(reference) => if note.Crossed? && note.r.hasPrice then WalkChanges(note.walk) else []
      case Restore(o, now, approved) =>
        if RestoreRejection(r, s.live, s.lastTrade, s.freeOrders, o, now, approved).None? then [Accept(o), Book(o)] else []
      case _ => []
  }

  /** Every operation comes down to the changes its note tells of. */
  lemma OpTraces(r: Rules, s: State, op: Op, note: Note, s': State)
    requires Inv(r.lim, s, multiset{}) && Does(r, s, op, note, s')
    ensures Traces(s, OpChanges(r, s, op, note), s')
  {
    hide Inv, Traces, Routed, Modified, Reversed, FillsLegs, Walks, Sweeps, Rejection, ModifyRejection, RestoreRejection, Restored,
         LegsOk, Cancels.Held, Bustable, CancelAny, RestingLegs, Modifiable, RoomToReplace, Restorable, Room.RoomFor, Auction.Clears,
         NewChanges, CancelChanges, SweepChanges, ModifyChanges, BustChanges, LegsChanges, WalkChanges;
    TracesSame(s);
    if !Owed(r, s, op) { return; }
    match op
    case New(req, throttled) =>
      if Rejection(r, s.session, s.lastTrade, s.nextId, s.freeOrders, s.ledger.positions, req, throttled).None? {
        RoutedTraces(r, s, req, throttled, note.story, s');
      }
    case Cancel(id, throttled) =>
      if !CancelRefused(s, id, throttled) { CancelAnyTraces(r.lim, s, note.at, UserRequested); }
    case SweepOrders(w, reason) => SweepTraces(r.lim, w, reason, s, note.trail, s');
    case Modify(id, price, quantity, ts, throttled) =>
      if ModifyRejection(r, s.session, s.live, id, price, quantity, throttled).None? {
        ModifiedTraces(r, s, id, price, quantity, ts, note.at, note.story, s');
      }
    case Bust(tradeId, approved) =>
      if BustsTrade(s, tradeId, approved) { ReversedTraces(s, tradeId - 1, note.a, note.middle, note.b, s'); }
    case Fills(legs) =>
      if LegsOk(s, legs) { LegsTraces(r.lim, legs, s, note.trail, s'); }
    case Uncross(reference) =>
      if note.r.hasPrice {
        WalkTraces(r.lim, note.r.price, Walk(s, note.r.matched, None, None), note.walk, note.last);
        TracesOn(s, WalkChanges(note.walk), note.last.s, s');
      }
    case Enter(to, allowed) => TracesAlike(s, s');
    case Unlock => TracesAlike(s, s');
    case Restore(o, now, approved) =>
      if RestoreRejection(r, s.live, s.lastTrade, s.freeOrders, o, now, approved).None? { RestoredTraces(r, s, o, now, approved); }
  }

  /** The changes of a run: those of its operations, one after the other. */
  ghost function RunChanges(r: Rules, ops: seq<Op>, trail: seq<Did>): seq<Change>
    requires |trail| == |ops|
  {
    if ops == [] then []
    else
      var n := |ops| - 1;
      RunChanges(r, ops[..n], trail[..n]) + OpChanges(r, trail[n].before, ops[n], trail[n].note)
  }

  lemma RunNone(r: Rules)
    ensures RunChanges(r, [], []) == []
  {
  }

  lemma RunMore(r: Rules, s: State, ops: seq<Op>, op: Op, trail: seq<Did>, e: Did, s': State)
    requires |trail| == |ops| && Traces(s, RunChanges(r, ops, trail), e.before)
    requires Inv(r.lim, e.before, multiset{}) && Does(r, e.before, op, e.note, s')
    ensures Traces(s, RunChanges(r, ops + [op], trail + [e]), s')
  {
    hide Inv, Traces, Does, OpChanges;
    OpTraces(r, e.before, op, e.note, s');
    TracesTrans(s, RunChanges(r, ops, trail), e.before, OpChanges(r, e.before, op, e.note), s');
    assert (ops + [op])[..|ops|] == ops && (trail + [e])[..|trail|] == trail;
  }
}
