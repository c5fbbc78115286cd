/**
  The engine's state as a value, the invariants every operation keeps, and the elementary
  changes the operations of MatchingEngine (exchange-core/matching_engine.h) are made of.
 */
module EngineState {
  import opened Types
  import opened Queues
  import opened Levels
  import opened Tape
  import opened Ledger

  /** Compile-time capacities (template parameters of MatchingEngine). */
  datatype Limits = Limits(maxOrders: nat, maxLevels: nat, maxIds: nat, maxAccounts: nat, maxTrades: nat)

  /** Bids, asks, the two stop lists, the identifiers with a non-null index entry, the free
      slots of the two pools, the ledger and the L3 feed and cancel notices sent so far. */
  datatype State = State(
    bids: seq<Level>, asks: seq<Level>, buyStops: seq<Level>, sellStops: seq<Level>,
    live: set<nat>, nextId: nat, freeOrders: int, freeLevels: int,
    lastTrade: int, session: SessionState, viReference: int,
    ledger: Ledger, feed: seq<BookAction>, cancels: seq<(nat, CancelReason)>)
  {
    function Book(side: Side): seq<Level> { if side.Buy? then bids else asks }

    function WithBook(side: Side, ls: seq<Level>): State {
      if side.Buy? then this.(bids := ls) else this.(asks := ls)
    }

    function Stops(side: Side): seq<Level> { if side.Buy? then buyStops else sellStops }

    function WithStops(side: Side, ls: seq<Level>): State {
      if side.Buy? then this.(buyStops := ls) else this.(sellStops := ls)
    }

    function LevelCount(): nat { |bids| + |asks| + |buyStops| + |sellStops| }
  }

  // ---------------------------------------------------------------- invariants

  /** Quantities add up: all of a plain order is filled or showing; of an iceberg, what is neither
      filled nor showing is hidden, and an iceberg raised above its total hides nothing. */
  predicate QtyOk(o: Order) {
    && o.filled >= 0 && o.remaining >= 0
    && (o.display <= 0 ==> o.filled + o.remaining == o.quantity)
    && (o.display > 0 ==> if o.quantity > o.total then o.filled + o.remaining == o.quantity else o.filled + o.remaining <= o.total)
  }

  ghost predicate RestsAt(side: Side, price: int, o: Order) {
    o.side == side && o.price == price && o.kind == Limit && QtyOk(o)
  }

  ghost predicate WaitsAt(side: Side, price: int, o: Order) {
    && o.side == side && (o.kind == Stop || o.kind == StopLimit) && (o.kind == Stop ==> o.price == price)
    && QtyOk(o) && o.remaining > 0 && o.filled == 0
  }

  ghost predicate BookLevel(side: Side, lv: Level) {
    forall o :: o in lv.orders ==> RestsAt(side, lv.price, o)
  }

  ghost predicate StopLevel(side: Side, lv: Level) {
    forall o :: o in lv.orders ==> WaitsAt(side, lv.price, o)
  }

  ghost predicate BookSide(side: Side, ls: seq<Level>) {
    WellFormed(side, ls) && forall lv :: lv in ls ==> BookLevel(side, lv)
  }

  /** Buy stops are listed in ascending, sell stops in descending order. */
  ghost predicate StopSide(side: Side, ls: seq<Level>) {
    WellFormed(side.Opposite(), ls) && forall lv :: lv in ls ==> StopLevel(side, lv)
  }

  ghost function AllIds(s: State): multiset<nat> {
    Bag(s.bids) + Bag(s.asks) + Bag(s.buyStops) + Bag(s.sellStops)
  }

  /** Every indexed order is in exactly one list or in hand (an aggressor being matched); the indexed orders
      and the free order slots, and the linked levels and the free level slots, make up the two capacities. */
  ghost predicate Shape(lim: Limits, s: State, hand: multiset<nat>) {
    && BookSide(Buy, s.bids) && BookSide(Sell, s.asks)
    && StopSide(Buy, s.buyStops) && StopSide(Sell, s.sellStops)
    && AllIds(s) + hand == multiset(s.live)
    && |s.live| + s.freeOrders == lim.maxOrders && s.freeOrders >= 0
    && s.LevelCount() + s.freeLevels == lim.maxLevels && s.freeLevels >= 0
    && s.nextId >= 1 && (forall id :: id in s.live ==> 0 < id < s.nextId)
  }

  /** No order rests with nothing showing. */
  ghost predicate Showing(ls: seq<Level>) {
    forall lv :: lv in ls ==> AllPositive(lv.orders)
  }

  /** Every order has been filled by exactly its standing trades. */
  ghost predicate ReconciledSide(ls: seq<Level>, l: Ledger) {
    forall lv, o :: lv in ls && o in lv.orders ==> o.filled == Traded(l, o.id)
  }

  ghost predicate Reconciled(s: State) {
    && ReconciledSide(s.bids, s.ledger) && ReconciledSide(s.asks, s.ledger)
    && ReconciledSide(s.buyStops, s.ledger) && ReconciledSide(s.sellStops, s.ledger)
  }

  /** No bid reaches an ask. */
  ghost predicate Uncrossed(s: State) {
    forall b, a :: b in s.bids && a in s.asks ==> b.price < a.price
  }

  ghost predicate MirrorsBook(s: State) { Mirrors(s.feed, s.bids, s.asks) }

  // ---------------------------------------------------------------- elementary changes

  /** A position in a side. */
  ghost predicate Spot(ls: seq<Level>, k: nat, j: nat) { k < |ls| && j < |ls[k].orders| }

  /** Return an order's slot and clear its index entry. */
  function Free(s: State, id: nat): State {
    s.(live := s.live - {id}, freeOrders := s.freeOrders + 1)
  }

  /** Fill n of the order at (k, j) in place and announce it. */
  function TakeAt(s: State, side: Side, k: nat, j: nat, n: int, fillPrice: int): State
    requires k < |s.Book(side)| && j < |s.Book(side)[k].orders|
  {
    var ls := s.Book(side);
    var o := ls[k].orders[j];
    s.WithBook(side, PutQueue(ls, k, ls[k].orders[j := o.Filled(n)]))
     .(feed := s.feed + [BookAction(o.id, side, fillPrice, n, Action.Fill)])
  }

  /** Deal with an exhausted tranche: show the next one at the back of the queue, or unlink
      the order and give its slot (and an emptied level's) back. */
  function SettleAt(s: State, side: Side, k: nat, j: nat): State
    requires k < |s.Book(side)| && j < |s.Book(side)[k].orders|
  {
    var ls := s.Book(side);
    var o := ls[k].orders[j];
    if o.remaining != 0 then s
    else if o.HasHidden() then
      s.WithBook(side, PutQueue(ls, k, Without(ls[k].orders, j) + [o.(remaining := o.NextTranche())]))
       .(feed := s.feed + [BookAction(o.id, side, o.price, o.NextTranche(), Action.Add)])
    else
      Free(s, o.id)
        .(freeLevels := s.freeLevels + if |ls[k].orders| == 1 then 1 else 0)
        .WithBook(side, PutQueue(ls, k, Without(ls[k].orders, j)))
  }

  /** Take a resting order off the book, announced as a cancel. */
  function PullAt(s: State, side: Side, k: nat, j: nat, price: int): State
    requires k < |s.Book(side)| && j < |s.Book(side)[k].orders|
  {
    var ls := s.Book(side);
    var o := ls[k].orders[j];
    s.WithBook(side, PutQueue(ls, k, Without(ls[k].orders, j)))
     .(freeLevels := s.freeLevels + if |ls[k].orders| == 1 then 1 else 0,
       feed := s.feed + [BookAction(o.id, side, price, o.remaining, Action.Cancel)])
  }

  /** Cancel an order that is in no list. */
  function DropHand(s: State, id: nat, reason: CancelReason): State {
    Free(s, id).(cancels := s.cancels + [(id, reason)])
  }

  /** Rest an order in the book, or cancel it when no spare level is to be had. */
  function Rest(s: State, o: Order): State {
    if s.freeLevels == 0 then DropHand(s, o.id, LevelPoolExhausted)
    else
      s.WithBook(o.side, Insert(o.side, s.Book(o.side), o.price, o))
       .(freeLevels := s.freeLevels - if QueueAt(o.side, s.Book(o.side), o.price) == [] then 1 else 0,
         feed := s.feed + [BookAction(o.id, o.side, o.price, o.remaining, Action.Add)])
  }
}
