/**
  Orders brought back from an earlier session (exchange-core/matching_engine.h, restore_order) and
  the end of a price-limit lock (unlock_limit).
 */
module Restores {
  import opened Types
  import opened Queues
  import opened Levels
  import opened Tape
  import opened Ledger
  import opened EngineState
  import opened Steps
  import opened Trading
  import opened Policies
  import opened Crowds
  import opened Progress
  import opened Stops
  import opened Lifecycle
  import opened Room

  /** The first check a serialized order fails, in the engine's order.  `approved` is the verdict of
      the exchange's hook. */
  function RestoreRejection(r: Rules, live: set<nat>, last: int, free: int, o: Order, now: int, approved: bool)
    : Option<RejectReason>
  {
    if o.id == 0 || o.id >= r.lim.maxIds || o.id in live then Some(ExchangeSpecific)
    else if o.remaining <= 0 || (r.lot > 0 && o.quantity % r.lot != 0) then Some(InvalidQuantity)
    else if (o.kind == Limit || o.kind == StopLimit) && (o.price <= 0 || (r.tick > 0 && o.price % r.tick != 0)) then
      Some(InvalidPrice)
    else if (o.kind == Limit || o.kind == StopLimit) && OutsideBands(r.bands(last), o.price) then Some(PriceBandViolation)
    else if (o.tif == GTD && o.gtdExpiry <= now) || !approved then Some(ExchangeSpecific)
    else if free == 0 then Some(PoolExhausted)
    else None
  }

  predicate OutsideBands(bands: (int, int), price: int) {
    (bands.0 > 0 && price < bands.0) || (bands.1 > 0 && price > bands.1)
  }

  /** The order indexed under its old identifier, and new identifiers kept clear of it. */
  function Reindexed(s: State, id: nat): State {
    s.(live := s.live + {id}, freeOrders := s.freeOrders - 1, nextId := if id >= s.nextId then id + 1 else s.nextId)
  }

  function Restored(s: State, o: Order): State { Rest(Reindexed(s, o.id), o) }

  /** What an order must bring for the books to stay right: it is a limit order, its quantities add
      up, and it has been filled by the trades this engine knows it by, no more and no less. */
  predicate Restorable(s: State, o: Order) {
    o.kind == Limit && QtyOk(o) && o.filled == Traded(s.ledger, o.id)
  }

  lemma IndexedShape(lim: Limits, s: State, id: nat)
    requires Shape(lim, s, multiset{}) && s.freeOrders > 0 && id > 0 && id !in s.live
    ensures Shape(lim, Reindexed(s, id), multiset{id})
  {
    hide BookSide, StopSide, Bag;
    assert AllIds(s) + multiset{} == AllIds(s);
    assert multiset(s.live + {id}) == multiset(s.live) + multiset{id};
  }

  lemma IndexedInv(lim: Limits, s: State, id: nat)
    requires Inv(lim, s, multiset{}) && s.freeOrders > 0 && id > 0 && id !in s.live
    ensures Inv(lim, Reindexed(s, id), multiset{id})
  {
    hide Shape, Showing, ReconciledSide, Balanced;
    IndexedShape(lim, s, id);
  }

  /** The restored order is on the book with what it brought. */
  lemma RestoredIsThere(lim: Limits, s: State, o: Order)
    requires Shape(lim, s, multiset{}) && s.freeLevels > 0
    ensures exists lv :: lv in Restored(s, o).Book(o.side) && o in lv.orders
  {
    hide Bag, StopSide;
    var ls := s.Book(o.side);
    SortedBook(lim, s, multiset{}, o.side);
    InsertMembers(o.side, ls, o.price, o);
    var lv := MkLevel(o.price, QueueAt(o.side, ls, o.price) + [o]);
    assert lv in Insert(o.side, ls, o.price, o) && o in lv.orders;
  }

  lemma ThereIsRestorable(lim: Limits, s: State, o: Order)
    requires Inv(lim, s, multiset{}) && exists lv :: lv in s.Book(o.side) && o in lv.orders
    ensures o.kind == Limit && QtyOk(o) && o.filled == Traded(s.ledger, o.id)
  {
    hide Balanced, Showing, Bag, StopSide;
    var lv :| lv in s.Book(o.side) && o in lv.orders;
    assert BookSide(o.side, s.Book(o.side)) && BookLevel(o.side, lv) && RestsAt(o.side, lv.price, o);
  }

  /** Restoring keeps the engine's invariant exactly when the order is restorable, or finds no level
      to rest on and is cancelled. */
  lemma RestoreInv(r: Rules, s: State, o: Order, now: int, approved: bool)
    requires Inv(r.lim, s, multiset{}) && RestoreRejection(r, s.live, s.lastTrade, s.freeOrders, o, now, approved).None?
    ensures Inv(r.lim, Restored(s, o), multiset{}) <==> s.freeLevels == 0 || Restorable(s, o)
    ensures MirrorsBook(s) ==> MirrorsBook(Restored(s, o))
  {
    hide Inv, Shape, Rest, MirrorsBook, QtyOk, Traded;
    InvShape(r.lim, s, multiset{});
    RestorePool(r.lim, s);
    var s1 := Reindexed(s, o.id);
    IndexedInv(r.lim, s, o.id);
    InvShape(r.lim, s1, multiset{o.id});
    if s.freeLevels == 0 {
      NoLevelToRest(s1, o);
      assert multiset{} + multiset{o.id} == multiset{o.id};
      DropInv(r.lim, s1, multiset{}, o.id, LevelPoolExhausted);
    } else {
      RestoredIsThere(r.lim, s, o);
      RestAside(s1, o);
      if Restorable(s, o) { RestInv(r.lim, s1, o); }
      if Inv(r.lim, Restored(s, o), multiset{}) { ThereIsRestorable(r.lim, Restored(s, o), o); }
    }
    if MirrorsBook(s) {
      IndexedMirrors(s, o.id);
      RestMirrors(r.lim, s1, o);
    }
  }

  lemma RestorePool(lim: Limits, s: State)
    requires Shape(lim, s, multiset{})
    ensures s.freeOrders >= 0 && s.freeLevels >= 0
  {
  }

  lemma NoLevelToRest(s: State, o: Order)
    requires s.freeLevels == 0
    ensures Rest(s, o) == DropHand(s, o.id, LevelPoolExhausted)
  {
  }

  lemma IndexedMirrors(s: State, id: nat)
    requires MirrorsBook(s)
    ensures MirrorsBook(Reindexed(s, id))
  {
  }

  lemma RestoredRoomy(policy: Policy, s: State, o: Order)
    requires Roomy(policy, s) && (Bids(o, o.price) ==> Crowd(s, o.side, o.price) < PerPrice(policy))
    ensures Roomy(policy, Restored(s, o))
  {
    hide Rest;
    var s1 := Reindexed(s, o.id);
    forall side, p ensures Crowd(s1, side, p) + (if o.side == side && Bids(o, p) then 1 else 0) <= PerPrice(policy) {
      assert Crowd(s, side, p) <= PerPrice(policy);
    }
    RestRoomy(policy, s1, o);
  }

  // ---------------------------------------------------------------- the lock

  function Unlocked(s: State): State { if s.session == LockLimit then s.(session := Continuous) else s }
}
