/**
  The two object pools and the order index behind the books (exchange-core/matching_engine.h,
  exchange-core/object_pool.h).  Every elementary change of the engine's state is carried out here on
  slots and links, and is shown to have the effect its function on State says: a slot is in use exactly
  while an indexed order or a linked level occupies it, so none is lost and none is freed twice.
 */
module Slots {
  import opened Types
  import opened Queues
  import opened Levels
  import opened EngineState
  import opened Steps
  import opened Progress
  import opened Cancels
  import opened Stops
  import opened Pool
  import opened Chain
  import opened Linked
  import opened Books

  // ---------------------------------------------------------------- what the slots stand for

  /** The index and the pools agree: the order slots in use are the indexed orders, some of them in a
      queue and the rest in hand. */
  ghost predicate Indexes(m: Memory, live: set<nat>, index: map<nat, nat>) {
    && Seated(m) <= live
    && (forall p :: p in live ==> p < |m.orders| && m.orders[p].order.id in index && index[m.orders[p].order.id] == p)
    && (forall id :: id in index ==> index[id] in live && index[id] < |m.orders| && m.orders[index[id]].order.id == id)
  }

  /** The four lists, the free counts and the index of a state. */
  ghost predicate Stands(s: State, m: Memory, freeOrders: int, freeLevels: int, ids: set<nat>) {
    && WellLinked(m) && (forall w: Lane :: View(m, w) == ListOf(s, w))
    && s.freeOrders == freeOrders && s.freeLevels == freeLevels && s.live == ids
  }

  ghost function ListOf(s: State, w: Lane): seq<Level> { if w.stop then s.Stops(w.side) else s.Book(w.side) }

  ghost function WithList(s: State, w: Lane, ls: seq<Level>): State {
    if w.stop then s.WithStops(w.side, ls) else s.WithBook(w.side, ls)
  }

  /** A change of one list of the storage is a change of one list of the state. */
  lemma StandsAfter(s: State, m0: Memory, m: Memory, w: Lane, ls: seq<Level>, a: int, b: int, ids: set<nat>, s': State)
    requires (forall v: Lane :: WellLinked(m0) && View(m0, v) == ListOf(s, v)) && Changes(m0, m, w, ls)
    requires forall v: Lane :: ListOf(s', v) == ListOf(WithList(s, w, ls), v)
    requires s'.freeOrders == a && s'.freeLevels == b && s'.live == ids
    ensures Stands(s', m, a, b, ids)
  {
    hide WellLinked;
    forall v: Lane ensures View(m, v) == ListOf(s', v) { Lists(s, w, ls, v); }
  }

  lemma Lists(s: State, w: Lane, ls: seq<Level>, v: Lane)
    ensures ListOf(WithList(s, w, ls), v) == if v == w then ls else ListOf(s, v)
  {
  }

  lemma InUseCount(pool: ObjectPool)
    requires pool.Valid()
    ensures |pool.Live()| + |pool.free| == pool.words.Length
  {
    LiveCount(pool.free, pool.words.Length);
    assert pool.Live() == Others(pool.free, pool.words.Length);
  }

  /** A state whose lists and pools are the same looks the same. */
  lemma StandsSame(s: State, m0: Memory, m: Memory, s': State, a: int, b: int, ids: set<nat>)
    requires (forall w: Lane :: WellLinked(m0) && View(m0, w) == ListOf(s, w)) && WellLinked(m) && (forall w :: View(m, w) == View(m0, w))
    requires (forall w: Lane :: ListOf(s', w) == ListOf(s, w)) && s'.freeOrders == a && s'.freeLevels == b && s'.live == ids
    ensures Stands(s', m, a, b, ids)
  {
    hide WellLinked;
  }

  lemma SoundSame(m0: Memory, m: Memory)
    requires Sound(m0) && WellLinked(m) && (forall w :: View(m, w) == View(m0, w))
    ensures Sound(m)
  {
    hide WellLinked, WellFormed;
    assert forall v: Lane :: WellFormed(v.Dir(), View(m0, v));
  }

  lemma FreeIsLoose(m: Memory, live: set<nat>, index: map<nat, nat>, p: nat)
    requires Indexes(m, live, index) && p !in live && p < |m.orders|
    ensures Loose(m, p)
  {
    assert p !in Seated(m);
  }

  lemma Accepted(s: State, m0: Memory, m: Memory, live: set<nat>, index: map<nat, nat>, p: nat, o: Order, a: int, b: int)
    requires Sound(m0) && Indexes(m0, live, index) && Stands(s, m0, a, b, index.Keys)
    requires p !in live && p < |m0.orders| && o.id !in index && m == m0.(orders := m0.orders[p := OrderSlot(o, NIL)])
    ensures Sound(m) && Loose(m, p) && Indexes(m, live + {p}, index[o.id := p])
    ensures Stands(s.(live := s.live + {o.id}, freeOrders := s.freeOrders - 1), m, a - 1, b, index[o.id := p].Keys)
  {
    hide WellLinked, WellFormed;
    FreeIsLoose(m0, live, index, p);
    LooseWrite(m0, m, p);
    SoundSame(m0, m);
    StandsSame(s, m0, m, s.(live := s.live + {o.id}, freeOrders := s.freeOrders - 1), a - 1, b, index[o.id := p].Keys);
  }

  class Slots {
    const books: Books
    const orderPool: ObjectPool
    const levelPool: ObjectPool
    var index: map<nat, nat>

    ghost function Repr(): set<object> {
      {this, books, books.orderLinks, books.levelLinks, orderPool, orderPool.words, levelPool, levelPool.words}
    }

    ghost predicate Apart() { orderPool != levelPool && orderPool.words != levelPool.words }

    /** `spares` are level slots allocated and not linked. */
    ghost predicate Consistent(spares: set<nat>)
      reads Repr()
    {
      && Apart() && books.Valid() && orderPool.Valid() && levelPool.Valid()
      && |books.orders| == orderPool.words.Length && |books.levels| == levelPool.words.Length
      && levelPool.Live() == books.held.Keys + spares && books.held.Keys !! spares
      && Indexes(books.Mem(), orderPool.Live(), index)
    }

    /** No level slot is in use but those linked. */
    ghost predicate Valid()
      reads Repr()
    {
      Consistent({})
    }

    ghost predicate Shows(s: State)
      reads Repr()
    {
      Stands(s, books.Mem(), |orderPool.free|, |levelPool.free|, index.Keys)
    }

    /** An order in use and in no queue. */
    ghost predicate InHand(p: nat)
      reads Repr()
    {
      p in orderPool.Live() && p < |books.orders| && Loose(books.Mem(), p)
    }

    lemma FreeCounts(s: State)
      requires Shows(s)
      ensures s.freeOrders == |orderPool.free| && s.freeLevels == |levelPool.free| && s.live == index.Keys
    {
    }

    lemma AllInUse()
      requires Valid()
      ensures orderPool.inUse == orderPool.words.Length <==> |orderPool.free| == 0
      ensures levelPool.inUse == levelPool.words.Length <==> |levelPool.free| == 0
    {
    }

    /** The counters of a state are what the pools have left: every slot is free, or holds an indexed
        order or a listed level. */
    lemma NothingLost(s: State)
      requires Valid() && Shows(s)
      ensures |s.live| + s.freeOrders == orderPool.words.Length && s.LevelCount() + s.freeLevels == levelPool.words.Length
    {
      hide Sound, Indexes, WellLinked;
      var m := books.Mem();
      InUseCount(orderPool);
      InUseCount(levelPool);
      IndexCount(m, orderPool.Live(), index);
      assert levelPool.Live() == m.held.Keys;
      HeldCount(m);
    }

    constructor (maxOrders: nat, maxLevels: nat, blank: Order)
      requires maxOrders > 0 && maxLevels > 0
      ensures Valid() && index == map[] && |orderPool.free| == maxOrders && |levelPool.free| == maxLevels
      ensures (forall w :: View(books.Mem(), w) == []) && fresh(Repr())
    {
      books := new Books(maxOrders, maxLevels, blank);
      orderPool := new ObjectPool(maxOrders);
      levelPool := new ObjectPool(maxLevels);
      index := map[];
    }

    /** Take a slot for an order and index it; none exactly when the pool is exhausted. */
    method Accept(o: Order, ghost s: State) returns (p: Option<nat>)
      requires Valid() && Shows(s) && o.id !in index
      modifies Repr()
      ensures Valid() && (p.None? <==> s.freeOrders == 0)
      ensures p.None? ==> Shows(s)
      ensures p.Some? ==> InHand(p.value) && books.orders[p.value].order == o
      ensures p.Some? ==> Shows(s.(live := s.live + {o.id}, freeOrders := s.freeOrders - 1))
    {
      hide Sound, Indexes, Stands, Loose;
      ghost var m, live, a := books.Mem(), orderPool.Live(), |orderPool.free|;
      AllInUse();
      FreeCounts(s);
      p := orderPool.Allocate();
      if p.Some? {
        Accepted(s, m, m.(orders := m.orders[p.value := OrderSlot(o, NIL)]), live, index, p.value, o, a, |levelPool.free|);
        books.orders := books.orders[p.value := OrderSlot(o, NIL)];
        index := index[o.id := p.value];
      }
    }

    /** Give an order's slot back and clear its index entry. */
    method Release(p: nat, ghost s: State)
      requires Valid() && Shows(s) && InHand(p)
      modifies Repr()
      ensures Valid() && p !in orderPool.Live() && Shows(Free(s, old(books.orders[p].order.id)))
      ensures books.orders == old(books.orders)
    {
      hide Sound, Indexes, Stands, Loose, ObjectPool.Valid;
      ghost var live, a := orderPool.Live(), |orderPool.free|;
      var id := books.orders[p].order.id;
      Released(s, books.Mem(), live, index, p, a, |levelPool.free|);
      orderPool.Deallocate(p);
      index := index - {id};
    }

    /** A level slot nobody has; none exactly when the pool is exhausted. */
    method SpareLevel(ghost s: State) returns (spare: Option<nat>)
      requires Valid() && Shows(s)
      modifies levelPool
      ensures spare.None? <==> s.freeLevels == 0
      ensures spare.None? ==> Valid() && Shows(s)
      ensures spare.Some? ==> Consistent({spare.value}) && Shows(s.(freeLevels := s.freeLevels - 1)) && spare.value < |books.levels|
    {
      hide Sound, Indexes, Stands;
      AllInUse();
      FreeCounts(s);
      StandsLevels(s, books.Mem(), |orderPool.free|, |levelPool.free|, index.Keys, -1);
      spare := levelPool.Allocate();
    }

    /** Link an order in hand; the spare level is left over when there was a level of its price. */
    method LinkIn(w: Lane, p: nat, spare: nat, ghost s: State) returns (left: bool, ghost k: nat)
      requires Consistent({spare}) && Shows(s) && InHand(p) && books.orders[p].order.side == w.side && spare < |books.levels|
      modifies books, books.orderLinks, books.levelLinks
      ensures Consistent(if left then {spare} else {}) && (left <==> HasPrice(ListOf(s, w), old(books.orders[p].order).price))
      ensures Shows(WithList(s, w, Insert(w.Dir(), ListOf(s, w), old(books.orders[p].order).price, old(books.orders[p].order))))
      ensures |books.orders| == |old(books.orders)| && books.orders[p].order == old(books.orders[p].order)
      ensures k == Slot(w.Dir(), ListOf(s, w), old(books.orders[p].order).price) && LastOf(books.Mem(), w, k, p)
    {
      hide Sound, Indexes, Stands, Loose, ObjectPool.Valid, Changes, Slot, Insert, HasPrice, LastOf, Seated;
      ghost var m := books.Mem();
      ListStands(s, m, |orderPool.free|, |levelPool.free|, index.Keys, w);
      var used;
      used, k := books.Insert(w, p, spare);
      left := used != spare;
      ghost var o := books.orders[p].order;
      KeptDone(s, m, books.Mem(), orderPool.Live(), index, w, Insert(w.Dir(), ListOf(s, w), o.price, o), p, {p}, |orderPool.free|, |levelPool.free|);
    }

    /** Link an order in hand, in the spare level or else giving that back. */
    method Link(w: Lane, p: nat, spare: nat, ghost s: State) returns (ghost k: nat)
      requires Consistent({spare}) && Shows(s) && InHand(p) && books.orders[p].order.side == w.side && spare < |books.levels|
      modifies Repr()
      ensures Valid() && Shows(Placed(s.(freeLevels := s.freeLevels + 1), w, old(books.orders[p].order)))
      ensures |books.orders| == |old(books.orders)| && books.orders[p].order == old(books.orders[p].order)
      ensures k == Slot(w.Dir(), ListOf(s, w), old(books.orders[p].order).price) && LastOf(books.Mem(), w, k, p)
    {
      hide Sound, Indexes, Stands, Loose, ObjectPool.Valid, Slot, Insert, HasPrice, LastOf;
      ghost var o := books.orders[p].order;
      var left;
      left, k := LinkIn(w, p, spare, s);
      if left { ReturnLevel(spare, WithList(s, w, Insert(w.Dir(), ListOf(s, w), o.price, o))); }
    }

    /** Give back a level slot that is in no list. */
    method ReturnLevel(l: nat, ghost s: State)
      requires Consistent({l}) && Shows(s)
      modifies levelPool, levelPool.words
      ensures Valid() && l !in levelPool.Live() && Shows(s.(freeLevels := s.freeLevels + 1))
    {
      hide Sound, Indexes, Stands;
      StandsLevels(s, books.Mem(), |orderPool.free|, |levelPool.free|, index.Keys, 1);
      levelPool.Deallocate(l);
    }

    /** Link an order in hand at its price; false, and its slot is given back, when no spare level is
        to be had. */
    method Place(w: Lane, p: nat, ghost s: State) returns (placed: bool, ghost k: nat)
      requires Valid() && Shows(s) && InHand(p) && books.orders[p].order.side == w.side
      modifies Repr()
      ensures Valid() && (placed <==> s.freeLevels != 0)
      ensures placed ==> Shows(Placed(s, w, old(books.orders[p].order))) && |books.orders| == |old(books.orders)|
      ensures placed ==> books.orders[p].order == old(books.orders[p].order)
      ensures placed ==> k == Slot(w.Dir(), ListOf(s, w), old(books.orders[p].order).price) && LastOf(books.Mem(), w, k, p)
      ensures !placed ==> Shows(Free(s, old(books.orders[p].order).id))
    {
      hide Sound, Indexes, Stands, Loose, Slot, LastOf, ObjectPool.Valid, HasPrice, Insert;
      k := 0;
      var spare := SpareLevel(s);
      if spare.None? {
        Release(p, s);
        return false, k;
      }
      k := Link(w, p, spare.value, s.(freeLevels := s.freeLevels - 1));
      return true, k;
    }

    /** insert_into_book. */
    method RestOrder(p: nat, ghost s: State)
      requires Valid() && Shows(s) && InHand(p)
      modifies Repr()
      ensures Valid() && Shows(Rest(s, old(books.orders[p].order)))
    {
      hide Sound, Indexes, Stands, Loose, Slot, LastOf, ObjectPool.Valid;
      var o := books.orders[p].order;
      ghost var w := Lane(false, o.side);
      RestIs(s, books.Mem(), |orderPool.free|, |levelPool.free|, index.Keys, o);
      var placed, k := Place(Lane(false, o.side), p, s);
      ghost var s' := if placed then Placed(s, w, o) else Free(s, o.id);
      StandsAlike(s', books.Mem(), |orderPool.free|, |levelPool.free|, index.Keys, Rest(s, o));
    }

    /** Write an order in hand. */
    method Write(p: nat, o: Order, ghost s: State)
      requires Valid() && Shows(s) && InHand(p) && o.id == books.orders[p].order.id
      modifies books
      ensures Valid() && Shows(s) && InHand(p) && books.orders == old(books.orders)[p := old(books.orders)[p].(order := o)]
    {
      hide Sound, Indexes, Stands, ObjectPool.Valid, Loose;
      ghost var m := books.Mem();
      books.orders := books.orders[p := books.orders[p].(order := o)];
      Written(s, m, books.Mem(), orderPool.Live(), index, p, |orderPool.free|, |levelPool.free|);
    }

    /** Rewrite an order in its queue. */
    method Rewrite(p: nat, o: Order, ghost s: State, ghost w: Lane, ghost k: nat, ghost j: nat)
      requires Valid() && Shows(s) && Sits(books.Mem(), w, k, j, p) && p < |books.orders|
      requires o.id == books.orders[p].order.id && o.side == books.orders[p].order.side
      modifies books
      ensures Valid() && k < |ListOf(s, w)| && j < |ListOf(s, w)[k].orders|
      ensures Shows(WithList(s, w, PutQueue(ListOf(s, w), k, ListOf(s, w)[k].orders[j := o])))
      ensures books.orders == old(books.orders)[p := old(books.orders)[p].(order := o)] && Sits(books.Mem(), w, k, j, p)
    {
      hide Sound, Indexes, Stands, ObjectPool.Valid, Changes, Seated;
      ghost var m := books.Mem();
      ListStands(s, m, |orderPool.free|, |levelPool.free|, index.Keys, w);
      books.Rewrite(p, o, w, k, j);
      ghost var ls := ListOf(s, w);
      KeptDone(s, m, books.Mem(), orderPool.Live(), index, w, PutQueue(ls, k, ls[k].orders[j := o]), p, {}, |orderPool.free|, |levelPool.free|);
    }

    /** Put a stop away: linked under its stop price, and a stop-limit's own price written back. */
    method ParkOrder(p: nat, stopPrice: int, ghost s: State)
      requires Valid() && Shows(s) && InHand(p)
      requires books.orders[p].order.kind == StopLimit || (books.orders[p].order.kind == Stop && books.orders[p].order.price == stopPrice)
      modifies Repr()
      ensures Valid() && Shows(Park(s, old(books.orders[p].order), stopPrice))
    {
      hide Sound, Indexes, Stands, Loose, Slot, LastOf, ObjectPool.Valid, Insert, HasPrice;
      var o := books.orders[p].order;
      var w := Lane(true, o.side);
      ListStands(s, books.Mem(), |orderPool.free|, |levelPool.free|, index.Keys, w);
      ListOk(books.Mem(), w);
      ParkPlain(s, o, stopPrice);
      Write(p, o.(price := stopPrice), s);
      var placed, k := Place(w, p, s);
      ghost var s' := if placed then Placed(s, w, o.(price := stopPrice)) else Free(s, o.id);
      if placed && o.kind == StopLimit {
        LastSeat(s', books.Mem(), |orderPool.free|, |levelPool.free|, index.Keys, w, k, p);
        Rewrite(p, o, s', w, k, |ListOf(s', w)[k].orders| - 1);
        s' := WithList(s', w, PutQueue(ListOf(s', w), k, ListOf(s', w)[k].orders[|ListOf(s', w)[k].orders| - 1 := o]));
        ParkRewritten(s, o, stopPrice, s');
      }
      StandsAlike(s', books.Mem(), |orderPool.free|, |levelPool.free|, index.Keys, Park(s, o, stopPrice));
    }

    /** Take an order out of its queue and into hand; a level left empty is unlinked, not yet freed. */
    method DetachOnly(stop: bool, p: nat, ghost s: State, ghost w: Lane, ghost k: nat, ghost j: nat) returns (freed: int)
      requires Valid() && Shows(s) && Sits(books.Mem(), w, k, j, p) && w.stop == stop
      modifies books, books.orderLinks, books.levelLinks
      ensures Spot(ListOf(s, w), k, j) && Shows(WithList(s, w, PutQueue(ListOf(s, w), k, Without(ListOf(s, w)[k].orders, j))))
      ensures InHand(p) && |books.orders| == |old(books.orders)| && books.orders[p].order == old(books.orders)[p].order
      ensures freed != NIL <==> |ListOf(s, w)[k].orders| == 1
      ensures if freed == NIL then Valid() else freed >= 0 && Consistent({freed})
    {
      hide Sound, Indexes, Stands, ObjectPool.Valid, Loose, Without, Removed, Sits;
      ghost var m := books.Mem();
      if stop { freed := books.RemoveStop(p, w, k, j); } else { freed := books.RemoveOrder(p, w, k, j); }
      DetachDone(s, m, books.Mem(), orderPool.Live(), index, w, k, j, p, freed, |orderPool.free|, |levelPool.free|);
    }

    /** Take an order out of its queue and into hand, and free a level left empty. */
    method Detach(stop: bool, p: nat, ghost s: State, ghost w: Lane, ghost k: nat, ghost j: nat)
      requires Valid() && Shows(s) && Sits(books.Mem(), w, k, j, p) && w.stop == stop
      modifies Repr()
      ensures Valid() && Spot(ListOf(s, w), k, j) && Shows(Detached(s, w, k, j))
      ensures InHand(p) && |books.orders| == |old(books.orders)| && books.orders[p].order == old(books.orders)[p].order
    {
      hide Sound, Indexes, Stands, ObjectPool.Valid, Seated, Loose, Without;
      var freed := DetachOnly(stop, p, s, w, k, j);
      if freed != NIL { ReturnLevel(freed, WithList(s, w, PutQueue(ListOf(s, w), k, Without(ListOf(s, w)[k].orders, j)))); }
    }

    /** cancel_active_order: the order's type tells which book it is in. */
    method CancelOrder(p: nat, reason: CancelReason, ghost s: State, ghost at: Place, ghost lim: Limits, ghost hand: multiset<nat>)
      requires Valid() && Shows(s) && Shape(lim, s, hand) && Sits(books.Mem(), Lane(at.stops, at.side), at.k, at.j, p)
      modifies Repr()
      ensures Valid() && p !in orderPool.Live() && Spot(ListAt(s, at), at.k, at.j) && Shows(CancelAny(s, at, reason))
    {
      hide Sound, Indexes, Stands, ObjectPool.Valid, Seated, Loose, Without, Shape, Sits;
      ghost var w := Lane(at.stops, at.side);
      TypeTells(s, books.Mem(), |orderPool.free|, |levelPool.free|, index.Keys, lim, hand, at, p);
      var o := books.orders[p].order;
      Detach(o.kind == Stop || o.kind == StopLimit, p, s, w, at.k, at.j);
      Release(p, Detached(s, w, at.k, at.j));
      CancelIs(s, at, reason);
      StandsAlike(Free(Detached(s, w, at.k, at.j), o.id), books.Mem(), |orderPool.free|, |levelPool.free|, index.Keys, CancelAny(s, at, reason));
    }

    /** A fill: quantity moves from remaining to filled, on the order and on its level's total. */
    method TakeFrom(p: nat, n: int, fillPrice: int, ghost s: State, ghost side: Side, ghost k: nat, ghost j: nat)
      requires Valid() && Shows(s) && Sits(books.Mem(), Lane(false, side), k, j, p) && p < |books.orders|
      modifies books
      ensures Valid() && Spot(s.Book(side), k, j) && Shows(TakeAt(s, side, k, j, n, fillPrice)) && Sits(books.Mem(), Lane(false, side), k, j, p)
    {
      hide Sound, Indexes, Stands, ObjectPool.Valid, Sits;
      ghost var w := Lane(false, side);
      SeatHolds(s, books.Mem(), |orderPool.free|, |levelPool.free|, index.Keys, w, k, j, p);
      var o := books.orders[p].order.Filled(n);
      Rewrite(p, o, s, w, k, j);
      StandsAlike(s.WithBook(side, PutQueue(s.Book(side), k, s.Book(side)[k].orders[j := o])), books.Mem(),
                  |orderPool.free|, |levelPool.free|, index.Keys, TakeAt(s, side, k, j, n, fillPrice));
    }

    /** auction_handle_filled_order, and its like after a match and an implied fill: an exhausted order
        shows its next tranche at the back of the queue, or gives up its slots. */
    method SettleOrder(p: nat, ghost s: State, ghost side: Side, ghost k: nat, ghost j: nat)
      requires Valid() && Shows(s) && Sits(books.Mem(), Lane(false, side), k, j, p) && p < |books.orders|
      modifies Repr()
      ensures Valid() && Spot(s.Book(side), k, j) && Shows(SettleAt(s, side, k, j))
    {
      hide Sound, Indexes, Stands, ObjectPool.Valid, Sits, Loose, Without;
      ghost var w := Lane(false, side);
      SeatHolds(s, books.Mem(), |orderPool.free|, |levelPool.free|, index.Keys, w, k, j, p);
      var o := books.orders[p].order;
      if o.remaining != 0 { return; }
      if o.HasHidden() {
        Reveal(p, o.NextTranche(), s, w, k, j);
      } else {
        Detach(false, p, s, w, k, j);
        Release(p, Detached(s, w, k, j));
      }
      SettleIs(s, side, k, j);
      StandsAlike(if o.HasHidden() then Retranched(s, w, k, j, o.NextTranche()) else Free(Detached(s, w, k, j), o.id), books.Mem(),
                  |orderPool.free|, |levelPool.free|, index.Keys, SettleAt(s, side, k, j));
    }

    method Reveal(p: nat, next: int, ghost s: State, ghost w: Lane, ghost k: nat, ghost j: nat)
      requires Valid() && Shows(s) && Sits(books.Mem(), w, k, j, p) && p < |books.orders| && books.orders[p].order.remaining == 0
      modifies books, books.orderLinks
      ensures Valid() && Spot(ListOf(s, w), k, j) && Shows(Retranched(s, w, k, j, next))
    {
      hide Sound, Indexes, Stands, ObjectPool.Valid, Changes, Seated, Without;
      ghost var m := books.Mem();
      ListStands(s, m, |orderPool.free|, |levelPool.free|, index.Keys, w);
      books.Requeue(p, next, w, k, j);
      ghost var q := ListOf(s, w)[k].orders;
      KeptDone(s, m, books.Mem(), orderPool.Live(), index, w, PutQueue(ListOf(s, w), k, Without(q, j) + [q[j].(remaining := next)]), p, {},
               |orderPool.free|, |levelPool.free|);
    }
  }

  /** The state with an order taken out of list w. */
  ghost function Detached(s: State, w: Lane, k: nat, j: nat): State
    requires Spot(ListOf(s, w), k, j)
  {
    var ls := ListOf(s, w);
    WithList(s, w, PutQueue(ls, k, Without(ls[k].orders, j))).(freeLevels := s.freeLevels + if |ls[k].orders| == 1 then 1 else 0)
  }

  /** The state with an order's next tranche at the back of its queue. */
  ghost function Retranched(s: State, w: Lane, k: nat, j: nat, next: int): State
    requires Spot(ListOf(s, w), k, j)
  {
    var q := ListOf(s, w)[k].orders;
    WithList(s, w, PutQueue(ListOf(s, w), k, Without(q, j) + [q[j].(remaining := next)]))
  }

  lemma DetachDone(s: State, m0: Memory, m: Memory, live: set<nat>, index: map<nat, nat>, w: Lane, k: nat, j: nat, p: nat,
                   freed: int, a: int, b: int)
    requires Stands(s, m0, a, b, index.Keys) && Indexes(m0, live, index) && Sits(m0, w, k, j, p) && Removed(m0, m, w, k, j, p, freed)
    requires |m.orders| == |m0.orders| && forall x :: 0 <= x < |m.orders| ==> m.orders[x].order == m0.orders[x].order
    ensures Indexes(m, live, index) && p in live && p < |m.orders| && Loose(m, p) && Spot(ListOf(s, w), k, j)
    ensures Stands(WithList(s, w, PutQueue(ListOf(s, w), k, Without(ListOf(s, w)[k].orders, j))), m, a, b, index.Keys)
    ensures freed != NIL <==> |ListOf(s, w)[k].orders| == 1
    ensures m.held.Keys == m0.held.Keys - {freed} && (freed != NIL ==> freed >= 0 && freed in m0.held)
  {
    hide Indexes, Changes, Seated, Loose, WellLinked, Sits, PutQueue, Without, Stands;
    ListStands(s, m0, a, b, index.Keys, w);
    SeatInUse(m0, live, index, w, k, j, p);
    SeatedIndexes(m0, m, live, index);
    LooseNow(m, p);
    ChangedStands(s, m0, m, w, PutQueue(ListOf(s, w), k, Without(ListOf(s, w)[k].orders, j)), a, b, index.Keys);
  }

  lemma SeatInUse(m: Memory, live: set<nat>, index: map<nat, nat>, w: Lane, k: nat, j: nat, p: nat)
    requires WellLinked(m) && Indexes(m, live, index) && Sits(m, w, k, j, p)
    ensures p in live && p < |m.orders|
  {
    hide WellLinked, Seated;
    QueueSeated(m, m.lanes[w][k]);
    assert p in m.held[m.lanes[w][k]].queue;
  }

  lemma SeatHolds(s: State, m: Memory, a: int, b: int, ids: set<nat>, w: Lane, k: nat, j: nat, p: nat)
    requires Stands(s, m, a, b, ids) && Sits(m, w, k, j, p)
    ensures Spot(ListOf(s, w), k, j) && p < |m.orders| && ListOf(s, w)[k].orders[j] == m.orders[p].order
  {
    ListStands(s, m, a, b, ids, w);
    hide WellLinked;
    SeatOf(m, w, k, j, p);
  }

  /** Stops are in the stop book and nothing else is. */
  lemma TypeTells(s: State, m: Memory, a: int, b: int, ids: set<nat>, lim: Limits, hand: multiset<nat>, at: Place, p: nat)
    requires Stands(s, m, a, b, ids) && Shape(lim, s, hand) && Sits(m, Lane(at.stops, at.side), at.k, at.j, p)
    ensures Spot(ListAt(s, at), at.k, at.j) && p < |m.orders| && ListAt(s, at)[at.k].orders[at.j] == m.orders[p].order
    ensures at.stops <==> m.orders[p].order.kind == Stop || m.orders[p].order.kind == StopLimit
  {
    hide WellLinked, WellFormed;
    SeatHolds(s, m, a, b, ids, Lane(at.stops, at.side), at.k, at.j, p);
    var lv := ListAt(s, at)[at.k];
    assert lv in ListAt(s, at) && lv.orders[at.j] in lv.orders;
    if at.stops { assert WaitsAt(at.side, lv.price, lv.orders[at.j]); } else { assert RestsAt(at.side, lv.price, lv.orders[at.j]); }
  }

  lemma CancelIs(s: State, at: Place, reason: CancelReason)
    requires Spot(ListAt(s, at), at.k, at.j)
    ensures var w, o := Lane(at.stops, at.side), ListAt(s, at)[at.k].orders[at.j];
      Alike(Free(Detached(s, w, at.k, at.j), o.id), CancelAny(s, at, reason))
  {
    hide PutQueue, Without;
  }

  lemma SettleIs(s: State, side: Side, k: nat, j: nat)
    requires Spot(s.Book(side), k, j) && s.Book(side)[k].orders[j].remaining == 0
    ensures var w, o := Lane(false, side), s.Book(side)[k].orders[j];
      Alike(if o.HasHidden() then Retranched(s, w, k, j, o.NextTranche()) else Free(Detached(s, w, k, j), o.id), SettleAt(s, side, k, j))
  {
    hide PutQueue, Without;
  }

  lemma LastSeat(s: State, m: Memory, a: int, b: int, ids: set<nat>, w: Lane, k: nat, p: nat)
    requires Stands(s, m, a, b, ids) && LastOf(m, w, k, p)
    ensures k < |ListOf(s, w)| && ListOf(s, w)[k].orders != [] && Sits(m, w, k, |ListOf(s, w)[k].orders| - 1, p)
  {
    hide WellLinked;
    ShownAt(m, w, k, m.lanes[w][k]);
  }

  /** Linking under the stop price and then writing the order's own price inserts the order there. */
  lemma InsertRewrite(dir: Side, ls: seq<Level>, a: Order, b: Order, price: int)
    requires WellFormed(dir, ls)
    ensures var k, r := Slot(dir, ls, price), Insert(dir, ls, price, a);
      && k < |r| && r[k].orders != []
      && PutQueue(r, k, r[k].orders[|r[k].orders| - 1 := b]) == Insert(dir, ls, price, b)
  {
    var k, r := Slot(dir, ls, price), Insert(dir, ls, price, a);
    if k < |ls| && ls[k].price == price {
      assert (ls[k].orders + [a])[|ls[k].orders| := b] == ls[k].orders + [b];
    } else {
      assert [a][0 := b] == [b];
      Relink(ls, k, MkLevel(price, [a]), MkLevel(price, [b]));
    }
  }

  lemma ParkPlain(s: State, o: Order, stopPrice: int)
    requires WellFormed(o.side.Opposite(), s.Stops(o.side))
    ensures s.freeLevels == 0 ==> Alike(Free(s, o.id), Park(s, o, stopPrice))
    ensures s.freeLevels != 0 && o.price == stopPrice ==> Alike(Placed(s, Lane(true, o.side), o), Park(s, o, stopPrice))
  {
    hide WellFormed, Insert, Slot, HasPrice;
    NonEmptyQueue(o.side.Opposite(), s.Stops(o.side), stopPrice);
  }

  ghost predicate LastRewritten(s: State, w: Lane, k: nat, o: Order, s': State) {
    && k < |ListOf(s, w)| && ListOf(s, w)[k].orders != []
    && s' == WithList(s, w, PutQueue(ListOf(s, w), k, ListOf(s, w)[k].orders[|ListOf(s, w)[k].orders| - 1 := o]))
  }

  lemma ParkRewritten(s: State, o: Order, stopPrice: int, s': State)
    requires WellFormed(o.side.Opposite(), s.Stops(o.side)) && s.freeLevels != 0
    requires var w := Lane(true, o.side); LastRewritten(Placed(s, w, o.(price := stopPrice)), w, Slot(w.Dir(), ListOf(s, w), stopPrice), o, s')
    ensures Alike(s', Park(s, o, stopPrice))
  {
    hide WellFormed, Insert, Slot, HasPrice;
    var dir, ls := o.side.Opposite(), s.Stops(o.side);
    NonEmptyQueue(dir, ls, stopPrice);
    InsertRewrite(dir, ls, o.(price := stopPrice), o, stopPrice);
    PlacedList(s, Lane(true, o.side), o.(price := stopPrice));
  }

  lemma PlacedList(s: State, w: Lane, o: Order)
    ensures ListOf(Placed(s, w, o), w) == Insert(w.Dir(), ListOf(s, w), o.price, o)
  {
  }

  /** Two states with the same lists, counts and index. */
  ghost predicate Alike(s: State, s': State) {
    && s'.bids == s.bids && s'.asks == s.asks && s'.buyStops == s.buyStops && s'.sellStops == s.sellStops
    && s'.freeOrders == s.freeOrders && s'.freeLevels == s.freeLevels && s'.live == s.live
  }

  lemma StandsAlike(s: State, m: Memory, a: int, b: int, ids: set<nat>, s': State)
    requires Stands(s, m, a, b, ids) && Alike(s, s')
    ensures Stands(s', m, a, b, ids)
  {
    hide WellLinked;
  }

  lemma RestIs(s: State, m: Memory, a: int, b: int, ids: set<nat>, o: Order)
    requires Stands(s, m, a, b, ids) && Sound(m)
    ensures Alike(if s.freeLevels != 0 then Placed(s, Lane(false, o.side), o) else Free(s, o.id), Rest(s, o))
  {
    var w := Lane(false, o.side);
    assert WellFormed(o.side, s.Book(o.side)) by { ListOk(m, w); }
    hide WellLinked, Sound, WellFormed, Stands, Insert, HasPrice;
    NonEmptyQueue(o.side, s.Book(o.side), o.price);
  }

  lemma Written(s: State, m0: Memory, m: Memory, live: set<nat>, index: map<nat, nat>, p: nat, a: int, b: int)
    requires Sound(m0) && Indexes(m0, live, index) && Stands(s, m0, a, b, index.Keys) && p < |m0.orders| && Loose(m0, p)
    requires p < |m.orders| && m == m0.(orders := m0.orders[p := m.orders[p]]) && m.orders[p].order.id == m0.orders[p].order.id
    ensures Sound(m) && Indexes(m, live, index) && Stands(s, m, a, b, index.Keys) && Loose(m, p)
  {
    LooseWrite(m0, m, p);
    hide WellLinked, WellFormed, Seated;
    SoundSame(m0, m);
    StandsSame(s, m0, m, s, a, b, index.Keys);
    IndexesSame(m0, m, live, index);
  }

  lemma SeatedIndexes(m0: Memory, m: Memory, live: set<nat>, index: map<nat, nat>)
    requires Indexes(m0, live, index) && |m.orders| == |m0.orders| && Seated(m) <= Seated(m0)
    requires forall x :: 0 <= x < |m.orders| ==> m.orders[x].order.id == m0.orders[x].order.id
    ensures Indexes(m, live, index)
  {
    hide Seated;
    IndexesSame(m0, m, live, index);
  }

  lemma Released(s: State, m: Memory, live: set<nat>, index: map<nat, nat>, p: nat, a: int, b: int)
    requires Sound(m) && Indexes(m, live, index) && Stands(s, m, a, b, index.Keys) && p in live && p < |m.orders| && Loose(m, p)
    ensures m.orders[p].order.id in index && Indexes(m, live - {p}, index - {m.orders[p].order.id})
    ensures Stands(Free(s, m.orders[p].order.id), m, a + 1, b, (index - {m.orders[p].order.id}).Keys)
  {
    hide WellLinked;
    var id := m.orders[p].order.id;
    assert (index - {id}).Keys == index.Keys - {id};
    StandsSame(s, m, m, Free(s, id), a + 1, b, (index - {id}).Keys);
  }

  /** The state with an order linked into list w. */
  ghost function Placed(s: State, w: Lane, o: Order): State {
    var ls := ListOf(s, w);
    WithList(s, w, Insert(w.Dir(), ls, o.price, o)).(freeLevels := s.freeLevels - if HasPrice(ls, o.price) then 0 else 1)
  }

  /** Slots whose orders are unchanged are indexed as before. */
  lemma IndexesSame(m0: Memory, m: Memory, live: set<nat>, index: map<nat, nat>)
    requires Indexes(m0, live, index) && |m.orders| == |m0.orders| && Seated(m) <= live
    requires forall x :: 0 <= x < |m.orders| ==> m.orders[x].order.id == m0.orders[x].order.id
    ensures Indexes(m, live, index)
  {
    hide Seated;
  }

  lemma StandsLevels(s: State, m: Memory, a: int, b: int, ids: set<nat>, n: int)
    requires Stands(s, m, a, b, ids)
    ensures Stands(s.(freeLevels := s.freeLevels + n), m, a, b + n, ids)
  {
  }

  lemma ListStands(s: State, m: Memory, a: int, b: int, ids: set<nat>, w: Lane)
    requires Stands(s, m, a, b, ids)
    ensures WellLinked(m) && View(m, w) == ListOf(s, w)
  {
  }

  /** A change of one list that seats only orders in hand keeps the index. */
  lemma KeptDone(s: State, m0: Memory, m: Memory, live: set<nat>, index: map<nat, nat>, w: Lane, ls: seq<Level>, p: nat, more: set<nat>, a: int, b: int)
    requires Stands(s, m0, a, b, index.Keys) && Indexes(m0, live, index) && Changes(m0, m, w, ls)
    requires Seated(m) == Seated(m0) + more && more <= live
    requires |m.orders| == |m0.orders| && p < |m.orders| && m.orders == m0.orders[p := m.orders[p]] && m.orders[p].order.id == m0.orders[p].order.id
    ensures Indexes(m, live, index) && Stands(WithList(s, w, ls), m, a, b, index.Keys)
  {
    hide Seated, Changes, Stands;
    IndexesSame(m0, m, live, index);
    ChangedStands(s, m0, m, w, ls, a, b, index.Keys);
  }

  lemma ChangedStands(s: State, m0: Memory, m: Memory, w: Lane, ls: seq<Level>, a: int, b: int, ids: set<nat>)
    requires Stands(s, m0, a, b, ids) && Changes(m0, m, w, ls)
    ensures Stands(WithList(s, w, ls), m, a, b, ids)
  {
    hide Changes, WellLinked;
    ListStands(s, m0, a, b, ids, w);
    StandsAfter(s, m0, m, w, ls, a, b, ids, WithList(s, w, ls));
  }

  // ---------------------------------------------------------------- nothing lost

  ghost predicate OneToOne(index: map<nat, nat>) {
    forall x, y :: x in index && y in index && index[x] == index[y] ==> x == y
  }

  lemma {:induction false} Images(index: map<nat, nat>, ids: set<nat>)
    requires OneToOne(index) && ids <= index.Keys
    ensures |set id | id in ids :: index[id]| == |ids|
  {
    var image := set id | id in ids :: index[id];
    if ids != {} {
      var x :| x in ids;
      Images(index, ids - {x});
      assert image == (set id | id in ids - {x} :: index[id]) + {index[x]};
    }
  }

  /** There are as many order slots in use as identifiers indexed. */
  lemma IndexCount(m: Memory, live: set<nat>, index: map<nat, nat>)
    requires Indexes(m, live, index)
    ensures |live| == |index.Keys|
  {
    hide Seated;
    Images(index, index.Keys);
    forall p | p in live ensures p in set id | id in index.Keys :: index[id] { assert index[m.orders[p].order.id] == p; }
    assert live == set id | id in index.Keys :: index[id];
  }

  ghost function Members(nodes: seq<nat>): set<nat> { set x | x in nodes }

  lemma {:induction false} MemberCount(nodes: seq<nat>)
    requires Distinct(nodes)
    ensures |Members(nodes)| == |nodes|
  {
    if nodes != [] {
      var rest := nodes[1..];
      assert nodes == [nodes[0]] + rest && nodes[0] !in rest;
      MemberCount(rest);
      assert Members(nodes) == Members(rest) + {nodes[0]};
    }
  }

  ghost function OnLanes(m: Memory, ws: set<Lane>): set<nat> { set l | l in m.held && m.held[l].lane in ws }

  lemma LaneCount(m: Memory, ws: set<Lane>, w: Lane)
    requires LaneOk(m, w) && w !in ws
    ensures |OnLanes(m, ws + {w})| == |OnLanes(m, ws)| + |m.lanes[w]|
  {
    assert Distinct(m.lanes[w]);
    hide Chained, Distinct;
    MemberCount(m.lanes[w]);
    assert OnLanes(m, ws + {w}) == OnLanes(m, ws) + Members(m.lanes[w]);
  }

  /** There are as many level slots in use as levels listed. */
  lemma HeldCount(m: Memory)
    requires WellLinked(m)
    ensures |m.held.Keys| == |View(m, Lane(false, Buy))| + |View(m, Lane(false, Sell))| + |View(m, Lane(true, Buy))| + |View(m, Lane(true, Sell))|
  {
    hide LevelOk, Chained;
    var a, b, c, d := Lane(false, Buy), Lane(false, Sell), Lane(true, Buy), Lane(true, Sell);
    assert LaneOk(m, a) && LaneOk(m, b) && LaneOk(m, c) && LaneOk(m, d);
    hide LaneOk, WellLinked;
    assert OnLanes(m, {}) == {};
    LaneCount(m, {}, a);
    LaneCount(m, {} + {a}, b);
    LaneCount(m, {} + {a} + {b}, c);
    LaneCount(m, {} + {a} + {b} + {c}, d);
    forall l | l in m.held ensures m.held[l].lane in {} + {a} + {b} + {c} + {d} { AllLanes(m.held[l].lane); }
    assert m.held.Keys == OnLanes(m, {} + {a} + {b} + {c} + {d});
  }
}
