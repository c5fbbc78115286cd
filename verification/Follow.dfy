/**
  The storage follows the engine: whatever an operation or a run does to the state can be carried out
  change by change on slots, links, pools and the order index, and ends with storage that is consistent
  and stands for the new state.
 */
module Follow {
  import opened Types
  import opened Queues
  import opened Levels
  import opened EngineState
  import opened Stops
  import opened Cancels
  import opened Runs
  import opened Pool
  import opened Chain
  import opened Linked
  import opened Books
  import opened Slots
  import opened Changes

  // ---------------------------------------------------------------- from identifiers to slots

  /** The index finds the slot that a spot of a list is read off. */
  lemma SlotAt(m: Memory, live: set<nat>, index: map<nat, nat>, s: State, a: int, b: int, w: Lane, k: nat, j: nat, id: nat)
    requires Indexes(m, live, index) && Stands(s, m, a, b, index.Keys) && Named(ListOf(s, w), k, j, id)
    ensures id in index && index[id] < |m.orders| && Sits(m, w, k, j, index[id]) && m.orders[index[id]].order == ListOf(s, w)[k].orders[j]
  {
    ListStands(s, m, a, b, index.Keys, w);
    hide WellLinked, Chained, Seated, LevelOk;
    var l := m.lanes[w][k];
    ShownAt(m, w, k, l);
    var p := m.held[l].queue[j];
    assert Sits(m, w, k, j, p);
    SeatOf(m, w, k, j, p);
    SeatInUse(m, live, index, w, k, j, p);
  }

  lemma {:induction false} InBag(ls: seq<Level>, k: nat, j: nat)
    requires Spot(ls, k, j)
    ensures Bag(ls)[ls[k].orders[j].id] >= 1
  {
    BagSplit(ls, k);
    IdBagMember(ls[k].orders, j);
  }

  /** An indexed order in no list is in a slot in no queue. */
  lemma SlotOf(m: Memory, live: set<nat>, index: map<nat, nat>, s: State, a: int, b: int, id: nat)
    requires Indexes(m, live, index) && Stands(s, m, a, b, index.Keys) && Unlisted(s, id)
    ensures id in index && index[id] in live && index[id] < |m.orders| && Loose(m, index[id]) && m.orders[index[id]].order.id == id
  {
    hide WellLinked, Seated;
    var p := index[id];
    forall l | l in m.held ensures p !in m.held[l].queue {
      if p in m.held[l].queue { Queued(m, s, a, b, index.Keys, l, p); }
    }
  }

  lemma Queued(m: Memory, s: State, a: int, b: int, ids: set<nat>, l: nat, p: nat)
    requires Stands(s, m, a, b, ids) && l in m.held && p in m.held[l].queue
    ensures p < |m.orders| && AllIds(s)[m.orders[p].order.id] >= 1
  {
    hide Chained, Bag, LevelOk;
    var w := m.held[l].lane;
    ListStands(s, m, a, b, ids, w);
    assert LaneOk(m, w) && l in m.lanes[w];
    var k :| 0 <= k < |m.lanes[w]| && m.lanes[w][k] == l;
    var j :| 0 <= j < |m.held[l].queue| && m.held[l].queue[j] == p;
    assert Sits(m, w, k, j, p);
    SeatOf(m, w, k, j, p);
    InBag(ListOf(s, w), k, j);
    InAllIds(s, w, m.orders[p].order.id);
  }

  lemma InAllIds(s: State, w: Lane, id: nat)
    ensures AllIds(s)[id] >= Bag(ListOf(s, w))[id]
  {
    AllLanes(w);
  }

  // ---------------------------------------------------------------- carrying changes out

  /** One change, on slots and links. */
  method Apply(slots: Slots, c: Change, ghost s: State)
    requires slots.Valid() && slots.Shows(s) && Can(s, c)
    modifies slots.Repr()
    ensures slots.Valid() && slots.Shows(Do(s, c))
  {
    hide Sound, Indexes, Stands, ObjectPool.Valid, Sits, Loose, Rest, Park, SettleAt, PutQueue, Without;
    ghost var m, live, a, b := slots.books.Mem(), slots.orderPool.Live(), |slots.orderPool.free|, |slots.levelPool.free|;
    match c
    case Accept(o) =>
      slots.FreeCounts(s);
      var p := slots.Accept(o, s);
    case Take(side, k, j, id, n) =>
      SlotAt(m, live, slots.index, s, a, b, Lane(false, side), k, j, id);
      slots.TakeFrom(slots.index[id], n, 0, s, side, k, j);
    case Settle(side, k, j, id) =>
      SlotAt(m, live, slots.index, s, a, b, Lane(false, side), k, j, id);
      slots.SettleOrder(slots.index[id], s, side, k, j);
    case Swap(side, k, j, o) =>
      SlotAt(m, live, slots.index, s, a, b, Lane(false, side), k, j, o.id);
      slots.Rewrite(slots.index[o.id], o, s, Lane(false, side), k, j);
    case Pull(w, k, j, id) =>
      SlotAt(m, live, slots.index, s, a, b, w, k, j, id);
      slots.Detach(w.stop, slots.index[id], s, w, k, j);
    case Drop(id) =>
      SlotOf(m, live, slots.index, s, a, b, id);
      slots.Release(slots.index[id], s);
    case Book(o) =>
      SlotOf(m, live, slots.index, s, a, b, o.id);
      slots.Write(slots.index[o.id], o, s);
      slots.RestOrder(slots.index[o.id], s);
    case Shelve(o, stopPrice) =>
      SlotOf(m, live, slots.index, s, a, b, o.id);
      slots.Write(slots.index[o.id], o, s);
      slots.ParkOrder(slots.index[o.id], stopPrice, s);
  }

  /** A whole trace of changes: every slot used once, freed once, and the storage still consistent. */
  method FollowAll(slots: Slots, cs: seq<Change>, ghost s: State, ghost s': State)
    requires slots.Valid() && slots.Shows(s) && Traces(s, cs, s')
    modifies slots.Repr()
    ensures slots.Valid() && slots.Shows(s')
  {
    hide Can, Do, Stands, Sound, Indexes, ObjectPool.Valid;
    ghost var at := s;
    assert cs[0..] == cs;
    for i := 0 to |cs|
      invariant slots.Valid() && slots.Shows(at) && Traces(at, cs[i..], s')
    {
      assert cs[i..][0] == cs[i] && cs[i..][1..] == cs[i+1..];
      Apply(slots, cs[i], at);
      at := Do(at, cs[i]);
    }
    assert cs[|cs|..] == [];
    StandsAlike(at, slots.books.Mem(), |slots.orderPool.free|, |slots.levelPool.free|, slots.index.Keys, s');
  }

  /** Storage for any state a run from a new engine reaches. */
  method Build(lim: Limits, blank: Order, cs: seq<Change>, ghost s: State, ghost s': State) returns (slots: Slots)
    requires lim.maxOrders > 0 && lim.maxLevels > 0 && Initial(lim, s) && Traces(s, cs, s')
    ensures slots.Valid() && slots.Shows(s')
  {
    slots := new Slots(lim.maxOrders, lim.maxLevels, blank);
    NewValid(slots);
    hide Traces, Sound, Indexes, Stands, WellLinked, ObjectPool.Valid, Initial;
    NewShows(slots.books.Mem(), s, lim);
    FollowAll(slots, cs, s, s');
  }

  lemma NewValid(slots: Slots)
    requires slots.Valid()
    ensures WellLinked(slots.books.Mem())
  {
  }

  lemma NewShows(m: Memory, s: State, lim: Limits)
    requires WellLinked(m) && (forall w :: View(m, w) == []) && Initial(lim, s)
    ensures Stands(s, m, lim.maxOrders, lim.maxLevels, {})
  {
  }
}
