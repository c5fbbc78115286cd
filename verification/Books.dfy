/**
  The order book and the stop book over their linked storage (exchange-core/orderbook.cc,
  exchange-core/stop_book.cc): each operation rewires prev and next links, list ends, back-pointers
  and cached totals in place, and is shown to do to the list it stands for what the value-level
  operation of Levels does.
 */
module Books {
  import opened Types
  import opened Queues
  import opened Levels
  import opened Pool
  import opened Chain
  import opened Linked

  const LANES: set<Lane> := {Lane(false, Buy), Lane(false, Sell), Lane(true, Buy), Lane(true, Sell)}

  lemma AllLanes(w: Lane)
    ensures w in LANES
  {
    assert w == Lane(w.stop, w.side) && (w.side == Buy || w.side == Sell);
  }

  lemma AtBack(nodes: seq<nat>, node: nat)
    ensures Put(nodes, |nodes|, node) == nodes + [node]
  {
  }

  class Books {
    var orders: seq<OrderSlot>
    var levels: seq<LevelSlot>
    const orderLinks: Links
    const levelLinks: Links
    var ends: map<Lane, Ends>
    ghost var lanes: map<Lane, seq<nat>>
    ghost var held: map<nat, Held>

    ghost function Mem(): Memory
      reads this, orderLinks, levelLinks
    {
      Memory(orders, orderLinks.at, levels, levelLinks.at, ends, lanes, held)
    }

    ghost predicate Valid()
      reads this, orderLinks, levelLinks
    {
      orderLinks != levelLinks && Sound(Mem())
    }

    constructor (maxOrders: nat, maxLevels: nat, blank: Order)
      ensures Valid() && fresh(orderLinks) && fresh(levelLinks) && held == map[] && (forall w :: View(Mem(), w) == [])
      ensures |orders| == maxOrders && |levels| == maxLevels
    {
      orders := seq(maxOrders, i => OrderSlot(blank, NIL));
      levels := seq(maxLevels, i => LevelSlot(0, 0, 0, EMPTY));
      orderLinks := new Links(maxOrders);
      levelLinks := new Links(maxLevels);
      ends, lanes, held := map w | w in LANES :: EMPTY, map w | w in LANES :: [], map[];
      new;
      forall w ensures LaneOk(Mem(), w) { AllLanes(w); }
      forall w ensures View(Mem(), w) == [] { AllLanes(w); }
    }

    /** find_level: walk the list for an exact price. */
    method FindLevel(w: Lane, price: int) returns (l: int, ghost k: nat)
      requires WellLinked(Mem())
      ensures l == NIL <==> !HasPrice(View(Mem(), w), price)
      ensures l != NIL ==> 0 <= l < |levels| && k < |View(Mem(), w)| && lanes[w][k] == l && View(Mem(), w)[k].price == price
    {
      hide LevelOk;
      assert LaneOk(Mem(), w);
      l, k := ends[w].head, 0;
      while l != NIL
        invariant k <= |lanes[w]| && l == if k < |lanes[w]| then lanes[w][k] else NIL
        invariant forall i :: 0 <= i < k ==> View(Mem(), w)[i].price != price
        decreases |lanes[w]| - k
      {
        assert View(Mem(), w)[k] == LevelView(Mem(), lanes[w][k]);
        if levels[l].price == price { return; }
        l, k := levelLinks.at[l].next, k + 1;
      }
    }

    /** The first level worse than a price that no level has. */
    method FirstWorse(w: Lane, price: int) returns (cur: int, ghost k: nat)
      requires WellLinked(Mem()) && Sorted(w.Dir(), View(Mem(), w)) && !HasPrice(View(Mem(), w), price)
      ensures k == Slot(w.Dir(), View(Mem(), w), price) && cur == At(lanes[w], k)
    {
      hide LevelOk;
      assert LaneOk(Mem(), w);
      ghost var ls := View(Mem(), w);
      cur, k := ends[w].head, 0;
      while cur != NIL && !Better(w.Dir(), price, levels[cur].price)
        invariant k <= |ls| && cur == At(lanes[w], k)
        invariant forall i :: 0 <= i < k ==> Better(w.Dir(), ls[i].price, price)
        decreases |ls| - k
      {
        assert ls[k] == LevelView(Mem(), lanes[w][k]) && ls[k] in ls;
        cur, k := levelLinks.at[cur].next, k + 1;
      }
      assert k < |ls| ==> ls[k] == LevelView(Mem(), lanes[w][k]);
    }

    /** link_level: before the first worse level, or at the back. */
    method LinkLevel(w: Lane, l: nat) returns (ghost k: nat)
      requires orderLinks != levelLinks && WellLinked(Mem())
      requires l < |levels| && l !in held && levels[l].queue == EMPTY
      requires Sorted(w.Dir(), View(Mem(), w)) && !HasPrice(View(Mem(), w), levels[l].price)
      modifies this`ends, this`lanes, this`held, levelLinks
      ensures LevelIn(old(Mem()), Mem(), w, k, l) && k == Slot(w.Dir(), old(View(Mem(), w)), levels[l].price)
      ensures WellLinked(Mem())
    {
      hide LevelOk, Elsewhere, Sorted, HasPrice, Slot, Chained, Put;
      ghost var m := Mem();
      assert LaneOk(m, w) && l !in lanes[w];
      var cur;
      cur, k := FirstWorse(w, levels[l].price);
      assert k <= |lanes[w]|;
      var e;
      if cur != NIL {
        e := levelLinks.InsertBefore(ends[w], cur, l, lanes[w], k);
      } else {
        e := levelLinks.PushBack(ends[w], l, lanes[w]);
        AtBack(lanes[w], l);
      }
      ends, lanes, held := ends[w := e], lanes[w := Put(lanes[w], k, l)], held[l := Held(w, [])];
      InLinked(m, Mem(), w, k, l);
    }

    /** unlink_level. */
    method UnlinkLevel(w: Lane, l: nat, ghost k: nat)
      requires orderLinks != levelLinks && WellLinked(Mem())
      requires w in lanes && k < |lanes[w]| && lanes[w][k] == l && l in held && held[l].queue == []
      modifies this`ends, this`lanes, this`held, levelLinks
      ensures LevelOut(old(Mem()), Mem(), w, k, l) && WellLinked(Mem())
    {
      hide LevelOk, Elsewhere;
      ghost var m := Mem();
      assert LaneOk(m, w);
      var e := levelLinks.Remove(ends[w], l, lanes[w], k);
      ends, lanes, held := ends[w := e], lanes[w := Cut(lanes[w], k)], held - {l};
      OutLinked(m, Mem(), w, k, l);
    }

    /** Append an order to a level's queue. */
    method Enqueue(w: Lane, l: nat, p: nat, ghost k: nat)
      requires orderLinks != levelLinks && WellLinked(Mem()) && OnList(Mem(), w, k, l)
      requires p < |orders| && Loose(Mem(), p) && orders[p].order.side == w.side
      modifies this`orders, this`levels, this`held, orderLinks
      ensures orders == old(orders)[p := old(orders)[p].(level := l)] && |levels| == |old(levels)|
      ensures held.Keys == old(held).Keys && Seated(Mem()) == old(Seated(Mem())) + {p}
      ensures LastOf(Mem(), w, k, p)
      ensures k < |old(View(Mem(), w))|
      ensures var ls, o := old(View(Mem(), w)), old(orders)[p].order;
        Changes(old(Mem()), Mem(), w, ls[k := Level(ls[k].price, ls[k].total + o.remaining, ls[k].count + 1, ls[k].orders + [o])])
    {
      hide WellLinked, LevelOk, Requeued, Chained, Elsewhere, Distinct, Changes, Seated;
      ghost var m := Mem();
      ShownAt(m, w, k, l);
      ChainOf(m, l);
      ghost var q := held[l].queue;
      var lv := levels[l];
      var e := orderLinks.PushBack(lv.queue, p, q);
      orders := orders[p := orders[p].(level := l)];
      levels := levels[l := lv.(queue := e, total := lv.total + orders[p].order.remaining, count := lv.count + 1)];
      held := held[l := held[l].(queue := q + [p])];
      Appended(m, Mem(), w, k, l, p);
      EnqueueDone(m, Mem(), w, k, l, p);
    }

    /** The level for a price: the one there is, or the spare one initialised and linked. */
    method OpenLevel(w: Lane, price: int, spare: nat) returns (used: nat, ghost k: nat, ghost mid: seq<Level>)
      requires Valid() && spare < |levels| && spare !in held
      modifies this`levels, this`ends, this`lanes, this`held, levelLinks
      ensures Changes(old(Mem()), Mem(), w, mid) && Opened(w.Dir(), old(View(Mem(), w)), mid, k, price) && OnList(Mem(), w, k, used)
      ensures used == spare <==> !HasPrice(old(View(Mem(), w)), price)
      ensures used == spare || used in old(held)
      ensures held.Keys == old(held).Keys + {used} && Seated(Mem()) == old(Seated(Mem())) && |levels| == |old(levels)|
    {
      hide WellLinked, LevelOk, Chained, Elsewhere, Distinct, Changes, Seated, WellFormed, Sorted, HasPrice, Slot;
      ghost var m := Mem();
      ghost var ls := View(m, w);
      ListOk(m, w);
      var l;
      l, k := FindLevel(w, price);
      if l == NIL {
        used := spare;
        levels := levels[used := LevelSlot(price, 0, 0, EMPTY)];
        levelLinks.at := levelLinks.at[used := Link(NIL, NIL)];
        SpareWrite(m, Mem(), used);
        ghost var m1 := Mem();
        k := LinkLevel(w, used);
        LinkDone(m, m1, Mem(), w, k, used);
        mid := ls[..k] + [Level(price, 0, 0, [])] + ls[k..];
      } else {
        used, mid := l, ls;
        SameChanges(m, w);
        ListedAt(m, w, k, used);
      }
    }

    /** insert_order and insert_stop: at the back of the queue at the order's price, in a level of
        that price or, failing that, in the spare level. */
    method Insert(w: Lane, p: nat, spare: nat) returns (used: nat, ghost k: nat)
      requires Valid() && p < |orders| && Loose(Mem(), p) && orders[p].order.side == w.side
      requires spare < |levels| && spare !in held
      modifies this, orderLinks, levelLinks
      ensures Valid() && |levels| == |old(levels)|
      ensures Changes(old(Mem()), Mem(), w, Levels.Insert(w.Dir(), old(View(Mem(), w)), old(orders[p].order.price), old(orders[p].order)))
      ensures used == spare <==> !HasPrice(old(View(Mem(), w)), old(orders[p].order.price))
      ensures used == spare || used in old(held)
      ensures held.Keys == old(held).Keys + {used} && Seated(Mem()) == old(Seated(Mem())) + {p}
      ensures orders == old(orders)[p := old(orders)[p].(level := used)]
      ensures k == Slot(w.Dir(), old(View(Mem(), w)), old(orders[p].order.price))
      ensures LastOf(Mem(), w, k, p)
    {
      hide WellLinked, LevelOk, Changes, WellFormed, HasPrice, Opened, Levels.Insert, Slot, LastOf;
      ghost var m := Mem();
      ghost var mid;
      used, k, mid := OpenLevel(w, orders[p].order.price, spare);
      ghost var m1 := Mem();
      ViewIs(m, m1, w, mid);
      OpenedSlot(m, w, mid, k, orders[p].order.price);
      assert p !in Seated(m1);
      Enqueue(w, used, p, k);
      ghost var o, lv := orders[p].order, mid[k];
      InsertDone(m, m1, Mem(), w, k, mid, mid[k := Level(lv.price, lv.total + o.remaining, lv.count + 1, lv.orders + [o])], o);
    }

    /** Take an order out of its level's queue; the level stays linked. */
    method Dequeue(l: nat, p: nat, ghost w: Lane, ghost k: nat, ghost j: nat)
      requires orderLinks != levelLinks && WellLinked(Mem()) && OnList(Mem(), w, k, l) && Sits(Mem(), w, k, j, p)
      modifies this`levels, this`held, orderLinks
      ensures |levels| == |old(levels)| && l < |levels| && l in held && held[l] == Held(w, Cut(old(held)[l].queue, j))
      ensures held.Keys == old(held).Keys && Seated(Mem()) == old(Seated(Mem())) - {p}
      ensures k < |old(View(Mem(), w))| && j < |old(View(Mem(), w))[k].orders| && levels[l].count == old(View(Mem(), w))[k].count - 1
      ensures WellLinked(Mem()) && Changes(old(Mem()), Mem(), w, Taken(old(View(Mem(), w)), k, j))
    {
      hide WellLinked, LevelOk, Requeued, Chained, Elsewhere, Distinct, Changes, Seated;
      ghost var m := Mem();
      ShownAt(m, w, k, l);
      ChainOf(m, l);
      ghost var q := held[l].queue;
      assert p in q;
      var lv := levels[l];
      var e := orderLinks.Remove(lv.queue, p, q, j);
      levels := levels[l := lv.(queue := e, total := lv.total - orders[p].order.remaining, count := lv.count - 1)];
      held := held[l := held[l].(queue := Cut(q, j))];
      Dequeued(m, Mem(), w, k, l, j);
      DequeueDone(m, Mem(), w, k, l, j);
    }

    /** remove_order: out of its queue, and its level out of the list if it was the last.  Returns
        the slot of the level so unlinked. */
    method RemoveOrder(p: nat, ghost w: Lane, ghost k: nat, ghost j: nat) returns (freed: int)
      requires Valid() && Sits(Mem(), w, k, j, p) && !w.stop
      modifies this, orderLinks, levelLinks
      ensures Valid() && Removed(old(Mem()), Mem(), w, k, j, p, freed)
      ensures |levels| == |old(levels)| && p < |old(orders)| && orders == old(orders)[p := old(orders)[p].(level := NIL)]
    {
      hide WellLinked, LevelOk, Loose, Chained, Elsewhere, Distinct, Changes, Seated, WellFormed, Without, Removed, Cut;
      ghost var m := Mem();
      SeatOf(m, w, k, j, p);
      var l := orders[p].level;
      Dequeue(l, p, w, k, j);
      ghost var m1 := Mem();
      CountTells(m, w, k, j);
      freed := NIL;
      if levels[l].count == 0 {
        NowEmpty(m, w, k, j, l);
        UnlinkLevel(Lane(false, orders[p].order.side), l, k);
        freed := l;
        RemoveLast(m, m1, Mem(), w, k, j, p, l);
      } else {
        RemoveOne(m, m1, w, k, j, p);
      }
      ghost var m2 := Mem();
      orders := orders[p := orders[p].(level := NIL)];
      LooseNow(m2, p);
      LooseWrite(m2, Mem(), p);
      RemovedWrite(m, m2, Mem(), w, k, j, p, freed);
    }

    /** remove_stop: the same, the side found by looking for the level among the buy stops; the
        order keeps its stale back-pointer. */
    method RemoveStop(p: nat, ghost w: Lane, ghost k: nat, ghost j: nat) returns (freed: int)
      requires Valid() && Sits(Mem(), w, k, j, p) && w.stop
      modifies this, orderLinks, levelLinks
      ensures Valid() && Removed(old(Mem()), Mem(), w, k, j, p, freed)
      ensures |levels| == |old(levels)| && orders == old(orders)
    {
      hide WellLinked, LevelOk, Loose, Chained, Elsewhere, Distinct, Changes, Seated, WellFormed, Without, Removed, Cut;
      ghost var m := Mem();
      SeatOf(m, w, k, j, p);
      var l := orders[p].level;
      Dequeue(l, p, w, k, j);
      ghost var m1 := Mem();
      CountTells(m, w, k, j);
      freed := NIL;
      if levels[l].count == 0 {
        NowEmpty(m, w, k, j, l);
        var buy := AmongBuyStops(l);
        UnlinkLevel(Lane(true, if buy then Buy else Sell), l, k);
        freed := l;
        RemoveLast(m, m1, Mem(), w, k, j, p, l);
      } else {
        RemoveOne(m, m1, w, k, j, p);
      }
    }

    /** Whether a stop level is one of the buy stops. */
    method AmongBuyStops(l: nat) returns (found: bool)
      requires WellLinked(Mem()) && l in held && held[l].lane.stop
      ensures found <==> held[l].lane == Lane(true, Buy)
    {
      hide LevelOk;
      var w := Lane(true, Buy);
      assert LaneOk(Mem(), w);
      var at := ends[w].head;
      ghost var k := 0;
      while at != NIL
        invariant k <= |lanes[w]| && at == At(lanes[w], k) && l !in lanes[w][..k]
        decreases |lanes[w]| - k
      {
        if at == l { assert l in lanes[w]; return true; }
        assert lanes[w][..k+1] == lanes[w][..k] + [lanes[w][k]];
        at, k := levelLinks.at[at].next, k + 1;
      }
      assert lanes[w][..k] == lanes[w];
      return false;
    }

    /** Show an exhausted iceberg's next tranche at the back of its queue. */
    method Requeue(p: nat, next: int, ghost w: Lane, ghost k: nat, ghost j: nat)
      requires Valid() && Sits(Mem(), w, k, j, p) && p < |orders| && orders[p].order.remaining == 0
      modifies this`orders, this`levels, this`held, orderLinks
      ensures Valid() && k < |old(View(Mem(), w))| && j < |old(View(Mem(), w))[k].orders|
      ensures var ls := old(View(Mem(), w));
        Changes(old(Mem()), Mem(), w, PutQueue(ls, k, Without(ls[k].orders, j) + [ls[k].orders[j].(remaining := next)]))
      ensures held.Keys == old(held).Keys && Seated(Mem()) == old(Seated(Mem())) && |levels| == |old(levels)|
      ensures orders == old(orders)[p := old(orders)[p].(order := old(orders)[p].order.(remaining := next))]
    {
      hide WellLinked, LevelOk, Requeued, Chained, Elsewhere, Distinct, Changes, Seated, WellFormed, Cut, Without;
      ghost var m := Mem();
      SeatOf(m, w, k, j, p);
      orders := orders[p := orders[p].(order := orders[p].order.(remaining := next))];
      var l := orders[p].level;
      ShownAt(m, w, k, l);
      ChainOf(m, l);
      ghost var q := held[l].queue;
      var lv := levels[l];
      var e := orderLinks.Remove(lv.queue, p, q, j);
      ghost var at1 := orderLinks.at;
      CutLoses(m, l, j);
      SameSize(m.orderLinks, at1, q);
      e := orderLinks.PushBack(e, p, Cut(q, j));
      levels := levels[l := lv.(queue := e, total := lv.total + next)];
      held := held[l := held[l].(queue := Cut(q, j) + [p])];
      Moved(m, at1, Mem(), w, k, l, j, orders[p].order);
      MoveDone(m, Mem(), w, k, l, j, orders[p].order);
    }

    /** Rewrite an order where it stands, keeping its level's total in step. */
    method Rewrite(p: nat, o: Order, ghost w: Lane, ghost k: nat, ghost j: nat)
      requires Valid() && Sits(Mem(), w, k, j, p) && p < |orders| && o.side == orders[p].order.side
      modifies this`orders, this`levels
      ensures Valid() && k < |old(View(Mem(), w))| && j < |old(View(Mem(), w))[k].orders|
      ensures var ls := old(View(Mem(), w)); Changes(old(Mem()), Mem(), w, PutQueue(ls, k, ls[k].orders[j := o]))
      ensures Seated(Mem()) == old(Seated(Mem())) && |levels| == |old(levels)|
      ensures orders == old(orders)[p := old(orders)[p].(order := o)]
    {
      hide WellLinked, LevelOk, Requeued, Chained, Elsewhere, Distinct, Changes, Seated, WellFormed;
      ghost var m := Mem();
      SeatOf(m, w, k, j, p);
      var l := orders[p].level;
      ShownAt(m, w, k, l);
      levels := levels[l := levels[l].(total := levels[l].total - orders[p].order.remaining + o.remaining)];
      orders := orders[p := orders[p].(order := o)];
      Rewritten(m, Mem(), w, k, l, j, o);
      RewriteDone(m, Mem(), w, k, l, j, o);
    }
  }

  lemma SameSize(before: seq<Link>, at: seq<Link>, nodes: seq<nat>)
    requires Elsewhere(before, at, nodes)
    ensures |at| == |before|
  {
  }

  lemma CutLoses(m: Memory, l: nat, j: nat)
    requires l in m.held && LevelOk(m, l) && j < |m.held[l].queue|
    ensures m.held[l].queue[j] !in Cut(m.held[l].queue, j)
  {
    CutOf(m.held[l].queue, j);
  }

  lemma ThroughBoth(a: seq<Link>, b: seq<Link>, c: seq<Link>, nodes: seq<nat>, more: seq<nat>)
    requires Elsewhere(a, b, nodes) && Elsewhere(b, c, more)
    ensures Elsewhere(a, c, nodes + more)
  {
  }

  lemma Moved(m0: Memory, mid: seq<Link>, m: Memory, w: Lane, k: nat, l: nat, j: nat, o: Order)
    requires WellLinked(m0) && OnList(m0, w, k, l) && Shown(m0, l) && j < |m0.held[l].queue| && o.side == w.side
    requires l < |m0.levels| && l < |m.levels| && m.levels == m0.levels[l := m.levels[l]]
    requires var q := m0.held[l].queue; q[j] < |m0.orders| && m == m0.(
      orders := m0.orders[q[j] := OrderSlot(o, l)], orderLinks := m.orderLinks, levels := m.levels,
      held := m0.held[l := m0.held[l].(queue := Cut(q, j) + [q[j]])])
    requires Chained(m.orderLinks, m.levels[l].queue, Cut(m0.held[l].queue, j) + [m0.held[l].queue[j]])
    requires Elsewhere(m0.orderLinks, mid, m0.held[l].queue)
    requires Elsewhere(mid, m.orderLinks, Cut(m0.held[l].queue, j) + [m0.held[l].queue[j]])
    ensures Requeued(m0, m, l, Cut(m0.held[l].queue, j) + [m0.held[l].queue[j]])
  {
    hide Chained, Elsewhere;
    var q := m0.held[l].queue;
    var q' := Cut(q, j) + [q[j]];
    ShownAt(m0, w, k, l);
    OrdersCut(m0.orders, q, j);
    ThroughBoth(m0.orderLinks, mid, m.orderLinks, q, q');
    assert q[j] in q;
    forall x | x in q' ensures x in q && Points(m, l, w, x) { assert x in q && Points(m0, l, w, x); }
    assert LevelOk(m, l);
  }

  lemma MoveDone(m0: Memory, m: Memory, w: Lane, k: nat, l: nat, j: nat, o: Order)
    requires Sound(m0) && OnList(m0, w, k, l) && Shown(m0, l) && j < |m0.held[l].queue|
    requires Requeued(m0, m, l, Cut(m0.held[l].queue, j) + [m0.held[l].queue[j]])
    requires m0.held[l].queue[j] < |m0.orders| && m.orders == m0.orders[m0.held[l].queue[j] := OrderSlot(o, l)]
    requires m0.orders[m0.held[l].queue[j]].order.remaining == 0
    requires l < |m.levels| && m.levels[l].price == m0.levels[l].price && m.levels[l].count == m0.levels[l].count
    requires m.levels[l].total == m0.levels[l].total + o.remaining
    ensures Sound(m) && k < |View(m0, w)| && j < |View(m0, w)[k].orders|
    ensures Changes(m0, m, w, PutQueue(View(m0, w), k, Without(View(m0, w)[k].orders, j) + [o]))
    ensures m.held.Keys == m0.held.Keys && Seated(m) == Seated(m0)
  {
    hide WellLinked, LevelOk, Requeued, Distinct, Cut, Changes, Seated, Without, WellFormed;
    var q := m0.held[l].queue;
    ListOk(m0, w);
    DistinctQueue(m0, l);
    RequeuedLinked(m0, m, l, Cut(q, j) + [q[j]]);
    MoveView(m0, m, w, k, l, j, o);
    ShownAt(m0, w, k, l);
    RequeuedAside(m0, m, l, Cut(q, j) + [q[j]]);
    CachesAt(w.Dir(), View(m0, w), k);
    MoveParts(View(m0, w), k, j, o);
    PutWellFormed(w.Dir(), View(m0, w), k, Without(View(m0, w)[k].orders, j) + [o]);
    SoundAfter(m0, m, w, PutQueue(View(m0, w), k, Without(View(m0, w)[k].orders, j) + [o]));
    SameSeated(m0, m, l, Cut(q, j) + [q[j]], j);
  }

  lemma SameSeated(m0: Memory, m: Memory, l: nat, queue: seq<nat>, j: nat)
    requires WellLinked(m0) && Shown(m0, l) && j < |m0.held[l].queue| && Requeued(m0, m, l, queue)
    requires queue == m0.held[l].queue || queue == Cut(m0.held[l].queue, j) + [m0.held[l].queue[j]]
    ensures Seated(m) == Seated(m0)
  {
    var q := m0.held[l].queue;
    DistinctQueue(m0, l);
    CutOf(q, j);
    assert q[j] in q;
    hide WellLinked, LevelOk, Requeued, Distinct, Cut, Seated;
    RequeuedSeated(m0, m, l, queue);
    QueueSeated(m0, l);
  }

  lemma Rewritten(m0: Memory, m: Memory, w: Lane, k: nat, l: nat, j: nat, o: Order)
    requires WellLinked(m0) && OnList(m0, w, k, l) && Shown(m0, l) && j < |m0.held[l].queue| && o.side == w.side
    requires l < |m0.levels| && l < |m.levels| && m.levels == m0.levels[l := m.levels[l]] && m.levels[l].queue == m0.levels[l].queue
    requires m0.held[l].queue[j] < |m0.orders|
    requires m == m0.(orders := m0.orders[m0.held[l].queue[j] := OrderSlot(o, l)], levels := m.levels)
    ensures Requeued(m0, m, l, m0.held[l].queue)
  {
    hide Chained;
    var q := m0.held[l].queue;
    ShownAt(m0, w, k, l);
    assert q[j] in q && m0.held[l := m0.held[l].(queue := q)] == m0.held;
    forall x | x in q ensures Points(m, l, w, x) { assert Points(m0, l, w, x); }
    assert LevelOk(m, l);
  }

  lemma RewriteDone(m0: Memory, m: Memory, w: Lane, k: nat, l: nat, j: nat, o: Order)
    requires Sound(m0) && OnList(m0, w, k, l) && Shown(m0, l) && j < |m0.held[l].queue|
    requires Requeued(m0, m, l, m0.held[l].queue)
    requires m0.held[l].queue[j] < |m0.orders| && m.orders == m0.orders[m0.held[l].queue[j] := OrderSlot(o, l)]
    requires l < |m.levels| && m.levels[l].price == m0.levels[l].price && m.levels[l].count == m0.levels[l].count
    requires m.levels[l].total == m0.levels[l].total - m0.orders[m0.held[l].queue[j]].order.remaining + o.remaining
    ensures Sound(m) && k < |View(m0, w)| && j < |View(m0, w)[k].orders|
    ensures Changes(m0, m, w, PutQueue(View(m0, w), k, View(m0, w)[k].orders[j := o])) && Seated(m) == Seated(m0)
  {
    hide WellLinked, LevelOk, Requeued, Distinct, Changes, Seated, WellFormed;
    var q := m0.held[l].queue;
    ListOk(m0, w);
    DistinctQueue(m0, l);
    RequeuedLinked(m0, m, l, q);
    RewriteView(m0, m, w, k, l, j, o);
    ShownAt(m0, w, k, l);
    RewriteParts(w.Dir(), View(m0, w), k, j, o);
    PutWellFormed(w.Dir(), View(m0, w), k, View(m0, w)[k].orders[j := o]);
    SoundAfter(m0, m, w, PutQueue(View(m0, w), k, View(m0, w)[k].orders[j := o]));
    SameSeated(m0, m, l, q, j);
  }

  lemma CachesAt(dir: Side, ls: seq<Level>, k: nat)
    requires WellFormed(dir, ls) && k < |ls|
    ensures CachesOk(ls[k])
  {
    assert ls[k] in ls;
  }

  lemma RewriteParts(dir: Side, ls: seq<Level>, k: nat, j: nat, o: Order)
    requires WellFormed(dir, ls) && k < |ls| && j < |ls[k].orders|
    ensures PutQueue(ls, k, ls[k].orders[j := o]) ==
      ls[k := Level(ls[k].price, ls[k].total - ls[k].orders[j].remaining + o.remaining, ls[k].count, ls[k].orders[j := o])]
  {
    assert CachesOk(ls[k]);
    SumRemUpdate(ls[k].orders, j, o);
  }

  /** Order j of level k of list w, in slot p, has left its queue, and its level, named by `freed`,
      the list if it is now empty. */
  ghost predicate Removed(m0: Memory, m: Memory, w: Lane, k: nat, j: nat, p: nat, freed: int) {
    && WellLinked(m0) && k < |View(m0, w)| && j < |View(m0, w)[k].orders|
    && Changes(m0, m, w, PutQueue(View(m0, w), k, Without(View(m0, w)[k].orders, j)))
    && (freed != NIL <==> |View(m0, w)[k].orders| == 1) && (freed != NIL ==> freed >= 0 && freed in m0.held)
    && m.held.Keys == m0.held.Keys - {freed} && Seated(m) == Seated(m0) - {p}
  }

  /** A seated order's back-pointer leads to its level. */
  lemma SeatOf(m: Memory, w: Lane, k: nat, j: nat, p: nat)
    requires WellLinked(m) && Sits(m, w, k, j, p)
    ensures p < |m.orders| && m.orders[p].order.side == w.side
    ensures 0 <= m.orders[p].level < |m.levels| && OnList(m, w, k, m.orders[p].level)
    ensures k < |View(m, w)| && j < |View(m, w)[k].orders| && View(m, w)[k].orders[j] == m.orders[p].order
  {
    var l := m.lanes[w][k];
    ShownAt(m, w, k, l);
    assert p in m.held[l].queue && Points(m, l, w, p);
  }

  lemma CountTells(m: Memory, w: Lane, k: nat, j: nat)
    requires Sound(m) && k < |View(m, w)| && j < |View(m, w)[k].orders|
    ensures View(m, w)[k].count == |View(m, w)[k].orders|
  {
    ListOk(m, w);
    hide WellLinked;
    assert View(m, w)[k] in View(m, w);
  }

  lemma PutParts(dir: Side, ls: seq<Level>, k: nat, j: nat)
    requires WellFormed(dir, ls) && k < |ls| && j < |ls[k].orders|
    ensures var r := Taken(ls, k, j);
      PutQueue(ls, k, Without(ls[k].orders, j)) == if |ls[k].orders| == 1 then r[..k] + r[k+1..] else r
  {
    assert CachesOk(ls[k]);
    SumRemWithout(ls[k].orders, j);
  }

  lemma NowEmpty(m: Memory, w: Lane, k: nat, j: nat, l: nat)
    requires WellLinked(m) && OnList(m, w, k, l) && k < |View(m, w)| && |View(m, w)[k].orders| == 1 && j < 1
    ensures l in m.held && j < |m.held[l].queue| && Cut(m.held[l].queue, j) == []
  {
    ShownAt(m, w, k, l);
  }

  /** List k of `ls` with order j taken out, before an empty level is unlinked. */
  ghost function Taken(ls: seq<Level>, k: nat, j: nat): seq<Level>
    requires k < |ls| && j < |ls[k].orders|
  {
    ls[k := Level(ls[k].price, ls[k].total - ls[k].orders[j].remaining, ls[k].count - 1, Without(ls[k].orders, j))]
  }

  lemma TakenOk(dir: Side, ls: seq<Level>, k: nat, j: nat)
    requires WellFormed(dir, ls) && k < |ls| && j < |ls[k].orders|
    ensures |Taken(ls, k, j)| == |ls| && WellFormed(dir, PutQueue(ls, k, Without(ls[k].orders, j)))
    ensures |ls[k].orders| != 1 ==> Taken(ls, k, j) == PutQueue(ls, k, Without(ls[k].orders, j))
    ensures |ls[k].orders| == 1 ==> Taken(ls, k, j)[..k] + Taken(ls, k, j)[k+1..] == PutQueue(ls, k, Without(ls[k].orders, j))
  {
    hide WellFormed;
    PutParts(dir, ls, k, j);
    PutWellFormed(dir, ls, k, Without(ls[k].orders, j));
  }

  lemma RemoveOne(m0: Memory, m: Memory, w: Lane, k: nat, j: nat, p: nat)
    requires Sound(m0) && k < |View(m0, w)| && j < |View(m0, w)[k].orders| && |View(m0, w)[k].orders| != 1
    requires Changes(m0, m, w, Taken(View(m0, w), k, j)) && m.held.Keys == m0.held.Keys && Seated(m) == Seated(m0) - {p}
    ensures Sound(m) && Removed(m0, m, w, k, j, p, NIL) && p !in Seated(m)
  {
    hide Changes, WellFormed, Sorted, Seated, Sound, WellLinked, LevelOk, Without, Taken, PutQueue, Shown;
    ListOk(m0, w);
    TakenOk(w.Dir(), View(m0, w), k, j);
    SoundAfter(m0, m, w, Taken(View(m0, w), k, j));
  }

  lemma RemoveLast(m0: Memory, m1: Memory, m: Memory, w: Lane, k: nat, j: nat, p: nat, l: nat)
    requires Sound(m0) && k < |View(m0, w)| && j < |View(m0, w)[k].orders| && |View(m0, w)[k].orders| == 1
    requires Changes(m0, m1, w, Taken(View(m0, w), k, j)) && m1.held.Keys == m0.held.Keys && Seated(m1) == Seated(m0) - {p}
    requires LevelOut(m1, m, w, k, l) && WellLinked(m)
    ensures Sound(m) && Removed(m0, m, w, k, j, p, l) && p !in Seated(m)
  {
    hide Changes, WellFormed, Sorted, Seated, Sound, WellLinked, LevelOk, Without, Taken, PutQueue, Shown, Chained, Elsewhere;
    OutFields(m1, m, w, k, l);
    assert m.held.Keys == m1.held.Keys - {l} && l in m1.held.Keys;
    hide LevelOut;
    ListOk(m0, w);
    var ls := View(m0, w);
    var r := Taken(ls, k, j);
    TakenOk(w.Dir(), ls, k, j);
    ViewIs(m0, m1, w, r);
    OutChanges(m1, m, w, k, l);
    OutSeated(m1, m, w, k, l);
    ChangesTrans(m0, m1, m, w, r, r[..k] + r[k+1..]);
    SoundAfter(m0, m, w, r[..k] + r[k+1..]);
  }

  lemma OutChanges(m0: Memory, m: Memory, w: Lane, k: nat, l: nat)
    requires WellLinked(m0) && WellLinked(m) && LevelOut(m0, m, w, k, l)
    ensures k < |View(m0, w)| && Changes(m0, m, w, View(m0, w)[..k] + View(m0, w)[k+1..])
  {
    hide WellLinked, LevelOut;
    OutView(m0, m, w, k, l);
  }

  lemma LooseNow(m: Memory, p: nat)
    requires p < |m.orders| && p !in Seated(m)
    ensures Loose(m, p)
  {
  }

  lemma RemovedWrite(m0: Memory, m1: Memory, m: Memory, w: Lane, k: nat, j: nat, p: nat, freed: int)
    requires Sound(m1) && Removed(m0, m1, w, k, j, p, freed)
    requires WellLinked(m) && (forall v :: View(m, v) == View(m1, v)) && Seated(m) == Seated(m1) && m.held == m1.held
    ensures Sound(m) && Removed(m0, m, w, k, j, p, freed)
  {
    hide WellLinked, WellFormed, Seated;
    assert forall v: Lane :: WellFormed(v.Dir(), View(m1, v));
  }

  lemma Dequeued(m0: Memory, m: Memory, w: Lane, k: nat, l: nat, j: nat)
    requires WellLinked(m0) && OnList(m0, w, k, l) && Shown(m0, l) && j < |m0.held[l].queue|
    requires l < |m0.levels| && l < |m.levels| && m.levels == m0.levels[l := m.levels[l]]
    requires m == m0.(orderLinks := m.orderLinks, levels := m.levels, held := m0.held[l := m0.held[l].(queue := Cut(m0.held[l].queue, j))])
    requires Chained(m.orderLinks, m.levels[l].queue, Cut(m0.held[l].queue, j))
    requires Elsewhere(m0.orderLinks, m.orderLinks, m0.held[l].queue)
    ensures Requeued(m0, m, l, Cut(m0.held[l].queue, j))
  {
    hide Chained, Elsewhere;
    var q := m0.held[l].queue;
    ShownAt(m0, w, k, l);
    OrdersCut(m0.orders, q, j);
    Wider(m0.orderLinks, m.orderLinks, q, q + Cut(q, j));
    forall x | x in Cut(q, j) ensures Points(m, l, w, x) { assert Points(m0, l, w, x); }
    assert LevelOk(m, l);
  }

  lemma DequeueDone(m0: Memory, m: Memory, w: Lane, k: nat, l: nat, j: nat)
    requires WellLinked(m0) && OnList(m0, w, k, l) && Shown(m0, l) && j < |m0.held[l].queue|
    requires Requeued(m0, m, l, Cut(m0.held[l].queue, j)) && m.orders == m0.orders
    requires m0.held[l].queue[j] < |m0.orders| && l < |m.levels| && m.levels[l].price == m0.levels[l].price
    requires m.levels[l].total == m0.levels[l].total - m0.orders[m0.held[l].queue[j]].order.remaining
    requires m.levels[l].count == m0.levels[l].count - 1
    ensures m.held.Keys == m0.held.Keys && Seated(m) == Seated(m0) - {m0.held[l].queue[j]}
    ensures k < |View(m0, w)| && j < |View(m0, w)[k].orders| && m.levels[l].count == View(m0, w)[k].count - 1
    ensures WellLinked(m) && Changes(m0, m, w, Taken(View(m0, w), k, j))
  {
    hide WellLinked, LevelOk, Requeued, Distinct, Cut, Changes, Seated, Without;
    var q := m0.held[l].queue;
    RequeuedLinked(m0, m, l, Cut(q, j));
    CutView(m0, m, w, k, l, j);
    ShownAt(m0, w, k, l);
    RequeuedAside(m0, m, l, Cut(q, j));
    CutSeated(m0, m, l, j);
  }

  lemma CutSeated(m0: Memory, m: Memory, l: nat, j: nat)
    requires WellLinked(m0) && Shown(m0, l) && j < |m0.held[l].queue| && Requeued(m0, m, l, Cut(m0.held[l].queue, j))
    ensures Seated(m) == Seated(m0) - {m0.held[l].queue[j]}
  {
    var q := m0.held[l].queue;
    DistinctQueue(m0, l);
    CutOf(q, j);
    hide WellLinked, LevelOk, Requeued, Distinct, Cut, Seated;
    RequeuedSeated(m0, m, l, Cut(q, j));
    QueueSeated(m0, l);
  }

  lemma DistinctQueue(m: Memory, l: nat)
    requires l in m.held && LevelOk(m, l)
    ensures Distinct(m.held[l].queue)
  {
  }

  lemma ListOk(m: Memory, w: Lane)
    requires Sound(m)
    ensures WellLinked(m) && |m.levelLinks| == |m.levels| && WellFormed(w.Dir(), View(m, w)) && Sorted(w.Dir(), View(m, w))
  {
  }

  lemma ViewIs(m0: Memory, m: Memory, w: Lane, ls: seq<Level>)
    requires Changes(m0, m, w, ls)
    ensures WellLinked(m) && View(m, w) == ls
  {
  }

  lemma ListedAt(m: Memory, w: Lane, k: nat, l: nat)
    requires WellLinked(m) && OnList(m, w, k, l)
    ensures l in m.held
  {
    ShownAt(m, w, k, l);
  }

  lemma SameChanges(m: Memory, w: Lane)
    requires WellLinked(m)
    ensures Changes(m, m, w, View(m, w))
  {
  }

  lemma LinkDone(m0: Memory, m1: Memory, m: Memory, w: Lane, k: nat, l: nat)
    requires WellLinked(m0) && WellLinked(m1) && (forall v :: View(m1, v) == View(m0, v)) && Seated(m1) == Seated(m0)
    requires WellLinked(m) && LevelIn(m1, m, w, k, l) && m1.held == m0.held && m1.orders == m0.orders
    ensures k <= |View(m0, w)| && l < |m.levels|
    ensures Changes(m0, m, w, View(m0, w)[..k] + [Level(m.levels[l].price, m.levels[l].total, m.levels[l].count, [])] + View(m0, w)[k..])
    ensures m.held.Keys == m0.held.Keys + {l} && Seated(m) == Seated(m0) && OnList(m, w, k, l) && m.orders == m0.orders
  {
    hide WellLinked, LevelOk;
    InView(m1, m, w, k, l);
    InSeated(m1, m, w, k, l);
  }

  ghost predicate Appends(mid: seq<Level>, r: seq<Level>, k: nat, o: Order) {
    && k < |mid|
    && r == mid[k := Level(mid[k].price, mid[k].total + o.remaining, mid[k].count + 1, mid[k].orders + [o])]
  }

  /** Appending to the level found, or to the one just linked, inserts the order. */
  lemma InsertDone(m0: Memory, m1: Memory, m: Memory, w: Lane, k: nat, mid: seq<Level>, r: seq<Level>, o: Order)
    requires Sound(m0) && Changes(m0, m1, w, mid) && Changes(m1, m, w, r) && Appends(mid, r, k, o)
    requires Opened(w.Dir(), View(m0, w), mid, k, o.price)
    ensures Sound(m) && Changes(m0, m, w, Levels.Insert(w.Dir(), View(m0, w), o.price, o))
  {
    hide *;
    ListOk(m0, w);
    InsertParts(w.Dir(), View(m0, w), mid, r, k, o);
    InsertOk(w.Dir(), View(m0, w), o.price, o);
    ChangesTrans(m0, m1, m, w, mid, r);
    SoundAfter(m0, m, w, r);
  }

  lemma SoundAfter(m0: Memory, m: Memory, w: Lane, ls: seq<Level>)
    requires Sound(m0) && Changes(m0, m, w, ls) && WellFormed(w.Dir(), ls)
    ensures Sound(m)
  {
    hide WellLinked, WellFormed;
    forall v: Lane ensures WellFormed(v.Dir(), View(m, v)) {
      if v != w { assert WellFormed(v.Dir(), View(m0, v)); }
    }
  }

  /** The list `mid` has at k the level for `price`, found there or freshly linked. */
  ghost predicate Opened(dir: Side, ls: seq<Level>, mid: seq<Level>, k: nat, price: int) {
    || (mid == ls && k < |ls| && ls[k].price == price)
    || (!HasPrice(ls, price) && k == Slot(dir, ls, price) && mid == ls[..k] + [Level(price, 0, 0, [])] + ls[k..])
  }

  lemma OpenedSlot(m: Memory, w: Lane, mid: seq<Level>, k: nat, price: int)
    requires Sound(m) && Opened(w.Dir(), View(m, w), mid, k, price)
    ensures k == Slot(w.Dir(), View(m, w), price)
  {
    ListOk(m, w);
    hide WellLinked, WellFormed;
    if k < |View(m, w)| && View(m, w)[k].price == price { QueueAtLevel(w.Dir(), View(m, w), k); }
  }

  lemma InsertParts(dir: Side, ls: seq<Level>, mid: seq<Level>, r: seq<Level>, k: nat, o: Order)
    requires WellFormed(dir, ls) && Opened(dir, ls, mid, k, o.price) && Appends(mid, r, k, o)
    ensures r == Levels.Insert(dir, ls, o.price, o)
  {
    var price := o.price;
    SlotPrice(dir, ls, price);
    if mid == ls && k < |ls| && ls[k].price == price {
      QueueAtLevel(dir, ls, k);
      SumRemSnoc(ls[k].orders, o);
      assert CachesOk(ls[k]);
    } else {
      assert [] + [o] == [o];
      SumRemSnoc([], o);
      Relink(ls, k, mid[k], MkLevel(price, [o]));
    }
  }

  /** The links of a level's queue. */
  lemma ChainOf(m: Memory, l: nat)
    requires l in m.held && LevelOk(m, l)
    ensures l < |m.levels| && Chained(m.orderLinks, m.levels[l].queue, m.held[l].queue)
  {
  }

  lemma Appended(m0: Memory, m: Memory, w: Lane, k: nat, l: nat, p: nat)
    requires WellLinked(m0) && OnList(m0, w, k, l) && Shown(m0, l) && p < |m0.orders| && Loose(m0, p) && m0.orders[p].order.side == w.side
    requires l < |m0.levels| && l < |m.levels| && m.levels == m0.levels[l := m.levels[l]]
    requires m == m0.(orders := m0.orders[p := m0.orders[p].(level := l)], orderLinks := m.orderLinks, levels := m.levels,
                      held := m0.held[l := m0.held[l].(queue := m0.held[l].queue + [p])])
    requires Chained(m.orderLinks, m.levels[l].queue, m0.held[l].queue + [p])
    requires Elsewhere(m0.orderLinks, m.orderLinks, m0.held[l].queue + [p])
    ensures Requeued(m0, m, l, m0.held[l].queue + [p])
  {
    hide Chained, Elsewhere;
    var q := m0.held[l].queue;
    ShownAt(m0, w, k, l);
    Wider(m0.orderLinks, m.orderLinks, q + [p], q + (q + [p]));
    forall x | x in q + [p] ensures Points(m, l, w, x) { if x in q { assert Points(m0, l, w, x); } }
    assert LevelOk(m, l);
  }

  lemma EnqueueDone(m0: Memory, m: Memory, w: Lane, k: nat, l: nat, p: nat)
    requires WellLinked(m0) && OnList(m0, w, k, l) && p < |m0.orders| && Loose(m0, p)
    requires Shown(m0, l) && Requeued(m0, m, l, m0.held[l].queue + [p]) && m.orders == m0.orders[p := m0.orders[p].(level := l)]
    requires l < |m.levels| && m.levels[l].price == m0.levels[l].price
    requires m.levels[l].total == m0.levels[l].total + m0.orders[p].order.remaining && m.levels[l].count == m0.levels[l].count + 1
    ensures m.held.Keys == m0.held.Keys && Seated(m) == Seated(m0) + {p}
    ensures k < |View(m0, w)|
    ensures var lv, o := View(m0, w)[k], m0.orders[p].order;
      Changes(m0, m, w, View(m0, w)[k := Level(lv.price, lv.total + o.remaining, lv.count + 1, lv.orders + [o])])
  {
    hide WellLinked, LevelOk, Requeued, Loose, Chained, Elsewhere, OnList, Distinct;
    RequeuedLinked(m0, m, l, m0.held[l].queue + [p]);
    AppendView(m0, m, w, k, l, p);
    RequeuedSeated(m0, m, l, m0.held[l].queue + [p]);
    QueueSeated(m0, l);
    RequeuedAside(m0, m, l, m0.held[l].queue + [p]);
  }

  lemma Wider(before: seq<Link>, at: seq<Link>, nodes: seq<nat>, more: seq<nat>)
    requires Elsewhere(before, at, nodes) && forall p :: p in nodes ==> p in more
    ensures Elsewhere(before, at, more)
  {
  }
}
