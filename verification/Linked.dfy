/**
  The storage behind the four lists of a matching engine: order and price-level slots, the links
  threaded through them, and each order's pointer to its level (exchange-core/types.h,
  exchange-core/orderbook.cc, exchange-core/stop_book.cc).  A pointer is a slot number.
 */
module Linked {
  import opened Types
  import opened Queues
  import opened Levels
  import opened Pool
  import opened Chain

  /** One of the four lists of levels: a side of the order book or of the stop book. */
  datatype Lane = Lane(stop: bool, side: Side) {
    /** Buy stops are listed in ascending, sell stops in descending order. */
    function Dir(): Side { if stop then side.Opposite() else side }
  }

  datatype OrderSlot = OrderSlot(order: Order, level: int)

  datatype LevelSlot = LevelSlot(price: int, total: int, count: int, queue: Ends)

  /** Where a linked level is, and the slots of its orders in time priority. */
  datatype Held = Held(lane: Lane, queue: seq<nat>)

  /** The contents of both pools with the ends of the four lists; `lanes` and `held` tell which slots
      the links are meant to visit. */
  datatype Memory = Memory(
    orders: seq<OrderSlot>, orderLinks: seq<Link>, levels: seq<LevelSlot>, levelLinks: seq<Link>,
    ends: map<Lane, Ends>, lanes: map<Lane, seq<nat>>, held: map<nat, Held>)

  // ---------------------------------------------------------------- well-linked storage

  /** An order of level l's queue points back at l. */
  ghost predicate Points(m: Memory, l: nat, w: Lane, p: nat) {
    p < |m.orders| && m.orders[p].level == l && m.orders[p].order.side == w.side
  }

  ghost predicate LevelOk(m: Memory, l: nat)
    requires l in m.held
  {
    && l < |m.levels| && Chained(m.orderLinks, m.levels[l].queue, m.held[l].queue)
    && forall p :: p in m.held[l].queue ==> Points(m, l, m.held[l].lane, p)
  }

  ghost predicate LaneOk(m: Memory, w: Lane) {
    && w in m.ends && w in m.lanes && Chained(m.levelLinks, m.ends[w], m.lanes[w])
    && forall l :: l in m.lanes[w] <==> l in m.held && m.held[l].lane == w
  }

  ghost predicate WellLinked(m: Memory) {
    && |m.orderLinks| == |m.orders| && |m.levelLinks| == |m.levels|
    && (forall w :: LaneOk(m, w)) && (forall l :: l in m.held ==> LevelOk(m, l))
  }

  /** An order slot in no queue. */
  ghost predicate Loose(m: Memory, p: nat) { forall l :: l in m.held ==> p !in m.held[l].queue }

  // ---------------------------------------------------------------- what the storage stands for

  ghost function Orders(orders: seq<OrderSlot>, queue: seq<nat>): (r: seq<Order>)
    requires forall p :: p in queue ==> p < |orders|
    ensures |r| == |queue| && forall i :: 0 <= i < |r| ==> queue[i] in queue && r[i] == orders[queue[i]].order
  {
    seq(|queue|, i requires 0 <= i < |queue| => assert queue[i] in queue; orders[queue[i]].order)
  }

  ghost function LevelView(m: Memory, l: nat): Level
    requires l in m.held && LevelOk(m, l)
  {
    assert forall p :: p in m.held[l].queue ==> Points(m, l, m.held[l].lane, p);
    Level(m.levels[l].price, m.levels[l].total, m.levels[l].count, Orders(m.orders, m.held[l].queue))
  }

  ghost predicate Shown(m: Memory, x: nat) { x in m.held && LevelOk(m, x) }

  ghost function Views(m: Memory, nodes: seq<nat>): (r: seq<Level>)
    requires forall x :: x in nodes ==> Shown(m, x)
    ensures |r| == |nodes| && forall k :: 0 <= k < |r| ==> Shown(m, nodes[k]) && r[k] == LevelView(m, nodes[k])
  {
    seq(|nodes|, k requires 0 <= k < |nodes| => assert Shown(m, nodes[k]); LevelView(m, nodes[k]))
  }

  /** The sequence of levels a list stands for. */
  ghost function View(m: Memory, w: Lane): (r: seq<Level>)
    requires WellLinked(m)
    ensures w in m.lanes && (forall x :: x in m.lanes[w] ==> Shown(m, x)) && r == Views(m, m.lanes[w])
  {
    assert LaneOk(m, w) && forall x :: x in m.lanes[w] ==> Shown(m, x);
    Views(m, m.lanes[w])
  }

  /** Slot p holds order j of level k of list w. */
  ghost predicate Sits(m: Memory, w: Lane, k: nat, j: nat, p: nat) {
    && w in m.lanes && k < |m.lanes[w]| && m.lanes[w][k] in m.held
    && j < |m.held[m.lanes[w][k]].queue| && m.held[m.lanes[w][k]].queue[j] == p
  }

  /** Slot p holds the last order of level k of list w. */
  ghost predicate LastOf(m: Memory, w: Lane, k: nat, p: nat) {
    && w in m.lanes && k < |m.lanes[w]| && m.lanes[w][k] in m.held && m.held[m.lanes[w][k]].queue != []
    && Sits(m, w, k, |m.held[m.lanes[w][k]].queue| - 1, p)
  }

  /** Every list of the storage is sorted with exact caches and no empty level. */
  ghost predicate Sound(m: Memory) { WellLinked(m) && forall w: Lane :: WellFormed(w.Dir(), View(m, w)) }

  // ---------------------------------------------------------------- changing one queue

  /** Level l has a new queue of its own and loose orders; nothing beside it changed. */
  ghost predicate Requeued(m0: Memory, m: Memory, l: nat, queue: seq<nat>) {
    && l in m0.held && l < |m0.levels| && |m.levels| == |m0.levels|
    && m.levels == m0.levels[l := m.levels[l]] && m.levelLinks == m0.levelLinks
    && m.ends == m0.ends && m.lanes == m0.lanes && m.held == m0.held[l := m0.held[l].(queue := queue)]
    && |m.orders| == |m0.orders| && LevelOk(m, l)
    && Elsewhere(m0.orderLinks, m.orderLinks, m0.held[l].queue + queue)
    && (forall p :: 0 <= p < |m.orders| && p !in m0.held[l].queue && p !in queue ==> m.orders[p] == m0.orders[p])
    && (forall p :: p in queue ==> p in m0.held[l].queue || Loose(m0, p))
  }

  lemma OtherLevel(m0: Memory, m: Memory, l: nat, queue: seq<nat>, x: nat)
    requires WellLinked(m0) && Requeued(m0, m, l, queue) && x in m.held && x != l
    ensures x in m0.held && LevelOk(m, x) && LevelOk(m0, x) && LevelView(m, x) == LevelView(m0, x)
  {
    hide Chained, Elsewhere, WellFormed, LaneOk;
    assert LevelOk(m0, x) && LevelOk(m0, l);
    assert forall p :: p in m0.held[l].queue ==> Points(m0, l, m0.held[l].lane, p);
    forall p | p in m.held[x].queue ensures p !in m0.held[l].queue + queue {
      assert Points(m0, x, m.held[x].lane, p);
    }
    Untouched(m0.orderLinks, m.orderLinks, m0.held[l].queue + queue, m.levels[x].queue, m.held[x].queue);
    forall p | p in m.held[x].queue ensures Points(m, x, m.held[x].lane, p) && m.orders[p] == m0.orders[p] {
      assert Points(m0, x, m.held[x].lane, p);
      assert p !in m0.held[l].queue + queue;
    }
    assert Orders(m.orders, m.held[x].queue) == Orders(m0.orders, m.held[x].queue);
  }

  /** Replacing one queue keeps the links and changes one level of one list. */
  lemma RequeuedLinked(m0: Memory, m: Memory, l: nat, queue: seq<nat>)
    requires WellLinked(m0) && Requeued(m0, m, l, queue)
    ensures WellLinked(m)
  {
    hide Chained, Requeued, LevelOk;
    RequeuedAside(m0, m, l, queue);
    forall x | x in m.held ensures LevelOk(m, x) { if x != l { OtherLevel(m0, m, l, queue, x); } }
    forall w ensures LaneOk(m, w) { assert LaneOk(m0, w); }
  }

  lemma RequeuedAside(m0: Memory, m: Memory, l: nat, queue: seq<nat>)
    requires Requeued(m0, m, l, queue)
    ensures l in m.held && LevelOk(m, l) && m.levelLinks == m0.levelLinks && m.ends == m0.ends && m.lanes == m0.lanes
    ensures |m.levels| == |m0.levels| && |m.orders| == |m0.orders| && |m.orderLinks| == |m0.orderLinks|
    ensures forall x :: x in m.held <==> x in m0.held
    ensures forall x :: x in m.held ==> m.held[x].lane == m0.held[x].lane
    ensures m.held[l].queue == queue
  {
  }

  /** Level x is what it was. */
  ghost predicate Kept(m0: Memory, m: Memory, x: nat) {
    && x in m0.held && x in m.held && m.held[x] == m0.held[x]
    && LevelOk(m, x) && LevelOk(m0, x) && LevelView(m, x) == LevelView(m0, x)
  }

  lemma KeptViews(m0: Memory, m: Memory, nodes: seq<nat>)
    requires forall x :: x in nodes ==> Kept(m0, m, x)
    ensures forall x :: x in nodes ==> Shown(m0, x) && Shown(m, x)
    ensures Views(m, nodes) == Views(m0, nodes)
  {
    hide LevelView, LevelOk;
    assert forall x :: x in nodes ==> Shown(m0, x) && Shown(m, x);
    forall i | 0 <= i < |nodes| ensures Views(m, nodes)[i] == Views(m0, nodes)[i] { assert Kept(m0, m, nodes[i]); }
  }

  /** A part of the nodes shows a part of the levels. */
  lemma Part(m: Memory, nodes: seq<nat>, i: nat, j: nat)
    requires (forall x :: x in nodes ==> Shown(m, x)) && i <= j <= |nodes|
    ensures (forall x :: x in nodes[i..j] ==> Shown(m, x)) && Views(m, nodes[i..j]) == Views(m, nodes)[i..j]
  {
    hide Shown, LevelView;
  }

  lemma Concat(m: Memory, a: seq<nat>, b: seq<nat>)
    requires (forall x :: x in a ==> Shown(m, x)) && forall x :: x in b ==> Shown(m, x)
    ensures (forall x :: x in a + b ==> Shown(m, x)) && Views(m, a + b) == Views(m, a) + Views(m, b)
  {
    hide Shown, LevelView;
  }

  lemma OnLane(m: Memory, w: Lane, k: nat, l: nat)
    requires WellLinked(m) && w in m.lanes && k < |m.lanes[w]| && m.lanes[w][k] == l
    ensures l !in m.lanes[w][..k] && l !in m.lanes[w][k+1..] && (forall x :: x in m.lanes[w] ==> Shown(m, x) && m.held[x].lane == w)
  {
    hide LevelOk;
    assert LaneOk(m, w);
  }

  lemma OneChanged(m0: Memory, m: Memory, nodes: seq<nat>, k: nat)
    requires k < |nodes| && forall x :: x in nodes ==> Shown(m0, x) && Shown(m, x)
    requires forall i :: 0 <= i < |nodes| && i != k ==> Kept(m0, m, nodes[i])
    ensures Shown(m, nodes[k]) && Views(m, nodes) == Views(m0, nodes)[k := LevelView(m, nodes[k])]
  {
    hide LevelView, LevelOk;
    forall i | 0 <= i < |nodes| && i != k ensures Views(m, nodes)[i] == Views(m0, nodes)[i] { assert Kept(m0, m, nodes[i]); }
  }

  lemma RequeuedView(m0: Memory, m: Memory, l: nat, queue: seq<nat>, w: Lane, k: nat)
    requires WellLinked(m0) && WellLinked(m) && Requeued(m0, m, l, queue) && w in m0.lanes && k < |m0.lanes[w]| && m0.lanes[w][k] == l
    ensures l in m.held && LevelOk(m, l) && k < |View(m0, w)| && View(m, w) == View(m0, w)[k := LevelView(m, l)]
    ensures forall v :: v != w ==> View(m, v) == View(m0, v)
  {
    RequeuedAside(m0, m, l, queue);
    OnLane(m0, w, k, l);
    hide Requeued, LevelOk, LevelView, WellLinked;
    var nodes, a, b := m0.lanes[w], View(m0, w), View(m, w);
    forall i | 0 <= i < |nodes| && i != k ensures Kept(m0, m, nodes[i]) {
      assert nodes[i] in if i < k then nodes[..k] else nodes[k+1..];
      RequeuedKept(m0, m, l, queue, nodes[i]);
    }
    OneChanged(m0, m, nodes, k);
    forall v | v != w ensures View(m, v) == View(m0, v) { RequeuedOther(m0, m, l, queue, v); }
  }

  lemma RequeuedKept(m0: Memory, m: Memory, l: nat, queue: seq<nat>, x: nat)
    requires WellLinked(m0) && Requeued(m0, m, l, queue) && x in m0.held && x != l
    ensures Kept(m0, m, x)
  {
    hide LevelOk;
    OtherLevel(m0, m, l, queue, x);
  }

  lemma RequeuedOther(m0: Memory, m: Memory, l: nat, queue: seq<nat>, v: Lane)
    requires WellLinked(m0) && WellLinked(m) && Requeued(m0, m, l, queue) && m0.held[l].lane != v
    ensures View(m, v) == View(m0, v)
  {
    RequeuedAside(m0, m, l, queue);
    assert LaneOk(m0, v);
    hide Requeued, LevelOk, LevelView, WellLinked, Chained;
    forall x | x in m0.lanes[v] ensures Kept(m0, m, x) { RequeuedKept(m0, m, l, queue, x); }
    KeptViews(m0, m, m0.lanes[v]);
  }

  // ---------------------------------------------------------------- linking and unlinking a level

  /** Level l, with no orders, has been linked into list w as its k-th. */
  ghost predicate LevelIn(m0: Memory, m: Memory, w: Lane, k: nat, l: nat) {
    && l !in m0.held && l < |m0.levels| && |m.levels| == |m0.levels| && m.levels == m0.levels[l := m.levels[l]]
    && m.levels[l].queue == EMPTY && m.orders == m0.orders && m.orderLinks == m0.orderLinks
    && w in m0.lanes && w in m0.ends && k <= |m0.lanes[w]|
    && m.held == m0.held[l := Held(w, [])] && m.lanes == m0.lanes[w := Put(m0.lanes[w], k, l)]
    && w in m.ends && m.ends == m0.ends[w := m.ends[w]]
    && Chained(m.levelLinks, m.ends[w], m.lanes[w]) && Elsewhere(m0.levelLinks, m.levelLinks, m.lanes[w])
  }

  lemma SameLevel(m0: Memory, m: Memory, x: nat)
    requires x in m0.held && x in m.held && m.held[x] == m0.held[x] && LevelOk(m0, x) && x < |m.levels| && m.levels[x] == m0.levels[x]
    requires m.orders == m0.orders && m.orderLinks == m0.orderLinks
    ensures Kept(m0, m, x)
  {
    hide Chained;
    forall p | p in m.held[x].queue ensures Points(m, x, m.held[x].lane, p) { assert Points(m0, x, m.held[x].lane, p); }
  }

  /** A list that shares no slot with the relinked nodes is linked as before. */
  lemma OtherLane(m0: Memory, at: seq<Link>, v: Lane, nodes: seq<nat>)
    requires LaneOk(m0, v) && Elsewhere(m0.levelLinks, at, nodes)
    requires forall x :: x in nodes && x in m0.held ==> m0.held[x].lane != v
    ensures Chained(at, m0.ends[v], m0.lanes[v])
  {
    Untouched(m0.levelLinks, at, nodes, m0.ends[v], m0.lanes[v]);
  }

  lemma InFields(m0: Memory, m: Memory, w: Lane, k: nat, l: nat)
    requires LevelIn(m0, m, w, k, l)
    ensures l !in m0.held && m.orders == m0.orders && m.orderLinks == m0.orderLinks
    ensures |m.levels| == |m0.levels| && |m.levelLinks| == |m0.levelLinks|
    ensures forall x :: x in m.held <==> x in m0.held || x == l
    ensures forall x :: x in m0.held ==> m.held[x] == m0.held[x]
    ensures m.held[l] == Held(w, []) && l < |m.levels| && m.levels[l].queue == EMPTY
    ensures forall x :: 0 <= x < |m.levels| && x != l ==> m.levels[x] == m0.levels[x]
    ensures w in m.lanes && w in m0.lanes && k <= |m0.lanes[w]| && m.lanes[w] == Put(m0.lanes[w], k, l)
    ensures forall v :: v != w ==> v in m0.lanes <==> v in m.lanes
    ensures forall v :: v != w ==> v in m0.ends <==> v in m.ends
    ensures forall v :: v != w && v in m0.lanes ==> m.lanes[v] == m0.lanes[v]
    ensures forall v :: v != w && v in m0.ends ==> m.ends[v] == m0.ends[v]
    ensures w in m.ends && Chained(m.levelLinks, m.ends[w], m.lanes[w]) && Elsewhere(m0.levelLinks, m.levelLinks, m.lanes[w])
  {
  }

  lemma InKept(m0: Memory, m: Memory, w: Lane, k: nat, l: nat, x: nat)
    requires WellLinked(m0) && LevelIn(m0, m, w, k, l) && x in m0.held
    ensures Kept(m0, m, x)
  {
    hide LevelIn, Chained;
    InFields(m0, m, w, k, l);
    assert LevelOk(m0, x);
    SameLevel(m0, m, x);
  }

  lemma InNew(m0: Memory, m: Memory, w: Lane, k: nat, l: nat)
    requires LevelIn(m0, m, w, k, l)
    ensures l in m.held && LevelOk(m, l)
    ensures LevelView(m, l) == Level(m.levels[l].price, m.levels[l].total, m.levels[l].count, [])
  {
    assert Orders(m.orders, []) == [];
  }

  lemma InLane(m0: Memory, m: Memory, w: Lane, k: nat, l: nat, v: Lane)
    requires WellLinked(m0) && LevelIn(m0, m, w, k, l)
    ensures LaneOk(m, v)
  {
    hide LevelIn, LevelOk, Chained, Elsewhere, Put;
    InFields(m0, m, w, k, l);
    assert LaneOk(m0, w) && LaneOk(m0, v);
    PutOf(m0.lanes[w], k, l);
    if v != w { OtherLane(m0, m.levelLinks, v, m.lanes[w]); }
  }

  lemma InLinked(m0: Memory, m: Memory, w: Lane, k: nat, l: nat)
    requires WellLinked(m0) && LevelIn(m0, m, w, k, l)
    ensures WellLinked(m)
  {
    hide LevelIn, LevelOk, LaneOk;
    InFields(m0, m, w, k, l);
    forall v ensures LaneOk(m, v) { InLane(m0, m, w, k, l, v); }
    forall x | x in m.held ensures LevelOk(m, x) { if x == l { InNew(m0, m, w, k, l); } else { InKept(m0, m, w, k, l, x); } }
  }

  lemma InOther(m0: Memory, m: Memory, w: Lane, k: nat, l: nat, v: Lane)
    requires WellLinked(m0) && WellLinked(m) && LevelIn(m0, m, w, k, l) && v != w
    ensures View(m, v) == View(m0, v)
  {
    hide LevelOk, LevelIn, Put, Chained;
    InFields(m0, m, w, k, l);
    assert LaneOk(m0, v);
    forall x | x in m0.lanes[v] ensures Kept(m0, m, x) { InKept(m0, m, w, k, l, x); }
    KeptViews(m0, m, m.lanes[v]);
  }

  lemma InView(m0: Memory, m: Memory, w: Lane, k: nat, l: nat)
    requires WellLinked(m0) && WellLinked(m) && LevelIn(m0, m, w, k, l)
    ensures k <= |View(m0, w)|
    ensures View(m, w) == View(m0, w)[..k] + [Level(m.levels[l].price, m.levels[l].total, m.levels[l].count, [])] + View(m0, w)[k..]
    ensures forall v :: v != w ==> View(m, v) == View(m0, v)
  {
    hide LevelOk, LevelView, WellLinked, LevelIn, Kept;
    InFields(m0, m, w, k, l);
    var nodes, a, b := m0.lanes[w], View(m0, w), View(m, w);
    InNew(m0, m, w, k, l);
    forall x | x in nodes ensures Kept(m0, m, x) { assert Shown(m0, x); InKept(m0, m, w, k, l, x); }
    KeptViews(m0, m, nodes);
    Part(m, nodes, 0, k);
    Part(m, nodes, k, |nodes|);
    Concat(m, nodes[..k], [l]);
    Concat(m, nodes[..k] + [l], nodes[k..]);
    assert Views(m, [l]) == [LevelView(m, l)];
    forall v | v != w ensures View(m, v) == View(m0, v) { InOther(m0, m, w, k, l, v); }
  }

  /** Level l, left without orders, has been unlinked from list w where it was the k-th. */
  ghost predicate LevelOut(m0: Memory, m: Memory, w: Lane, k: nat, l: nat) {
    && l in m0.held && m0.held[l] == Held(w, []) && w in m0.lanes && w in m0.ends
    && k < |m0.lanes[w]| && m0.lanes[w][k] == l
    && m.orders == m0.orders && m.orderLinks == m0.orderLinks && m.levels == m0.levels
    && m.held == m0.held - {l} && m.lanes == m0.lanes[w := Cut(m0.lanes[w], k)]
    && w in m.ends && m.ends == m0.ends[w := m.ends[w]]
    && Chained(m.levelLinks, m.ends[w], m.lanes[w]) && Elsewhere(m0.levelLinks, m.levelLinks, m0.lanes[w])
  }

  lemma OutFields(m0: Memory, m: Memory, w: Lane, k: nat, l: nat)
    requires LevelOut(m0, m, w, k, l)
    ensures m.orders == m0.orders && m.orderLinks == m0.orderLinks && m.levels == m0.levels && |m.levelLinks| == |m0.levelLinks|
    ensures forall x :: x in m.held <==> x in m0.held && x != l
    ensures forall x :: x in m.held ==> m.held[x] == m0.held[x]
    ensures w in m.lanes && w in m0.lanes && k < |m0.lanes[w]| && m0.lanes[w][k] == l && m.lanes[w] == Cut(m0.lanes[w], k)
    ensures forall v :: v != w ==> v in m0.lanes <==> v in m.lanes
    ensures forall v :: v != w ==> v in m0.ends <==> v in m.ends
    ensures forall v :: v != w && v in m0.lanes ==> m.lanes[v] == m0.lanes[v]
    ensures forall v :: v != w && v in m0.ends ==> m.ends[v] == m0.ends[v]
    ensures w in m.ends && Chained(m.levelLinks, m.ends[w], m.lanes[w]) && Elsewhere(m0.levelLinks, m.levelLinks, m0.lanes[w])
  {
  }

  lemma OutKept(m0: Memory, m: Memory, w: Lane, k: nat, l: nat, x: nat)
    requires WellLinked(m0) && LevelOut(m0, m, w, k, l) && x in m.held
    ensures Kept(m0, m, x)
  {
    hide LevelOut, Chained;
    OutFields(m0, m, w, k, l);
    assert LevelOk(m0, x);
    SameLevel(m0, m, x);
  }

  lemma OutLane(m0: Memory, m: Memory, w: Lane, k: nat, l: nat, v: Lane)
    requires WellLinked(m0) && LevelOut(m0, m, w, k, l)
    ensures LaneOk(m, v) && Distinct(m0.lanes[w]) && l in m0.lanes[w]
  {
    hide LevelOut, LevelOk, Elsewhere, Cut;
    OutFields(m0, m, w, k, l);
    assert LaneOk(m0, w) && LaneOk(m0, v);
    assert Distinct(m0.lanes[w]);
    CutOf(m0.lanes[w], k);
    hide Chained, Distinct;
    if v != w { OtherLane(m0, m.levelLinks, v, m0.lanes[w]); }
  }

  lemma OutLinked(m0: Memory, m: Memory, w: Lane, k: nat, l: nat)
    requires WellLinked(m0) && LevelOut(m0, m, w, k, l)
    ensures WellLinked(m)
  {
    hide LevelOut, LevelOk, LaneOk;
    OutFields(m0, m, w, k, l);
    forall v ensures LaneOk(m, v) { OutLane(m0, m, w, k, l, v); }
    forall x | x in m.held ensures LevelOk(m, x) { OutKept(m0, m, w, k, l, x); }
  }

  lemma OutOther(m0: Memory, m: Memory, w: Lane, k: nat, l: nat, v: Lane)
    requires WellLinked(m0) && WellLinked(m) && LevelOut(m0, m, w, k, l) && v != w
    ensures View(m, v) == View(m0, v)
  {
    hide LevelOk, LevelOut, Cut, Chained;
    OutFields(m0, m, w, k, l);
    assert LaneOk(m0, v) && LaneOk(m, v);
    forall x | x in m.lanes[v] ensures Kept(m0, m, x) { OutKept(m0, m, w, k, l, x); }
    KeptViews(m0, m, m.lanes[v]);
  }

  lemma OutView(m0: Memory, m: Memory, w: Lane, k: nat, l: nat)
    requires WellLinked(m0) && WellLinked(m) && LevelOut(m0, m, w, k, l)
    ensures k < |View(m0, w)| && View(m, w) == View(m0, w)[..k] + View(m0, w)[k+1..]
    ensures forall v :: v != w ==> View(m, v) == View(m0, v)
  {
    hide LevelOk, LevelView, WellLinked, LevelOut, Kept;
    OutFields(m0, m, w, k, l);
    var nodes, a, b := m0.lanes[w], View(m0, w), View(m, w);
    forall x | x in m.lanes[w] ensures Kept(m0, m, x) { assert Shown(m, x); OutKept(m0, m, w, k, l, x); }
    KeptViews(m0, m, m.lanes[w]);
    Part(m0, nodes, 0, k);
    Part(m0, nodes, k + 1, |nodes|);
    Concat(m0, nodes[..k], nodes[k+1..]);
    forall v | v != w ensures View(m, v) == View(m0, v) { OutOther(m0, m, w, k, l, v); }
  }

  // ---------------------------------------------------------------- orders in and out of queues

  /** The order slots in some queue. */
  ghost function Seated(m: Memory): set<nat> { set p: nat | 0 <= p < |m.orders| && !Loose(m, p) }

  /** A slot in no queue may be written freely. */
  lemma LooseWrite(m0: Memory, m: Memory, p: nat)
    requires WellLinked(m0) && p < |m0.orders| && Loose(m0, p) && p < |m.orders| && m == m0.(orders := m0.orders[p := m.orders[p]])
    ensures WellLinked(m) && (forall w :: View(m, w) == View(m0, w)) && Seated(m) == Seated(m0)
  {
    hide Chained;
    forall x | x in m0.held ensures Kept(m0, m, x) {
      assert LevelOk(m0, x);
      forall q | q in m.held[x].queue ensures Points(m, x, m.held[x].lane, q) { assert Points(m0, x, m.held[x].lane, q); }
      assert Orders(m.orders, m.held[x].queue) == Orders(m0.orders, m.held[x].queue);
    }
    forall w ensures LaneOk(m, w) { assert LaneOk(m0, w); }
    assert WellLinked(m);
    hide LevelOk, LevelView;
    forall w ensures View(m, w) == View(m0, w) {
      assert LaneOk(m0, w);
      KeptViews(m0, m, m0.lanes[w]);
    }
  }

  lemma RequeuedSeated(m0: Memory, m: Memory, l: nat, queue: seq<nat>)
    requires WellLinked(m0) && Requeued(m0, m, l, queue)
    ensures forall p :: p in Seated(m) <==> p in queue || (p in Seated(m0) && p !in m0.held[l].queue)
  {
    hide Chained, Elsewhere, LaneOk;
    assert LevelOk(m0, l) && LevelOk(m, l);
    assert forall p :: p in m0.held[l].queue ==> Points(m0, l, m0.held[l].lane, p);
    assert forall p :: p in queue ==> Points(m, l, m.held[l].lane, p);
    forall p | p in Seated(m0) && p !in m0.held[l].queue ensures p in Seated(m) {
      var x :| x in m0.held && p in m0.held[x].queue;
      assert x in m.held && p in m.held[x].queue;
    }
    forall p | p in Seated(m) && p !in queue ensures p in Seated(m0) && p !in m0.held[l].queue {
      var x :| x in m.held && p in m.held[x].queue;
      assert LevelOk(m0, x) && Points(m0, x, m0.held[x].lane, p);
    }
    forall p | p in queue ensures p in Seated(m) { assert l in m.held && p in m.held[l].queue; }
  }

  lemma QueueSeated(m: Memory, l: nat)
    requires WellLinked(m) && l in m.held
    ensures forall p :: p in m.held[l].queue ==> p in Seated(m)
  {
    hide Chained;
    assert LevelOk(m, l);
    assert forall p :: p in m.held[l].queue ==> Points(m, l, m.held[l].lane, p);
  }

  lemma InSeated(m0: Memory, m: Memory, w: Lane, k: nat, l: nat)
    requires LevelIn(m0, m, w, k, l)
    ensures Seated(m) == Seated(m0)
  {
    hide LevelIn;
    InFields(m0, m, w, k, l);
    forall p: nat ensures Loose(m0, p) <==> Loose(m, p) { }
  }

  lemma OutSeated(m0: Memory, m: Memory, w: Lane, k: nat, l: nat)
    requires LevelOut(m0, m, w, k, l)
    ensures Seated(m) == Seated(m0)
  {
    OutFields(m0, m, w, k, l);
    assert m0.held[l].queue == [];
    hide LevelOut;
    forall p: nat ensures Loose(m0, p) <==> Loose(m, p) { }
  }

  /** So may a level slot in no list. */
  lemma SpareWrite(m0: Memory, m: Memory, l: nat)
    requires WellLinked(m0) && l < |m0.levels| && l !in m0.held && l < |m.levels| && l < |m.levelLinks|
    requires m == m0.(levels := m0.levels[l := m.levels[l]], levelLinks := m0.levelLinks[l := m.levelLinks[l]])
    ensures WellLinked(m) && (forall w :: View(m, w) == View(m0, w)) && Seated(m) == Seated(m0)
  {
    hide Chained;
    forall x | x in m0.held ensures Kept(m0, m, x) {
      assert LevelOk(m0, x);
      SameLevel(m0, m, x);
    }
    forall w ensures LaneOk(m, w) {
      assert LaneOk(m0, w);
      OtherLane(m0, m.levelLinks, w, [l]);
    }
    assert WellLinked(m);
    hide LevelOk, LevelView;
    forall w ensures View(m, w) == View(m0, w) {
      assert LaneOk(m0, w);
      KeptViews(m0, m, m0.lanes[w]);
    }
  }

  /** Orders unchanged slot by slot are unchanged as a queue. */
  lemma SameOrders(a: seq<OrderSlot>, b: seq<OrderSlot>, queue: seq<nat>)
    requires |a| == |b| && forall p :: p in queue ==> p < |a| && a[p].order == b[p].order
    ensures Orders(a, queue) == Orders(b, queue)
  {
  }

  lemma OrdersSnoc(orders: seq<OrderSlot>, queue: seq<nat>, p: nat)
    requires (forall x :: x in queue ==> x < |orders|) && p < |orders|
    ensures Orders(orders, queue + [p]) == Orders(orders, queue) + [orders[p].order]
  {
  }

  lemma OrdersCut(orders: seq<OrderSlot>, queue: seq<nat>, j: nat)
    requires (forall x :: x in queue ==> x < |orders|) && j < |queue|
    ensures (forall x :: x in Cut(queue, j) ==> x in queue) && Orders(orders, Cut(queue, j)) == Without(Orders(orders, queue), j)
  {
  }

  lemma OrdersPut(a: seq<OrderSlot>, b: seq<OrderSlot>, queue: seq<nat>, j: nat)
    requires |a| == |b| && Distinct(queue) && j < |queue| && (forall p :: p in queue ==> p < |a|)
    requires forall p :: p in queue && p != queue[j] ==> a[p] == b[p]
    ensures queue[j] in queue && Orders(b, queue) == Orders(a, queue)[j := b[queue[j]].order]
  {
    assert queue[j] in queue;
    forall i | 0 <= i < |queue| && i != j ensures Orders(b, queue)[i] == Orders(a, queue)[i] { assert queue[i] in queue; }
  }

  // ---------------------------------------------------------------- what each change shows

  /** List w now shows `ls` and the others what they did. */
  ghost predicate Changes(m0: Memory, m: Memory, w: Lane, ls: seq<Level>) {
    && WellLinked(m0) && WellLinked(m) && View(m, w) == ls
    && forall v :: v != w ==> View(m, v) == View(m0, v)
  }

  lemma ChangesTrans(m0: Memory, m1: Memory, m: Memory, w: Lane, a: seq<Level>, b: seq<Level>)
    requires Changes(m0, m1, w, a) && Changes(m1, m, w, b)
    ensures Changes(m0, m, w, b)
  {
    hide WellLinked;
  }

  ghost predicate OnList(m: Memory, w: Lane, k: nat, l: nat) { w in m.lanes && k < |m.lanes[w]| && m.lanes[w][k] == l }

  lemma ShownAt(m: Memory, w: Lane, k: nat, l: nat)
    requires WellLinked(m) && OnList(m, w, k, l)
    ensures Shown(m, l) && m.held[l].lane == w && k < |View(m, w)| && View(m, w)[k] == LevelView(m, l)
    ensures |m.orders| == |m.orderLinks| && forall p :: p in m.held[l].queue ==> p < |m.orders|
  {
    hide Chained;
    assert LaneOk(m, w) && l in m.lanes[w] && LevelOk(m, l);
    assert forall p :: p in m.held[l].queue ==> Points(m, l, w, p);
  }

  /** An order appended to a queue. */
  lemma AppendView(m0: Memory, m: Memory, w: Lane, k: nat, l: nat, p: nat)
    requires WellLinked(m0) && WellLinked(m) && OnList(m0, w, k, l) && p < |m0.orders| && Loose(m0, p)
    requires Shown(m0, l) && Requeued(m0, m, l, m0.held[l].queue + [p]) && m.orders == m0.orders[p := m0.orders[p].(level := l)]
    requires l < |m.levels| && m.levels[l].price == m0.levels[l].price
    requires m.levels[l].total == m0.levels[l].total + m0.orders[p].order.remaining && m.levels[l].count == m0.levels[l].count + 1
    ensures k < |View(m0, w)|
    ensures var lv, o := View(m0, w)[k], m0.orders[p].order;
      Changes(m0, m, w, View(m0, w)[k := Level(lv.price, lv.total + o.remaining, lv.count + 1, lv.orders + [o])])
  {
    hide Requeued, WellLinked, LevelOk;
    ShownAt(m0, w, k, l);
    RequeuedView(m0, m, l, m0.held[l].queue + [p], w, k);
    OrdersSnoc(m.orders, m0.held[l].queue, p);
    SameOrders(m.orders, m0.orders, m0.held[l].queue);
    RequeuedAside(m0, m, l, m0.held[l].queue + [p]);
  }

  /** An order taken out of a queue. */
  lemma CutView(m0: Memory, m: Memory, w: Lane, k: nat, l: nat, j: nat)
    requires WellLinked(m0) && WellLinked(m) && OnList(m0, w, k, l) && Shown(m0, l) && j < |m0.held[l].queue|
    requires Requeued(m0, m, l, Cut(m0.held[l].queue, j)) && m.orders == m0.orders
    requires m0.held[l].queue[j] < |m0.orders| && l < |m.levels| && m.levels[l].price == m0.levels[l].price
    requires m.levels[l].total == m0.levels[l].total - m0.orders[m0.held[l].queue[j]].order.remaining
    requires m.levels[l].count == m0.levels[l].count - 1
    ensures k < |View(m0, w)| && j < |View(m0, w)[k].orders|
    ensures var lv := View(m0, w)[k];
      Changes(m0, m, w, View(m0, w)[k := Level(lv.price, lv.total - lv.orders[j].remaining, lv.count - 1, Without(lv.orders, j))])
  {
    hide Requeued, WellLinked, LevelOk, Cut, Without;
    ShownAt(m0, w, k, l);
    RequeuedView(m0, m, l, Cut(m0.held[l].queue, j), w, k);
    OrdersCut(m0.orders, m0.held[l].queue, j);
    RequeuedAside(m0, m, l, Cut(m0.held[l].queue, j));
  }

  /** An order rewritten and sent to the back of its queue. */
  lemma MoveView(m0: Memory, m: Memory, w: Lane, k: nat, l: nat, j: nat, o: Order)
    requires WellLinked(m0) && WellLinked(m) && OnList(m0, w, k, l) && Shown(m0, l) && j < |m0.held[l].queue|
    requires Requeued(m0, m, l, Cut(m0.held[l].queue, j) + [m0.held[l].queue[j]])
    requires m0.held[l].queue[j] < |m0.orders| && m.orders == m0.orders[m0.held[l].queue[j] := OrderSlot(o, l)]
    requires l < |m.levels| && m.levels[l].price == m0.levels[l].price && m.levels[l].count == m0.levels[l].count
    requires Distinct(m0.held[l].queue)
    ensures k < |View(m0, w)| && j < |View(m0, w)[k].orders|
    ensures var lv := View(m0, w)[k];
      Changes(m0, m, w, View(m0, w)[k := Level(lv.price, m.levels[l].total, lv.count, Without(lv.orders, j) + [o])])
  {
    hide Requeued, WellLinked, LevelOk, Cut, Without;
    var q := m0.held[l].queue;
    ShownAt(m0, w, k, l);
    RequeuedView(m0, m, l, Cut(q, j) + [q[j]], w, k);
    OrdersCut(m0.orders, q, j);
    CutOf(q, j);
    SameOrders(m.orders, m0.orders, Cut(q, j));
    OrdersSnoc(m.orders, Cut(q, j), q[j]);
    RequeuedAside(m0, m, l, Cut(q, j) + [q[j]]);
  }

  /** An order rewritten where it is. */
  lemma RewriteView(m0: Memory, m: Memory, w: Lane, k: nat, l: nat, j: nat, o: Order)
    requires WellLinked(m0) && WellLinked(m) && OnList(m0, w, k, l) && Shown(m0, l) && j < |m0.held[l].queue|
    requires Requeued(m0, m, l, m0.held[l].queue) && Distinct(m0.held[l].queue)
    requires m0.held[l].queue[j] < |m0.orders| && m.orders == m0.orders[m0.held[l].queue[j] := OrderSlot(o, l)]
    requires l < |m.levels| && m.levels[l].price == m0.levels[l].price && m.levels[l].count == m0.levels[l].count
    ensures k < |View(m0, w)| && j < |View(m0, w)[k].orders|
    ensures var lv := View(m0, w)[k];
      Changes(m0, m, w, View(m0, w)[k := Level(lv.price, m.levels[l].total, lv.count, lv.orders[j := o])])
  {
    hide Requeued, WellLinked, LevelOk, Distinct;
    var q := m0.held[l].queue;
    ShownAt(m0, w, k, l);
    RequeuedView(m0, m, l, q, w, k);
    OrdersPut(m0.orders, m.orders, q, j);
    RequeuedAside(m0, m, l, q);
  }
}
