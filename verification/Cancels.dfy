/**
  Taking orders out of the engine: user cancels, expiry and mass cancels, and cancel-replace.
 */
module Cancels {
  import opened Types
  import opened Queues
  import opened Levels
  import opened Tape
  import opened Ledger
  import opened EngineState
  import opened Steps
  import opened Trading
  import opened Matching
  import opened Progress
  import opened Stops
  import opened Lifecycle
  import opened Crowds
  import opened Room
  import opened Silence

  // ---------------------------------------------------------------- where orders are

  ghost predicate Listed(ls: seq<Level>, o: Order) { exists lv :: lv in ls && o in lv.orders }

  /** The engine has the order, resting or waiting. */
  ghost predicate Held(s: State, o: Order) {
    Listed(s.bids, o) || Listed(s.asks, o) || Listed(s.buyStops, o) || Listed(s.sellStops, o)
  }

  lemma ListedBag(ls: seq<Level>, o: Order)
    requires Listed(ls, o)
    ensures Bag(ls)[o.id] >= 1
  {
    var lv :| lv in ls && o in lv.orders;
    MemberBag(ls, lv, o);
  }

  /** Taking one order out of a side leaves exactly the others. */
  lemma ListedWithout(dir: Side, ls: seq<Level>, k: nat, j: nat, o: Order)
    requires Sorted(dir, ls) && Spot(ls, k, j) && NoDup(ls[k].orders) && Bag(ls)[ls[k].orders[j].id] <= 1
    ensures Listed(PutQueue(ls, k, Without(ls[k].orders, j)), o) <==> Listed(ls, o) && o.id != ls[k].orders[j].id
  {
    hide PutQueue, Bag, NoDup, Sorted, Without;
    var q' := Without(ls[k].orders, j);
    PutMembers(dir, ls, k, q');
    WithoutHas(ls[k].orders, j, o);
    assert ls[k] in ls;
    if Listed(PutQueue(ls, k, q'), o) {
      var lv :| lv in PutQueue(ls, k, q') && o in lv.orders;
      if lv.price != ls[k].price { OtherOrder(dir, ls, k, j, lv, o); }
    }
    if Listed(ls, o) && o.id != ls[k].orders[j].id {
      var lv :| lv in ls && o in lv.orders;
      if lv.price == ls[k].price {
        SamePrice(dir, ls, k, lv);
        assert MkLevel(ls[k].price, q') in PutQueue(ls, k, q');
      }
    }
  }

  lemma WithoutHas(q: seq<Order>, j: nat, o: Order)
    requires j < |q| && NoDup(q)
    ensures o in Without(q, j) <==> o in q && o.id != q[j].id
  {
    if o in q && o.id != q[j].id {
      var i :| 0 <= i < |q| && q[i] == o;
      assert Without(q, j)[if i < j then i else i - 1] == o;
    }
  }

  lemma SamePrice(dir: Side, ls: seq<Level>, k: nat, lv: Level)
    requires Sorted(dir, ls) && k < |ls| && lv in ls && lv.price == ls[k].price
    ensures lv == ls[k]
  {
    var i :| 0 <= i < |ls| && ls[i] == lv;
  }

  // ---------------------------------------------------------------- one cancel

  /** A spot in the book or in the stop lists. */
  datatype Place = Place(stops: bool, side: Side, k: nat, j: nat)

  function ListAt(s: State, at: Place): seq<Level> { if at.stops then s.Stops(at.side) else s.Book(at.side) }

  /** cancel_active_order. */
  function CancelAny(s: State, at: Place, reason: CancelReason): State
    requires Spot(ListAt(s, at), at.k, at.j)
  {
    var o := ListAt(s, at)[at.k].orders[at.j];
    if at.stops then DropHand(Unpark(s, at.side, at.k, at.j), o.id, reason)
    else CancelAt(s, at.side, at.k, at.j, o.price, reason)
  }

  lemma CancelAnyInv(lim: Limits, s: State, at: Place, reason: CancelReason)
    requires Inv(lim, s, multiset{}) && Spot(ListAt(s, at), at.k, at.j)
    ensures Inv(lim, CancelAny(s, at, reason), multiset{})
  {
    hide Inv;
    var o := ListAt(s, at)[at.k].orders[at.j];
    if at.stops {
      UnparkInv(lim, s, multiset{}, at.side, at.k, at.j);
      DropInv(lim, Unpark(s, at.side, at.k, at.j), multiset{}, o.id, reason);
    } else {
      CancelInv(lim, s, multiset{}, at.side, at.k, at.j, o.price, reason);
    }
  }

  lemma CancelAnyBook(lim: Limits, s: State, at: Place, reason: CancelReason)
    requires Inv(lim, s, multiset{}) && Spot(ListAt(s, at), at.k, at.j)
    ensures var s' := CancelAny(s, at, reason);
      (MirrorsBook(s) ==> MirrorsBook(s')) && (Uncrossed(s) ==> Uncrossed(s'))
  {
    var o := ListAt(s, at)[at.k].orders[at.j];
    if at.stops {
      UnparkAside(s, at.side, at.k, at.j);
    } else {
      if MirrorsBook(s) { CancelMirrors(lim, s, multiset{}, at.side, at.k, at.j, o.price, reason); }
      if Uncrossed(s) {
        PutPrices(s.Book(at.side), at.k, Without(s.Book(at.side)[at.k].orders, at.j));
        PricesUncrossed(s, CancelAny(s, at, reason), at.side.Opposite());
      }
    }
  }

  lemma ListAtOk(lim: Limits, s: State, at: Place)
    requires Shape(lim, s, multiset{}) && Spot(ListAt(s, at), at.k, at.j)
    ensures exists dir :: Sorted(dir, ListAt(s, at))
    ensures CachesOk(ListAt(s, at)[at.k]) && NoDup(ListAt(s, at)[at.k].orders)
    ensures Bag(ListAt(s, at))[ListAt(s, at)[at.k].orders[at.j].id] == 1
  {
    var ls := ListAt(s, at);
    assert ls[at.k] in ls;
    if at.stops { StopSideOf(lim, s, multiset{}, at.side); assert Sorted(at.side.Opposite(), ls); }
    else { SortedBook(lim, s, multiset{}, at.side); }
    BagSplit(ls, at.k);
    IdBagMember(ls[at.k].orders, at.j);
    forall id ensures IdBag(ls[at.k].orders)[id] <= 1 { UniqueIds(lim, s, multiset{}, id); }
    IdBagUnique(ls[at.k].orders);
    UniqueIds(lim, s, multiset{}, ls[at.k].orders[at.j].id);
  }

  /** A cancel takes out the one order, its index entry and nothing else. */
  lemma CancelAnyHeld(lim: Limits, s: State, at: Place, reason: CancelReason, o: Order)
    requires Inv(lim, s, multiset{}) && Spot(ListAt(s, at), at.k, at.j)
    ensures Held(CancelAny(s, at, reason), o) <==> Held(s, o) && o.id != ListAt(s, at)[at.k].orders[at.j].id
  {
    var ls := ListAt(s, at);
    var id := ls[at.k].orders[at.j].id;
    ListAtOk(lim, s, at);
    UniqueIds(lim, s, multiset{}, id);
    hide Inv, Listed, CancelAny, Bag;
    var dir :| Sorted(dir, ls);
    ListedWithout(dir, ls, at.k, at.j, o);
    CancelAnyLists(s, at, reason);
    if o.id == id { HeldOnce(s, at, o); }
  }

  lemma CancelAnyNotes(s: State, at: Place, reason: CancelReason)
    requires Spot(ListAt(s, at), at.k, at.j)
    ensures CancelAny(s, at, reason).cancels == s.cancels + [(ListAt(s, at)[at.k].orders[at.j].id, reason)]
  {
  }

  function NoticeIds(cs: seq<(nat, CancelReason)>): seq<nat> { seq(|cs|, i requires 0 <= i < |cs| => cs[i].0) }

  /** The notices since s0 give one reason and name the orders gone since s0, each once. */
  ghost predicate Notified(s0: State, s: State, reason: CancelReason) {
    && s0.cancels <= s.cancels && s.live <= s0.live
    && (forall i :: |s0.cancels| <= i < |s.cancels| ==> s.cancels[i].1 == reason)
    && multiset(NoticeIds(s.cancels[|s0.cancels|..])) == multiset(s0.live - s.live)
  }

  lemma NotifiedMore(s0: State, s: State, s': State, id: nat, reason: CancelReason)
    requires Notified(s0, s, reason) && s'.cancels == s.cancels + [(id, reason)] && id in s.live && s'.live == s.live - {id}
    ensures Notified(s0, s', reason)
  {
    var n := |s0.cancels|;
    assert NoticeIds(s'.cancels[n..]) == NoticeIds(s.cancels[n..]) + [id];
    assert s0.live - s'.live == (s0.live - s.live) + {id};
  }

  lemma NotifiedNone(s: State, reason: CancelReason)
    ensures Notified(s, s, reason)
  {
    assert NoticeIds(s.cancels[|s.cancels|..]) == [] && s.live - s.live == {};
  }

  lemma CancelAnyThins(s: State, at: Place, reason: CancelReason)
    requires Spot(ListAt(s, at), at.k, at.j)
    ensures Thins(s, CancelAny(s, at, reason))
  {
    hide Thins, CancelAny, PutQueue, Without;
    CancelAnyLists(s, at, reason);
    if at.stops {
      StopOutThins(s, at.side, at.k, at.j, CancelAny(s, at, reason));
    } else {
      TakeOutThins(s, at.side, at.k, at.j, CancelAny(s, at, reason));
    }
  }

  lemma AmendThins(s: State, side: Side, k: nat, j: nat, quantity: int)
    requires Spot(s.Book(side), k, j)
    ensures Thins(s, AmendAt(s, side, k, j, quantity))
  {
    hide Thins, PutQueue;
    var q := s.Book(side)[k].orders;
    SwapThins(s, side, k, j, q[j].(quantity := quantity, remaining := quantity - q[j].filled), AmendAt(s, side, k, j, quantity));
  }

  /** Room at the new price of an order. */
  ghost predicate RoomToReplace(r: Rules, s: State, id: nat, price: int) {
    forall o :: Held(s, o) && o.id == id ==> o.price == price || Crowd(s, o.side, price) < PerPrice(r.policy)
  }

  lemma ReplaceRoomy(r: Rules, s: State, side: Side, k: nat, j: nat, price: int, quantity: int, ts: int)
    requires Inv(r.lim, s, multiset{}) && Roomy(r.policy, s) && Spot(s.Book(side), k, j)
    requires RoomToReplace(r, s, s.Book(side)[k].orders[j].id, price)
    ensures var o := s.Book(side)[k].orders[j];
      RoomyWith(r.policy, PullAt(s, side, k, j, o.price), Replaced(o, price, quantity, ts))
  {
    hide Inv, Shape, Roomy, RoomyWith, Crowd;
    InvShape(r.lim, s, multiset{});
    RestsThere(r.lim, s, multiset{}, side, k, j);
    var ls := s.Book(side);
    var o := ls[k].orders[j];
    assert ls[k] in ls && o in ls[k].orders && Listed(ls, o) && Held(s, o);
    PullRoomy(r.policy, s, side, k, j, Replaced(o, price, quantity, ts), PullAt(s, side, k, j, o.price));
  }

  lemma CancelAnyLists(s: State, at: Place, reason: CancelReason)
    requires Spot(ListAt(s, at), at.k, at.j)
    ensures var s', ls := CancelAny(s, at, reason), PutQueue(ListAt(s, at), at.k, Without(ListAt(s, at)[at.k].orders, at.j));
      && s'.bids == (if !at.stops && at.side == Buy then ls else s.bids)
      && s'.asks == (if !at.stops && at.side == Sell then ls else s.asks)
      && s'.buyStops == (if at.stops && at.side == Buy then ls else s.buyStops)
      && s'.sellStops == (if at.stops && at.side == Sell then ls else s.sellStops)
      && s'.live == s.live - {ListAt(s, at)[at.k].orders[at.j].id} && s'.nextId == s.nextId
      && s'.session == s.session && s'.ledger == s.ledger && s'.lastTrade == s.lastTrade
  {
  }

  /** An order with the identifier is in no other list. */
  lemma HeldOnce(s: State, at: Place, o: Order)
    requires Bag(s.bids)[o.id] + Bag(s.asks)[o.id] + Bag(s.buyStops)[o.id] + Bag(s.sellStops)[o.id] <= 1
    requires Bag(ListAt(s, at))[o.id] == 1
    ensures (at.stops || at.side != Buy ==> !Listed(s.bids, o)) && (at.stops || at.side != Sell ==> !Listed(s.asks, o))
    ensures (!at.stops || at.side != Buy ==> !Listed(s.buyStops, o)) && (!at.stops || at.side != Sell ==> !Listed(s.sellStops, o))
  {
    if Listed(s.bids, o) { ListedBag(s.bids, o); }
    if Listed(s.asks, o) { ListedBag(s.asks, o); }
    if Listed(s.buyStops, o) { ListedBag(s.buyStops, o); }
    if Listed(s.sellStops, o) { ListedBag(s.sellStops, o); }
  }

  lemma HeldIsLive(lim: Limits, s: State, o: Order)
    requires Shape(lim, s, multiset{}) && Held(s, o)
    ensures o.id in s.live && 0 < o.id < s.nextId
  {
    if Listed(s.bids, o) { ListedBag(s.bids, o); }
    if Listed(s.asks, o) { ListedBag(s.asks, o); }
    if Listed(s.buyStops, o) { ListedBag(s.buyStops, o); }
    if Listed(s.sellStops, o) { ListedBag(s.sellStops, o); }
    Indexed(lim, s, multiset{}, o.id);
  }

  /** Identifiers name one order. */
  lemma HeldUnique(lim: Limits, s: State, at: Place, o: Order)
    requires Inv(lim, s, multiset{}) && Spot(ListAt(s, at), at.k, at.j) && Held(s, o)
    requires o.id == ListAt(s, at)[at.k].orders[at.j].id
    ensures o == ListAt(s, at)[at.k].orders[at.j]
  {
    hide Inv, Shape, Listed, Sorted, Bag, NoDup;
    var ls := ListAt(s, at);
    InvShape(lim, s, multiset{});
    ListAtOk(lim, s, at);
    UniqueIds(lim, s, multiset{}, o.id);
    HeldOnce(s, at, o);
    assert Listed(ls, o);
    var dir :| Sorted(dir, ls);
    ListedUnique(dir, ls, at.k, at.j, o);
  }

  lemma ListedUnique(dir: Side, ls: seq<Level>, k: nat, j: nat, o: Order)
    requires Sorted(dir, ls) && Spot(ls, k, j) && NoDup(ls[k].orders) && Bag(ls)[ls[k].orders[j].id] <= 1
    requires Listed(ls, o) && o.id == ls[k].orders[j].id
    ensures o == ls[k].orders[j]
  {
    hide Bag, Sorted;
    var lv :| lv in ls && o in lv.orders;
    if lv.price != ls[k].price { OtherOrder(dir, ls, k, j, lv, o); }
    SamePrice(dir, ls, k, lv);
    var i :| 0 <= i < |lv.orders| && lv.orders[i] == o;
  }

  // ---------------------------------------------------------------- sweeps

  /** What a sweep of the index cancels: an account's orders, all orders, or expired ones. */
  datatype Sweep = OfAccount(account: nat) | All | Expiring(now: int, tif: TimeInForce) {
    predicate Takes(o: Order) {
      match this
      case OfAccount(a) => o.account == a
      case All => true
      case Expiring(now, t) => o.tif == t && (t == DAY || (t == GTD && o.gtdExpiry <= now))
    }
  }

  /** The orders with identifiers below n that a sweep takes are gone; all others are there. */
  ghost predicate SweptTo(s0: State, s: State, w: Sweep, n: nat) {
    forall o :: Held(s, o) <==> Held(s0, o) && !(w.Takes(o) && o.id < n)
  }

  lemma SweepSkips(lim: Limits, s0: State, s: State, w: Sweep, n: nat)
    requires Inv(lim, s, multiset{}) && SweptTo(s0, s, w, n)
    requires forall o :: Held(s, o) && o.id == n ==> !w.Takes(o)
    ensures SweptTo(s0, s, w, n + 1)
  {
    forall o ensures Held(s, o) <==> Held(s0, o) && !(w.Takes(o) && o.id < n + 1) {
      assert Held(s, o) <==> Held(s0, o) && !(w.Takes(o) && o.id < n);
    }
  }

  lemma SweepTakes(lim: Limits, s0: State, s: State, w: Sweep, n: nat, at: Place, reason: CancelReason)
    requires Inv(lim, s, multiset{}) && SweptTo(s0, s, w, n) && Spot(ListAt(s, at), at.k, at.j)
    requires ListAt(s, at)[at.k].orders[at.j].id == n && w.Takes(ListAt(s, at)[at.k].orders[at.j])
    ensures SweptTo(s0, CancelAny(s, at, reason), w, n + 1)
  {
    forall o ensures Held(CancelAny(s, at, reason), o) <==> Held(s0, o) && !(w.Takes(o) && o.id < n + 1) {
      CancelAnyHeld(lim, s, at, reason, o);
      assert Held(s, o) <==> Held(s0, o) && !(w.Takes(o) && o.id < n);
      if Held(s, o) && o.id == n { HeldUnique(lim, s, at, o); }
    }
  }

  lemma StartSweep(lim: Limits, s: State, w: Sweep)
    requires Inv(lim, s, multiset{})
    ensures SweptTo(s, s, w, 1)
  {
    forall o ensures Held(s, o) <==> Held(s, o) && !(w.Takes(o) && o.id < 1) {
      if Held(s, o) { HeldIsLive(lim, s, o); }
    }
  }

  lemma EndSweep(lim: Limits, s0: State, s: State, w: Sweep, n: nat)
    requires Inv(lim, s0, multiset{}) && SweptTo(s0, s, w, n) && s0.nextId <= n
    ensures forall o :: Held(s, o) <==> Held(s0, o) && !w.Takes(o)
  {
    forall o ensures Held(s, o) <==> Held(s0, o) && !w.Takes(o) {
      assert Held(s, o) <==> Held(s0, o) && !(w.Takes(o) && o.id < n);
      if Held(s0, o) { HeldIsLive(lim, s0, o); }
    }
  }

  lemma NotTaken(lim: Limits, s: State, w: Sweep, n: nat, at: Place)
    requires Inv(lim, s, multiset{}) && Spot(ListAt(s, at), at.k, at.j) && ListAt(s, at)[at.k].orders[at.j].id == n
    ensures !w.Takes(ListAt(s, at)[at.k].orders[at.j]) ==> forall o :: Held(s, o) && o.id == n ==> !w.Takes(o)
  {
    forall o | Held(s, o) && o.id == n ensures o == ListAt(s, at)[at.k].orders[at.j] {
      HeldUnique(lim, s, at, o);
    }
  }

  lemma NotHeld(lim: Limits, s: State, n: nat)
    requires Inv(lim, s, multiset{}) && n !in s.live
    ensures forall o :: Held(s, o) ==> o.id != n
  {
    forall o | Held(s, o) ensures o.id != n { HeldIsLive(lim, s, o); }
  }

  // ---------------------------------------------------------------- cancel-replace and amend

  /** The order as cancel-replace re-enters it. */
  function Replaced(o: Order, price: int, quantity: int, ts: int): Order {
    o.(price := price, quantity := quantity, remaining := quantity - o.filled, timestamp := ts)
  }

  /** What the new quantity must respect: what is filled already. */
  predicate Replaceable(o: Order, quantity: int) { quantity >= o.filled }

  lemma ReplaceInHand(lim: Limits, s: State, side: Side, k: nat, j: nat, price: int, quantity: int, ts: int)
    requires Inv(lim, s, multiset{}) && Spot(s.Book(side), k, j) && Replaceable(s.Book(side)[k].orders[j], quantity)
    ensures var o := s.Book(side)[k].orders[j];
      InHand(lim, PullAt(s, side, k, j, o.price), Replaced(o, price, quantity, ts))
  {
    hide Shape, Reconciled, Showing, Balanced, QtyOk, Traded;
    var o := s.Book(side)[k].orders[j];
    ReplacedQty(lim, s, side, k, j, price, quantity, ts);
    PullShape(lim, s, multiset{}, side, k, j, o.price);
    assert multiset{} + multiset{o.id} == multiset{o.id};
    PullReconciled(lim, s, multiset{}, side, k, j, o.price);
  }

  lemma ReplacedQty(lim: Limits, s: State, side: Side, k: nat, j: nat, price: int, quantity: int, ts: int)
    requires Inv(lim, s, multiset{}) && Spot(s.Book(side), k, j) && Replaceable(s.Book(side)[k].orders[j], quantity)
    ensures var o := Replaced(s.Book(side)[k].orders[j], price, quantity, ts);
      o.kind == Limit && QtyOk(o) && o.filled == Traded(s.ledger, o.id)
  {
    hide Balanced, Showing, Traded;
    var o := s.Book(side)[k].orders[j];
    SideOfShape(lim, s, multiset{}, side);
    assert BookLevel(side, s.Book(side)[k]) && RestsAt(side, s.Book(side)[k].price, o);
    assert s.Book(side)[k] in s.Book(side) && o in s.Book(side)[k].orders;
  }

  /** Reduce an order in its place. */
  function AmendAt(s: State, side: Side, k: nat, j: nat, quantity: int): State
    requires k < |s.Book(side)| && j < |s.Book(side)[k].orders|
  {
    var q := s.Book(side)[k].orders;
    var o := q[j].(quantity := quantity, remaining := quantity - q[j].filled);
    s.WithBook(side, PutQueue(s.Book(side), k, q[j := o]))
  }

  /** The feed says nothing of an amendment, so it stays true exactly when the order shows what it did. */
  lemma AmendTold(lim: Limits, s: State, side: Side, k: nat, j: nat, quantity: int)
    requires Inv(lim, s, multiset{}) && MirrorsBook(s) && Spot(s.Book(side), k, j) && quantity > s.Book(side)[k].orders[j].filled
    ensures MirrorsBook(AmendAt(s, side, k, j, quantity)) <==>
      quantity - s.Book(side)[k].orders[j].filled == s.Book(side)[k].orders[j].remaining
  {
    hide MirrorsBook, Shape;
    var ls := s.Book(side);
    var o := ls[k].orders[j];
    SortedBook(lim, s, multiset{}, side);
    assert ls[k] in ls && AllPositive(ls[k].orders);
    SwapMirrors(s, side, k, j, o.(quantity := quantity, remaining := quantity - o.filled));
  }

  lemma AmendInv(lim: Limits, s: State, side: Side, k: nat, j: nat, quantity: int)
    requires Inv(lim, s, multiset{}) && Spot(s.Book(side), k, j)
    requires s.Book(side)[k].orders[j].filled < quantity && Replaceable(s.Book(side)[k].orders[j], quantity)
    ensures Inv(lim, AmendAt(s, side, k, j, quantity), multiset{})
    ensures Uncrossed(s) ==> Uncrossed(AmendAt(s, side, k, j, quantity))
  {
    hide Inv, Uncrossed, QtyOk, PutQueue;
    var ls := s.Book(side);
    var q := ls[k].orders;
    var o := q[j].(quantity := quantity, remaining := quantity - q[j].filled);
    AmendQty(lim, s, side, k, j, quantity);
    SwapInv(lim, s, multiset{}, side, k, j, o);
    if Uncrossed(s) { PutUncrossed(s, side, k, q[j := o]); }
  }

  lemma AmendQty(lim: Limits, s: State, side: Side, k: nat, j: nat, quantity: int)
    requires Inv(lim, s, multiset{}) && Spot(s.Book(side), k, j)
    requires s.Book(side)[k].orders[j].filled < quantity && Replaceable(s.Book(side)[k].orders[j], quantity)
    ensures var q := s.Book(side)[k].orders;
      QtyOk(q[j].(quantity := quantity, remaining := quantity - q[j].filled))
  {
    SideOfShape(lim, s, multiset{}, side);
    assert BookLevel(side, s.Book(side)[k]) && RestsAt(side, s.Book(side)[k].price, s.Book(side)[k].orders[j]);
  }

  /** Changing the quantities of a resting order in its place, its fills aside. */
  lemma SwapInv(lim: Limits, s: State, hand: multiset<nat>, side: Side, k: nat, j: nat, o: Order)
    requires Inv(lim, s, hand) && Spot(s.Book(side), k, j)
    requires o == s.Book(side)[k].orders[j].(quantity := o.quantity, remaining := o.remaining) && QtyOk(o) && o.remaining > 0
    ensures Inv(lim, s.WithBook(side, PutQueue(s.Book(side), k, s.Book(side)[k].orders[j := o])), hand)
  {
    hide Shape, Balanced, ReconciledSide, Showing, BookSide, AllPositive, RestsAt, Traded, Sorted, QtyOk;
    var ls, q := s.Book(side), s.Book(side)[k].orders[j := o];
    SideOfShape(lim, s, hand, side);
    SortedBook(lim, s, hand, side);
    AmendRests(side, ls, k, j, o, s.ledger);
    BookSidePut(side, ls, k, q);
    IdBagUpdate(ls[k].orders, j, o);
    SameIdsPut(s, side, k, q);
    SameShape(lim, s, hand, side, PutQueue(ls, k, q), s.WithBook(side, PutQueue(ls, k, q)));
    PutReconciled(side, ls, k, q, s.ledger);
    PutShowing(side, ls, k, q);
  }

  lemma AmendRests(side: Side, ls: seq<Level>, k: nat, j: nat, o: Order, l: Ledger)
    requires BookSide(side, ls) && Spot(ls, k, j) && Showing(ls) && ReconciledSide(ls, l)
    requires o == ls[k].orders[j].(quantity := o.quantity, remaining := o.remaining) && QtyOk(o) && o.remaining > 0
    ensures forall x :: x in ls[k].orders[j := o] ==> RestsAt(side, ls[k].price, x) && x.filled == Traded(l, x.id)
    ensures AllPositive(ls[k].orders[j := o])
  {
    var q := ls[k].orders;
    assert ls[k] in ls && BookLevel(side, ls[k]) && q[j] in q && AllPositive(q);
    forall x | x in q[j := o] ensures RestsAt(side, ls[k].price, x) && x.filled == Traded(l, x.id) {
      var i :| 0 <= i < |q| && q[j := o][i] == x;
      if i != j { assert x == q[i] && x in q; }
    }
  }

  /** What modify_order needs of its target: a resting limit order the new quantity suits. */
  ghost predicate Modifiable(s: State, id: nat, quantity: int) {
    forall o :: Held(s, o) && o.id == id ==> o.kind == Limit && Replaceable(o, quantity)
  }

  function ModifyRejection(r: Rules, session: SessionState, live: set<nat>, id: nat, price: int, quantity: int,
                           throttled: bool): Option<RejectReason>
  {
    if session == Closed then Some(ExchangeSpecific)
    else if id !in live then Some(UnknownOrder)
    else if throttled then Some(RateThrottled)
    else if quantity <= 0 then Some(InvalidQuantity)
    else if price <= 0 || (r.tick > 0 && price % r.tick != 0) then Some(InvalidPrice)
    else if r.lot > 0 && quantity % r.lot != 0 then Some(InvalidQuantity)
    else if r.amend == RejectModify then Some(ExchangeSpecific)
    else None
  }

  lemma ModifyKnows(r: Rules, s: State, id: nat, price: int, quantity: int, throttled: bool)
    requires ModifyRejection(r, s.session, s.live, id, price, quantity, throttled).None?
    ensures id in s.live && quantity > 0 && price > 0
  {
  }

  lemma ModifyTarget(lim: Limits, s: State, at: Place, id: nat, quantity: int)
    requires Inv(lim, s, multiset{}) && Spot(ListAt(s, at), at.k, at.j) && ListAt(s, at)[at.k].orders[at.j].id == id
    requires Modifiable(s, id, quantity)
    ensures !at.stops && Replaceable(s.Book(at.side)[at.k].orders[at.j], quantity) && CachesOk(s.Book(at.side)[at.k])
  {
    var ls := ListAt(s, at);
    var o := ls[at.k].orders[at.j];
    assert ls[at.k] in ls && o in ls[at.k].orders;
    assert Listed(ls, o);
    assert Held(s, o);
    if at.stops {
      StopSideOf(lim, s, multiset{}, at.side);
      UnparkSide(at.side, ls, at.k, at.j);
    }
  }

  lemma PullKeeps(lim: Limits, s: State, side: Side, k: nat, j: nat)
    requires Inv(lim, s, multiset{}) && Spot(s.Book(side), k, j)
    ensures var s' := PullAt(s, side, k, j, s.Book(side)[k].orders[j].price);
      (MirrorsBook(s) ==> MirrorsBook(s')) && (Uncrossed(s) ==> Uncrossed(s'))
      && s'.session == s.session && s'.nextId == s.nextId && s'.ledger == s.ledger
  {
    var price := s.Book(side)[k].orders[j].price;
    if MirrorsBook(s) { PullMirrors(lim, s, multiset{}, side, k, j, price); }
    if Uncrossed(s) { PutUncrossed(s, side, k, Without(s.Book(side)[k].orders, j)); }
  }
}
