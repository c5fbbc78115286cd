/**
  What each elementary change keeps: the shape of lists, index and pools, and the agreement
  between the book and the book a subscriber rebuilds from the L3 feed.
 */
module Steps {
  import opened Types
  import opened Queues
  import opened Levels
  import opened Tape
  import opened Ledger
  import opened EngineState

  // ---------------------------------------------------------------- shape

  lemma UniqueIds(lim: Limits, s: State, hand: multiset<nat>, id: nat)
    requires Shape(lim, s, hand)
    ensures Bag(s.bids)[id] + Bag(s.asks)[id] + Bag(s.buyStops)[id] + Bag(s.sellStops)[id] + hand[id] <= 1
  {
    assert (AllIds(s) + hand)[id] == multiset(s.live)[id];
  }

  lemma UniqueInQueue(lim: Limits, s: State, hand: multiset<nat>, side: Side, k: nat)
    requires Shape(lim, s, hand) && k < |s.Book(side)|
    ensures NoDup(s.Book(side)[k].orders)
  {
    var q := s.Book(side)[k].orders;
    BagSplit(s.Book(side), k);
    forall id ensures IdBag(q)[id] <= 1 { UniqueIds(lim, s, hand, id); }
    IdBagUnique(q);
  }

  lemma BookSidePut(side: Side, ls: seq<Level>, k: nat, q: seq<Order>)
    requires BookSide(side, ls) && k < |ls|
    requires forall o :: o in q ==> RestsAt(side, ls[k].price, o)
    ensures BookSide(side, PutQueue(ls, k, q))
  {
    PutWellFormed(side, ls, k, q);
    PutMembers(side, ls, k, q);
  }

  lemma AllIdsPut(s: State, side: Side, k: nat, q: seq<Order>)
    requires k < |s.Book(side)|
    ensures AllIds(s.WithBook(side, PutQueue(s.Book(side), k, q))) + IdBag(s.Book(side)[k].orders)
         == AllIds(s) + IdBag(q)
  {
    hide PutQueue, Bag, IdBag;
    var ls := s.Book(side);
    var ls' := PutQueue(ls, k, q);
    PutBag(ls, k, q);
    forall x ensures AllIds(s.WithBook(side, ls'))[x] + IdBag(ls[k].orders)[x] == AllIds(s)[x] + IdBag(q)[x] {
      assert (Bag(ls') + IdBag(ls[k].orders))[x] == (Bag(ls) + IdBag(q))[x];
    }
  }

  lemma SameIdsPut(s: State, side: Side, k: nat, q: seq<Order>)
    requires k < |s.Book(side)| && IdBag(q) == IdBag(s.Book(side)[k].orders)
    ensures AllIds(s.WithBook(side, PutQueue(s.Book(side), k, q))) == AllIds(s)
  {
    AllIdsPut(s, side, k, q);
    var a, b := AllIds(s.WithBook(side, PutQueue(s.Book(side), k, q))), IdBag(q);
    assert b == b + multiset{};
    BagCancel(a, b, AllIds(s), multiset{});
  }

  lemma WithoutIdPut(s: State, side: Side, k: nat, j: nat)
    requires k < |s.Book(side)| && j < |s.Book(side)[k].orders|
    ensures var q := s.Book(side)[k].orders;
      AllIds(s.WithBook(side, PutQueue(s.Book(side), k, Without(q, j)))) + multiset{q[j].id} == AllIds(s)
  {
    var q := s.Book(side)[k].orders;
    var q' := Without(q, j);
    AllIdsPut(s, side, k, q');
    IdBagWithout(q, j);
    var a := AllIds(s.WithBook(side, PutQueue(s.Book(side), k, q')));
    forall x ensures a[x] + multiset{q[j].id}[x] == AllIds(s)[x] {
      assert (a + IdBag(q))[x] == (AllIds(s) + IdBag(q'))[x];
    }
  }

  lemma TakeShape(lim: Limits, s: State, hand: multiset<nat>, side: Side, k: nat, j: nat, n: int, fp: int)
    requires Shape(lim, s, hand) && Spot(s.Book(side), k, j)
    requires 0 < n <= s.Book(side)[k].orders[j].remaining
    ensures Shape(lim, TakeAt(s, side, k, j, n, fp), hand)
  {
    var ls := s.Book(side);
    var q := ls[k].orders;
    var q' := q[j := q[j].Filled(n)];
    SideOfShape(lim, s, hand, side);
    TakeRests(side, ls, k, j, n);
    BookSidePut(side, ls, k, q');
    IdBagUpdate(q, j, q[j].Filled(n));
    SameIdsPut(s, side, k, q');
    SameShape(lim, s, hand, side, PutQueue(ls, k, q'), TakeAt(s, side, k, j, n, fp));
  }

  lemma SideOfShape(lim: Limits, s: State, hand: multiset<nat>, side: Side)
    requires Shape(lim, s, hand)
    ensures BookSide(side, s.Book(side))
  {
  }

  lemma TakeRests(side: Side, ls: seq<Level>, k: nat, j: nat, n: int)
    requires BookSide(side, ls) && Spot(ls, k, j) && 0 < n <= ls[k].orders[j].remaining
    ensures forall o :: o in ls[k].orders[j := ls[k].orders[j].Filled(n)] ==> RestsAt(side, ls[k].price, o)
  {
    var q := ls[k].orders;
    var q' := q[j := q[j].Filled(n)];
    assert BookLevel(side, ls[k]);
    assert RestsAt(side, ls[k].price, q[j]);
    forall o | o in q' ensures RestsAt(side, ls[k].price, o) {
      var i :| 0 <= i < |q'| && q'[i] == o;
      if i != j { assert o == q[i]; }
    }
  }

  /** A side replaced by one with as many levels and the same orders. */
  lemma SameShape(lim: Limits, s: State, hand: multiset<nat>, side: Side, ls: seq<Level>, s': State)
    requires Shape(lim, s, hand) && BookSide(side, ls) && |ls| == |s.Book(side)|
    requires AllIds(s.WithBook(side, ls)) == AllIds(s)
    requires s' == s.WithBook(side, ls).(feed := s'.feed)
    ensures Shape(lim, s', hand)
  {
    hide BookSide, StopSide, Bag;
  }

  /** Moving an order to the back of its queue with a new visible quantity. */
  lemma RequeueShape(lim: Limits, s: State, hand: multiset<nat>, side: Side, k: nat, j: nat, o: Order)
    requires Shape(lim, s, hand) && Spot(s.Book(side), k, j)
    requires RestsAt(side, s.Book(side)[k].price, o) && o.id == s.Book(side)[k].orders[j].id
    ensures Shape(lim, s.WithBook(side, PutQueue(s.Book(side), k, Without(s.Book(side)[k].orders, j) + [o])), hand)
  {
    var ls := s.Book(side);
    var q := ls[k].orders;
    var q' := Without(q, j) + [o];
    SideOfShape(lim, s, hand, side);
    assert BookLevel(side, ls[k]);
    BookSidePut(side, ls, k, q');
    IdBagWithout(q, j);
    IdBagSnoc(Without(q, j), o);
    SameIdsPut(s, side, k, q');
    SameShape(lim, s, hand, side, PutQueue(ls, k, q'), s.WithBook(side, PutQueue(ls, k, q')));
  }

  lemma UnlinkShapeBeside(lim: Limits, s: State, hand: multiset<nat>, side: Side, k: nat, j: nat, s': State)
    requires Shape(lim, s, hand) && Spot(s.Book(side), k, j)
    requires s' == s.WithBook(side, PutQueue(s.Book(side), k, Without(s.Book(side)[k].orders, j)))
                    .(freeLevels := s.freeLevels + if |s.Book(side)[k].orders| == 1 then 1 else 0,
                      feed := s'.feed)
    ensures Shape(lim, s', hand + multiset{s.Book(side)[k].orders[j].id})
  {
    var ls := s.Book(side);
    var q := ls[k].orders;
    assert BookLevel(side, ls[k]);
    BookSidePut(side, ls, k, Without(q, j));
    WithoutIdPut(s, side, k, j);
    assert AllIds(s') + (hand + multiset{q[j].id}) == (AllIds(s') + multiset{q[j].id}) + hand;
  }

  /** Freeing an order in hand. */
  lemma FreeShape(lim: Limits, s: State, hand: multiset<nat>, id: nat)
    requires Shape(lim, s, hand + multiset{id})
    ensures Shape(lim, Free(s, id), hand)
  {
    var all := AllIds(s) + (hand + multiset{id});
    assert all[id] >= 1;
    assert id in s.live;
    forall x ensures (AllIds(s) + hand)[x] == multiset(s.live - {id})[x] {
      assert all[x] == multiset(s.live)[x];
    }
  }

  lemma SettleShape(lim: Limits, s: State, hand: multiset<nat>, side: Side, k: nat, j: nat)
    requires Shape(lim, s, hand) && Spot(s.Book(side), k, j)
    ensures Shape(lim, SettleAt(s, side, k, j), hand)
  {
    var ls := s.Book(side);
    var o := ls[k].orders[j];
    assert BookLevel(side, ls[k]);
    assert RestsAt(side, ls[k].price, o);
    if o.remaining == 0 {
      if o.HasHidden() {
        RequeueShape(lim, s, hand, side, k, j, o.(remaining := o.NextTranche()));
      } else {
        var s1 := s.WithBook(side, PutQueue(ls, k, Without(ls[k].orders, j)))
                   .(freeLevels := s.freeLevels + if |ls[k].orders| == 1 then 1 else 0);
        UnlinkShapeBeside(lim, s, hand, side, k, j, s1);
        FreeShape(lim, s1, hand, o.id);
        assert Free(s1, o.id) == SettleAt(s, side, k, j);
      }
    }
  }

  lemma RestShape(lim: Limits, s: State, o: Order)
    requires Shape(lim, s, multiset{o.id})
    requires RestsAt(o.side, o.price, o)
    ensures Shape(lim, Rest(s, o), multiset{})
  {
    if s.freeLevels == 0 {
      assert multiset{} + multiset{o.id} == multiset{o.id};
      FreeShape(lim, s, multiset{}, o.id);
    } else {
      InsertShape(lim, s, o);
    }
  }

  lemma InsertShape(lim: Limits, s: State, o: Order)
    requires Shape(lim, s, multiset{o.id}) && s.freeLevels > 0
    requires RestsAt(o.side, o.price, o)
    ensures Shape(lim, Rest(s, o), multiset{})
  {
    var ls := s.Book(o.side);
    SideOfShape(lim, s, multiset{o.id}, o.side);
    InsertSide(o.side, ls, o);
    InsertOk(o.side, ls, o.price, o);
    NonEmptyQueue(o.side, ls, o.price);
    GrownShape(lim, s, o, Insert(o.side, ls, o.price, o), Rest(s, o));
  }

  lemma InsertSide(side: Side, ls: seq<Level>, o: Order)
    requires BookSide(side, ls) && RestsAt(side, o.price, o)
    ensures BookSide(side, Insert(side, ls, o.price, o))
  {
    InsertOk(side, ls, o.price, o);
    InsertMembers(side, ls, o.price, o);
    forall p | p in QueueAt(side, ls, o.price) + [o] ensures RestsAt(side, o.price, p) {
      if p != o { QueueMember(side, ls, o.price, p); }
    }
  }

  /** A side that gained the order in hand. */
  lemma GrownShape(lim: Limits, s: State, o: Order, ls: seq<Level>, s': State)
    requires Shape(lim, s, multiset{o.id}) && BookSide(o.side, ls) && Bag(ls) == Bag(s.Book(o.side)) + multiset{o.id}
    requires s' == s.WithBook(o.side, ls).(freeLevels := s'.freeLevels, feed := s'.feed)
    requires s'.freeLevels >= 0 && s'.LevelCount() + s'.freeLevels == s.LevelCount() + s.freeLevels
    ensures Shape(lim, s', multiset{})
  {
    hide BookSide, StopSide, Bag;
    assert AllIds(s') == AllIds(s) + multiset{o.id};
  }

  lemma NonEmptyQueue(dir: Side, ls: seq<Level>, p: int)
    requires WellFormed(dir, ls)
    ensures HasPrice(ls, p) <==> QueueAt(dir, ls, p) != []
  {
    SlotPrice(dir, ls, p);
  }

  lemma QueueMember(side: Side, ls: seq<Level>, price: int, o: Order)
    requires BookSide(side, ls) && o in QueueAt(side, ls, price)
    ensures RestsAt(side, price, o)
  {
    var k := Slot(side, ls, price);
    assert BookLevel(side, ls[k]);
  }

  // ---------------------------------------------------------------- the feed

  /** The order at a spot is in no other queue of the book. */
  lemma NowhereElse(lim: Limits, s: State, hand: multiset<nat>, side: Side, k: nat, j: nat, sd: Side, p: int)
    requires Shape(lim, s, hand) && Spot(s.Book(side), k, j)
    requires sd != side || p != s.Book(side)[k].price
    ensures Absent(Visible(sd, p, QueueAt(sd, s.Book(sd), p)), s.Book(side)[k].orders[j].id)
  {
    var id := s.Book(side)[k].orders[j].id;
    UniqueIds(lim, s, hand, id);
    if sd == side {
      OnlyHere(side, s.Book(side), k, j, p);
    } else {
      BagSplit(s.Book(side), k);
      IdBagMember(s.Book(side)[k].orders, j);
      NowhereAt(sd, s.Book(sd), id, p);
    }
    VisibleAbsent(sd, p, QueueAt(sd, s.Book(sd), p), id);
  }

  /** One side mirrors a new tape that agrees with the old one away from level k. */
  lemma MirrorPut(t: seq<Entry>, t': seq<Entry>, side: Side, ls: seq<Level>, k: nat, q: seq<Order>)
    requires Sorted(side, ls) && k < |ls| && MirrorsSide(t, side, ls)
    requires forall p :: p != ls[k].price ==> At(t', side, p) == At(t, side, p)
    requires At(t', side, ls[k].price) == Visible(side, ls[k].price, q)
    ensures MirrorsSide(t', side, PutQueue(ls, k, q))
  {
    forall p ensures At(t', side, p) == Visible(side, p, QueueAt(side, PutQueue(ls, k, q), p)) {
      QueueAtPut(side, ls, k, q, p);
      assert At(t, side, p) == Visible(side, p, QueueAt(side, ls, p));
    }
  }

  lemma MirrorOther(t: seq<Entry>, t': seq<Entry>, side: Side, ls: seq<Level>)
    requires MirrorsSide(t, side, ls) && forall p :: At(t', side, p) == At(t, side, p)
    ensures MirrorsSide(t', side, ls)
  {
    forall p ensures At(t', side, p) == Visible(side, p, QueueAt(side, ls, p)) {
      assert At(t, side, p) == Visible(side, p, QueueAt(side, ls, p));
    }
  }

  lemma MirrorSideOf(s: State, side: Side)
    requires MirrorsBook(s)
    ensures MirrorsSide(Replay(s.feed), side, s.Book(side))
  {
  }

  lemma MirrorAtLevel(t: seq<Entry>, side: Side, ls: seq<Level>, k: nat)
    requires MirrorsSide(t, side, ls) && Sorted(side, ls) && k < |ls|
    ensures At(t, side, ls[k].price) == Visible(side, ls[k].price, ls[k].orders)
  {
    QueueAtLevel(side, ls, k);
  }

  lemma MirrorAt(s: State, sd: Side, p: int)
    requires MirrorsBook(s)
    ensures At(Replay(s.feed), sd, p) == Visible(sd, p, QueueAt(sd, s.Book(sd), p))
  {
  }

  lemma ReduceElsewhere(lim: Limits, s: State, hand: multiset<nat>, side: Side, k: nat, j: nat, n: int, sd: Side, p: int)
    requires Shape(lim, s, hand) && Spot(s.Book(side), k, j) && MirrorsBook(s)
    requires sd != side || p != s.Book(side)[k].price
    ensures At(Reduce(Replay(s.feed), s.Book(side)[k].orders[j].id, n), sd, p) == At(Replay(s.feed), sd, p)
  {
    var t, id := Replay(s.feed), s.Book(side)[k].orders[j].id;
    AtReduce(t, id, n, sd, p);
    MirrorAt(s, sd, p);
    NowhereElse(lim, s, hand, side, k, j, sd, p);
    ReduceAbsent(At(t, sd, p), id, n);
  }

  lemma TakeMirrors(lim: Limits, s: State, hand: multiset<nat>, side: Side, k: nat, j: nat, n: int, fp: int)
    requires Shape(lim, s, hand) && Spot(s.Book(side), k, j) && MirrorsBook(s)
    requires 0 < n <= s.Book(side)[k].orders[j].remaining
    ensures MirrorsBook(TakeAt(s, side, k, j, n, fp))
  {
    var ls := s.Book(side);
    var q := ls[k].orders;
    var t' := Reduce(Replay(s.feed), q[j].id, n);
    ReplaySnoc(s.feed, BookAction(q[j].id, side, fp, n, Action.Fill));
    TakeMirrorsSide(lim, s, hand, side, k, j, n);
    var other := side.Opposite();
    forall p ensures At(t', other, p) == At(Replay(s.feed), other, p) {
      ReduceElsewhere(lim, s, hand, side, k, j, n, other, p);
    }
    MirrorSideOf(s, other);
    MirrorOther(Replay(s.feed), t', other, s.Book(other));
  }

  lemma TakeMirrorsSide(lim: Limits, s: State, hand: multiset<nat>, side: Side, k: nat, j: nat, n: int)
    requires Shape(lim, s, hand) && Spot(s.Book(side), k, j) && MirrorsBook(s)
    requires 0 < n <= s.Book(side)[k].orders[j].remaining
    ensures var q := s.Book(side)[k].orders;
      MirrorsSide(Reduce(Replay(s.feed), q[j].id, n), side, PutQueue(s.Book(side), k, q[j := q[j].Filled(n)]))
  {
    var ls := s.Book(side);
    var q, price, t := ls[k].orders, ls[k].price, Replay(s.feed);
    var t' := Reduce(t, q[j].id, n);
    SortedBook(lim, s, hand, side);
    UniqueInQueue(lim, s, hand, side, k);
    forall p | p != price ensures At(t', side, p) == At(t, side, p) {
      ReduceElsewhere(lim, s, hand, side, k, j, n, side, p);
    }
    MirrorSideOf(s, side);
    hide Shape, MirrorsBook, MirrorsSide;
    AtReduce(t, q[j].id, n, side, price);
    MirrorAtLevel(t, side, ls, k);
    VisibleTake(side, price, q, j, n);
    MirrorPut(t, t', side, ls, k, q[j := q[j].Filled(n)]);
  }

  lemma SortedBook(lim: Limits, s: State, hand: multiset<nat>, side: Side)
    requires Shape(lim, s, hand)
    ensures Sorted(side, s.Book(side))
  {
  }

  lemma DropElsewhere(lim: Limits, s: State, hand: multiset<nat>, side: Side, k: nat, j: nat, sd: Side, p: int)
    requires Shape(lim, s, hand) && Spot(s.Book(side), k, j) && MirrorsBook(s)
    requires sd != side || p != s.Book(side)[k].price
    ensures At(Drop(Replay(s.feed), s.Book(side)[k].orders[j].id), sd, p) == At(Replay(s.feed), sd, p)
  {
    var t, id := Replay(s.feed), s.Book(side)[k].orders[j].id;
    AtDrop(t, id, sd, p);
    MirrorAt(s, sd, p);
    NowhereElse(lim, s, hand, side, k, j, sd, p);
    DropAbsent(At(t, sd, p), id);
  }

  lemma PullMirrors(lim: Limits, s: State, hand: multiset<nat>, side: Side, k: nat, j: nat, fp: int)
    requires Shape(lim, s, hand) && Spot(s.Book(side), k, j) && MirrorsBook(s)
    ensures MirrorsBook(PullAt(s, side, k, j, fp))
  {
    var ls := s.Book(side);
    var q := ls[k].orders;
    var t' := Drop(Replay(s.feed), q[j].id);
    ReplaySnoc(s.feed, BookAction(q[j].id, side, fp, q[j].remaining, Action.Cancel));
    PullMirrorsSide(lim, s, hand, side, k, j);
    var other := side.Opposite();
    forall p ensures At(t', other, p) == At(Replay(s.feed), other, p) {
      DropElsewhere(lim, s, hand, side, k, j, other, p);
    }
    MirrorSideOf(s, other);
    MirrorOther(Replay(s.feed), t', other, s.Book(other));
  }

  lemma PullMirrorsSide(lim: Limits, s: State, hand: multiset<nat>, side: Side, k: nat, j: nat)
    requires Shape(lim, s, hand) && Spot(s.Book(side), k, j) && MirrorsBook(s)
    ensures var q := s.Book(side)[k].orders;
      MirrorsSide(Drop(Replay(s.feed), q[j].id), side, PutQueue(s.Book(side), k, Without(q, j)))
  {
    var ls := s.Book(side);
    var q, price, t := ls[k].orders, ls[k].price, Replay(s.feed);
    var t' := Drop(t, q[j].id);
    SortedBook(lim, s, hand, side);
    UniqueInQueue(lim, s, hand, side, k);
    forall p | p != price ensures At(t', side, p) == At(t, side, p) {
      DropElsewhere(lim, s, hand, side, k, j, side, p);
    }
    MirrorSideOf(s, side);
    hide Shape, MirrorsBook, MirrorsSide;
    AtDrop(t, q[j].id, side, price);
    MirrorAtLevel(t, side, ls, k);
    VisibleWithout(side, price, q, j);
    MirrorPut(t, t', side, ls, k, Without(q, j));
  }

  lemma AtSnoc(t: seq<Entry>, e: Entry, sd: Side, p: int)
    ensures At(t + [e], sd, p) == At(t, sd, p) + if e.side == sd && e.price == p then [e] else []
  {
    AtConcat(t, [e], sd, p);
    assert At([e], sd, p) == (if e.side == sd && e.price == p then [e] else []) + At([e][1..], sd, p);
  }

  lemma SettleMirrors(lim: Limits, s: State, hand: multiset<nat>, side: Side, k: nat, j: nat)
    requires Shape(lim, s, hand) && Spot(s.Book(side), k, j) && MirrorsBook(s)
    ensures MirrorsBook(SettleAt(s, side, k, j))
  {
    hide MirrorsSide, PutQueue, Without, Visible, Replay;
    var ls := s.Book(side);
    var q, price, t := ls[k].orders, ls[k].price, Replay(s.feed);
    var o := q[j];
    MirrorSideOf(s, side);
    MirrorSideOf(s, side.Opposite());
    SortedBook(lim, s, hand, side);
    RestsThere(lim, s, hand, side, k, j);
    if o.remaining == 0 && o.HasHidden() {
      ReplaySnoc(s.feed, BookAction(o.id, side, price, o.NextTranche(), Action.Add));
      RevealMirrors(t, side, ls, k, j, s.Book(side.Opposite()));
    } else if o.remaining == 0 {
      MirrorAtLevel(t, side, ls, k);
      VisibleUnlink(side, price, q, j);
      MirrorPut(t, t, side, ls, k, Without(q, j));
    }
  }

  lemma RestsThere(lim: Limits, s: State, hand: multiset<nat>, side: Side, k: nat, j: nat)
    requires Shape(lim, s, hand) && Spot(s.Book(side), k, j)
    ensures RestsAt(side, s.Book(side)[k].price, s.Book(side)[k].orders[j])
  {
    hide WellFormed, Bag;
    assert BookLevel(side, s.Book(side)[k]);
  }

  /** A tranche announced as a new entry at the back. */
  lemma RevealMirrors(t: seq<Entry>, side: Side, ls: seq<Level>, k: nat, j: nat, other: seq<Level>)
    requires Sorted(side, ls) && Spot(ls, k, j) && MirrorsSide(t, side, ls) && MirrorsSide(t, side.Opposite(), other)
    requires ls[k].orders[j].remaining == 0 && ls[k].orders[j].HasHidden()
    ensures var o := ls[k].orders[j].(remaining := ls[k].orders[j].NextTranche());
      var t' := t + [Entry(o.id, side, ls[k].price, o.remaining)];
      && MirrorsSide(t', side, PutQueue(ls, k, Without(ls[k].orders, j) + [o]))
      && MirrorsSide(t', side.Opposite(), other)
  {
    hide MirrorsSide, PutQueue, Without;
    var q, price := ls[k].orders, ls[k].price;
    var o := q[j].(remaining := q[j].NextTranche());
    var e := Entry(o.id, side, price, o.remaining);
    MirrorAtLevel(t, side, ls, k);
    VisibleUnlink(side, price, q, j);
    forall sd, p ensures At(t + [e], sd, p) == At(t, sd, p) + if side == sd && price == p then [e] else [] {
      AtSnoc(t, e, sd, p);
    }
    VisibleConcat(side, price, Without(q, j), [o]);
    assert Visible(side, price, [o]) == [e];
    MirrorPut(t, t + [e], side, ls, k, Without(q, j) + [o]);
    MirrorOther(t, t + [e], side.Opposite(), other);
  }

  lemma RestMirrors(lim: Limits, s: State, o: Order)
    requires Shape(lim, s, multiset{o.id}) && MirrorsBook(s) && o.remaining > 0
    ensures MirrorsBook(Rest(s, o))
  {
    if s.freeLevels != 0 {
      var ls, t := s.Book(o.side), Replay(s.feed);
      var e := Entry(o.id, o.side, o.price, o.remaining);
      ReplaySnoc(s.feed, BookAction(o.id, o.side, o.price, o.remaining, Action.Add));
      forall p ensures At(t + [e], o.side, p) == Visible(o.side, p, QueueAt(o.side, Insert(o.side, ls, o.price, o), p)) {
        QueueAtInsert(o.side, ls, o.price, o, p);
        AtSnoc(t, e, o.side, p);
        MirrorAt(s, o.side, p);
        VisibleConcat(o.side, p, QueueAt(o.side, ls, p), [o]);
        assert Visible(o.side, p, [o]) == [Entry(o.id, o.side, p, o.remaining)];
      }
      var other := o.side.Opposite();
      forall p ensures At(t + [e], other, p) == At(t, other, p) { AtSnoc(t, e, other, p); }
      MirrorSideOf(s, other);
      MirrorOther(t, t + [e], other, s.Book(other));
    }
  }
}
