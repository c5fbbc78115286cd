/**
  Continuous matching against the best opposite level.  A matching policy takes all its
  fills from the queue at once; the engine then commits them one by one and, on a
  self-match, puts the uncommitted ones back.  Winding relates the two views: the stored
  level is the level as committed so far with the pending fills already taken out.
 */
module Matching {
  import opened Types
  import opened Queues
  import opened Levels
  import opened Tape
  import opened Ledger
  import opened EngineState
  import opened Steps
  import opened Trading

  /** The side as stored while the fills `fs` are taken but not committed. */
  function Wind(ls: seq<Level>, fs: seq<Fill>): seq<Level> {
    if ls == [] then [] else ls[0 := ls[0].(orders := Wound(ls[0].orders, fs))]
  }

  /** Fills of a queue that may still be committed, in order. */
  ghost predicate Pending(q: seq<Order>, price: int, fs: seq<Fill>) {
    && (forall k :: 0 <= k < |fs| ==> fs[k].price == price && fs[k].quantity > 0)
    && Reports(q, fs)
    && (forall i :: 0 <= i < |q| ==> FillsFor(fs, q[i].id) <= q[i].remaining)
  }

  lemma WindNothing(ls: seq<Level>)
    ensures Wind(ls, []) == ls
  {
    if ls != [] {
      assert Wound(ls[0].orders, []) == ls[0].orders;
    }
  }

  lemma FillsForHead(fs: seq<Fill>, k: nat, id: nat)
    requires 0 < k <= |fs|
    ensures FillsFor(fs[..k], id) == (if fs[0].resting == id then fs[0].quantity else 0) + FillsFor(fs[1..][..k-1], id)
  {
    assert fs[..k][1..] == fs[1..][..k-1];
  }

  /** The first pending fill: its order, and what is left of it. */
  lemma FirstPending(q: seq<Order>, price: int, fs: seq<Fill>) returns (j: nat)
    requires Pending(q, price, fs) && fs != []
    ensures Holds(q, j, fs[0].resting) && 0 < fs[0].quantity <= q[j].remaining
    ensures fs[0].restingRemaining == q[j].remaining - fs[0].quantity
    ensures fs[0].restingRemaining == 0 ==> FillsFor(fs[1..], q[j].id) == 0
  {
    assert ReportsAt(q, fs, 0);
    j :| Holds(q, j, fs[0].resting) && fs[0].restingRemaining == q[j].remaining - FillsFor(fs[..1], q[j].id);
    FillsForHead(fs, 1, q[j].id);
    assert FillsFor(fs[1..][..0], q[j].id) == 0;
    FillsForNonneg(fs[1..], q[j].id);
  }

  lemma FillsAreFor(q: seq<Order>, fs: seq<Fill>)
    requires Reports(q, fs)
    ensures forall k :: 0 <= k < |fs| ==> fs[k].resting in Ids(q)
  {
    forall k | 0 <= k < |fs| ensures fs[k].resting in Ids(q) {
      assert ReportsAt(q, fs, k);
      var j: nat :| Holds(q, j, fs[k].resting);
      assert Ids(q)[j] == fs[k].resting;
    }
  }

  /** Committing a fill leaves the rest pending on the queue it leaves. */
  lemma PendingStep(q: seq<Order>, price: int, fs: seq<Fill>, j: nat)
    requires Pending(q, price, fs) && fs != [] && NoDup(q) && Holds(q, j, fs[0].resting)
    ensures Pending(FillQ(q, j, fs[0].quantity), price, fs[1..])
  {
    var n, rest := fs[0].quantity, fs[1..];
    var q' := FillQ(q, j, n);
    var j0 := FirstPending(q, price, fs);
    assert j0 == j;
    FillsForNonneg(rest, q[j].id);
    forall i | 0 <= i < |q'| ensures FillsFor(rest, q'[i].id) <= q'[i].remaining {
      SameSpot(q, j, n, i);
    }
    forall k | 0 <= k < |rest| ensures ReportsAt(q', rest, k) {
      assert ReportsAt(q, fs, k + 1);
      var i: nat :| Holds(q, i, fs[k+1].resting) &&
        fs[k+1].restingRemaining == q[i].remaining - FillsFor(fs[..k+2], q[i].id);
      FillsForHead(fs, k + 2, q[i].id);
      assert rest[k].resting == q[i].id;
      if i == j { assert FillsFor(rest, q[j].id) > 0; }
      var i' := NewSpot(q, j, n, i);
      assert Holds(q', i', rest[k].resting);
    }
  }

  /** Where each order of the queue comes from. */
  lemma SameSpot(q: seq<Order>, j: nat, n: int, i: nat)
    requires j < |q| && 0 < n <= q[j].remaining && i < |FillQ(q, j, n)|
    ensures FillQ(q, j, n)[i] in q || FillQ(q, j, n)[i].id == q[j].id
    ensures var o := FillQ(q, j, n)[i];
      || (exists k :: 0 <= k < |q| && k != j && q[k] == o)
      || (o.id == q[j].id && (o == q[j].Filled(n) || (q[j].remaining == n && o.remaining > 0)))
  {
    var q', o := FillQ(q, j, n), FillQ(q, j, n)[i];
    if q[j].remaining != n {
      if i != j { assert q[i] == o; }
    } else if i < j {
      assert q[i] == o;
    } else if i < |q| - 1 {
      assert q[i+1] == o;
    }
  }

  /** Where an order that is still due a fill ends up. */
  ghost function NewSpot(q: seq<Order>, j: nat, n: int, i: nat): (r: nat)
    requires j < |q| && i < |q| && (i != j || q[j].remaining != n)
    ensures r < |FillQ(q, j, n)|
    ensures FillQ(q, j, n)[r] == if i == j then q[j].Filled(n) else q[i]
  {
    if q[j].remaining != n || i < j then i else i - 1
  }

  // ---------------------------------------------------------------- winding

  /** What committing a fill does to the stored level, caches and all. */
  function Commit(lv: Level, j: nat, f: Fill): Level
    requires j < |lv.orders|
  {
    var o := lv.orders[j];
    if f.restingRemaining != 0 then lv.(total := lv.total - f.quantity)
    else if o.HasHidden() then
      lv.(total := lv.total - f.quantity + o.NextTranche(),
          orders := Without(lv.orders, j) + [o.(remaining := o.NextTranche())])
    else
      Level(lv.price, lv.total - f.quantity - o.remaining, lv.count - 1, Without(lv.orders, j))
  }

  lemma WoundStep(q: seq<Order>, price: int, fs: seq<Fill>, j: nat)
    requires Pending(q, price, fs) && fs != [] && NoDup(q) && Holds(q, j, fs[0].resting)
    ensures Commit(Level(0, 0, 0, Wound(q, fs)), j, fs[0]).orders == Wound(FillQ(q, j, fs[0].quantity), fs[1..])
  {
    var n, rest := fs[0].quantity, fs[1..];
    var j0 := FirstPending(q, price, fs);
    assert j0 == j;
    var w, w' := Wound(q, fs), Wound(FillQ(q, j, n), rest);
    assert forall i :: 0 <= i < |q| && i != j ==> FillsFor(fs, q[i].id) == FillsFor(rest, q[i].id);
    assert FillsFor(fs, q[j].id) == n + FillsFor(rest, q[j].id);
    if fs[0].restingRemaining != 0 {
      assert w == w';
    } else {
      assert w[j] == q[j].Filled(n);
      assert Without(w, j) == Wound(Without(q, j), rest);
      var o := w[j].(remaining := w[j].NextTranche());
      if w[j].HasHidden() {
        assert w' == Without(w, j) + [o.Filled(FillsFor(rest, o.id))];
      }
    }
  }

  lemma FillQSum(q: seq<Order>, j: nat, n: int)
    requires j < |q|
    ensures SumRem(FillQ(q, j, n)) == SumRem(q) - n +
      if q[j].remaining == n && q[j].Filled(n).HasHidden() then q[j].Filled(n).NextTranche() else 0
  {
    var o := q[j].Filled(n);
    SumRemUpdate(q, j, o);
    SumRemWithout(q, j);
    SumRemSnoc(Without(q, j), o.(remaining := o.NextTranche()));
  }

  /** Committing on the stored level is committing on the level it stands for. */
  lemma WindCommit(lv: Level, fs: seq<Fill>, j: nat)
    requires CachesOk(lv) && Pending(lv.orders, lv.price, fs) && fs != [] && NoDup(lv.orders)
    requires Holds(lv.orders, j, fs[0].resting)
    ensures var q := FillQ(lv.orders, j, fs[0].quantity);
      Commit(lv.(orders := Wound(lv.orders, fs)), j, fs[0]) == MkLevel(lv.price, q).(orders := Wound(q, fs[1..]))
  {
    var q := lv.orders;
    var j0 := FirstPending(q, lv.price, fs);
    assert j0 == j;
    FillQSum(q, j, fs[0].quantity);
    WoundStep(q, lv.price, fs, j);
    var w := Wound(q, fs);
    assert FillsFor(fs, q[j].id) == fs[0].quantity + FillsFor(fs[1..], q[j].id);
    if fs[0].restingRemaining == 0 { assert w[j] == q[j].Filled(fs[0].quantity); }
  }

  /** The whole side after a commit; the level goes when its queue does. */
  lemma WindPut(ls: seq<Level>, fs: seq<Fill>, j: nat)
    requires ls != [] && CachesOk(ls[0]) && Pending(ls[0].orders, ls[0].price, fs) && fs != [] && NoDup(ls[0].orders)
    requires Holds(ls[0].orders, j, fs[0].resting)
    ensures var lv := Commit(Wind(ls, fs)[0], j, fs[0]);
      (if lv.count == 0 then Wind(ls, fs)[1..] else Wind(ls, fs)[0 := lv])
        == Wind(PutQueue(ls, 0, FillQ(ls[0].orders, j, fs[0].quantity)), fs[1..])
  {
    WindCommit(ls[0], fs, j);
    var q := FillQ(ls[0].orders, j, fs[0].quantity);
    if q == [] {
      PendingStep(ls[0].orders, ls[0].price, fs, j);
      assert fs[1..] != [] ==> ReportsAt(q, fs[1..], 0);
      WindNothing(ls[1..]);
      assert ls[..0] + ls[1..] == ls[1..];
    }
  }

  /** Putting one fill back unwinds it. */
  lemma UnwindOne(q: seq<Order>, fs: seq<Fill>, j: nat)
    requires fs != [] && NoDup(q) && Holds(q, j, fs[0].resting)
    ensures Wound(q, fs)[j := Wound(q, fs)[j].Filled(-fs[0].quantity)] == Wound(q, fs[1..])
  {
  }

  lemma UnwindTop(ls: seq<Level>, fs: seq<Fill>, j: nat)
    requires ls != [] && fs != [] && NoDup(ls[0].orders) && Holds(ls[0].orders, j, fs[0].resting)
    ensures Wind(ls, fs) != [] && j < |Wind(ls, fs)[0].orders|
    ensures var lv := Wind(ls, fs)[0];
      Wind(ls, fs)[0 := lv.(orders := lv.orders[j := lv.orders[j].Filled(-fs[0].quantity)])] == Wind(ls, fs[1..])
  {
    hide Wound;
    UnwindOne(ls[0].orders, fs, j);
  }

  lemma WindIds(ls: seq<Level>, fs: seq<Fill>)
    requires ls != [] && NoDup(ls[0].orders)
    ensures var w := Wind(ls, fs);
      && w != [] && |w[0].orders| == |ls[0].orders| && Ids(w[0].orders) == Ids(ls[0].orders) && NoDup(w[0].orders)
      && forall j, id :: Holds(w[0].orders, j, id) <==> Holds(ls[0].orders, j, id)
  {
  }

  lemma TotalFillsHead(fs: seq<Fill>)
    requires fs != []
    ensures TotalFills(fs) == fs[0].quantity + TotalFills(fs[1..])
  {
  }

  lemma TotalFillsNone(fs: seq<Fill>)
    requires fs == []
    ensures TotalFills(fs) == 0
  {
  }

  // ---------------------------------------------------------------- one trade

  function MatchTrade(s: State, agg: Order, j: nat, n: int): Trade
    requires Spot(s.Book(agg.side.Opposite()), 0, j)
  {
    var lv := s.Book(agg.side.Opposite())[0];
    Trade(lv.price, n, agg.id, lv.orders[j].id, agg.side, agg.account, lv.orders[j].account)
  }

  /** A trade fills the order at a spot, is posted to the ledger and sets the last price. */
  function TradeStep(lim: Limits, s: State, side: Side, k: nat, j: nat, t: Trade): State
    requires Spot(s.Book(side), k, j)
  {
    FillAt(s, side, k, j, t.qty, t.price).(ledger := Posted(s.ledger, t, lim.maxTrades), lastTrade := t.price)
  }

  /** A trade that names the order at a spot and another party that is in no list. */
  ghost predicate Names(s: State, side: Side, k: nat, j: nat, t: Trade, other: nat)
    requires Spot(s.Book(side), k, j)
  {
    && {t.aggressor, t.resting} == {s.Book(side)[k].orders[j].id, other}
    && (other == s.Book(side)[k].orders[j].id || AllIds(s)[other] == 0)
  }

  /** The aggressor takes n from the j-th order of the best opposite level. */
  function MatchStep(lim: Limits, s: State, agg: Order, j: nat, n: int): State
    requires Spot(s.Book(agg.side.Opposite()), 0, j)
  {
    TradeStep(lim, s, agg.side.Opposite(), 0, j, MatchTrade(s, agg, j, n))
  }

  lemma SettleAside(s: State, side: Side, k: nat, j: nat, l: Ledger, p: int)
    requires k < |s.Book(side)| && j < |s.Book(side)[k].orders|
    ensures SettleAt(s.(ledger := l, lastTrade := p), side, k, j) == SettleAt(s, side, k, j).(ledger := l, lastTrade := p)
  {
  }

  lemma LedgerShape(lim: Limits, s: State, hand: multiset<nat>, s': State)
    requires Shape(lim, s, hand) && s' == s.(ledger := s'.ledger, lastTrade := s'.lastTrade)
    ensures Shape(lim, s', hand)
  {
  }

  /** Filling the order at a spot and posting the trade keeps fills and trades agreed. */
  lemma TakeReconciled(lim: Limits, s: State, hand: multiset<nat>, side: Side, k: nat, j: nat, t: Trade, other: nat)
    requires Inv(lim, s, hand) && Spot(s.Book(side), k, j) && Names(s, side, k, j, t, other)
    ensures Reconciled(TakeAt(s, side, k, j, t.qty, t.price).(ledger := Posted(s.ledger, t, lim.maxTrades)))
  {
    hide Shape, Showing, ReconciledSide, Bag, Posted, IdBag, NoDup, Sorted, Names;
    var ls := s.Book(side);
    UniqueInQueue(lim, s, hand, side, k);
    SortedBook(lim, s, hand, side);
    NamesApart(lim, s, hand, side, k, j, t, other);
    TradeHere(side, ls, k, j, s.ledger, t, lim.maxTrades, other);
    TradeElsewhere(s.Book(side.Opposite()), s.ledger, t, lim.maxTrades);
    TradeElsewhere(s.buyStops, s.ledger, t, lim.maxTrades);
    TradeElsewhere(s.sellStops, s.ledger, t, lim.maxTrades);
  }

  /** The parties of a trade are on no list but the one the trade is against. */
  lemma NamesApart(lim: Limits, s: State, hand: multiset<nat>, side: Side, k: nat, j: nat, t: Trade, other: nat)
    requires Shape(lim, s, hand) && Spot(s.Book(side), k, j) && Names(s, side, k, j, t, other)
    ensures var id := s.Book(side)[k].orders[j].id;
      && Bag(s.Book(side))[id] <= 1 && (other == id || Bag(s.Book(side))[other] == 0)
      && {t.aggressor, t.resting} == {id, other}
    ensures Bag(s.Book(side.Opposite()))[t.aggressor] == 0 && Bag(s.Book(side.Opposite()))[t.resting] == 0
    ensures Bag(s.buyStops)[t.aggressor] == 0 && Bag(s.buyStops)[t.resting] == 0
    ensures Bag(s.sellStops)[t.aggressor] == 0 && Bag(s.sellStops)[t.resting] == 0
  {
    UniqueIds(lim, s, hand, s.Book(side)[k].orders[j].id);
    BagSplit(s.Book(side), k);
    IdBagMember(s.Book(side)[k].orders, j);
    assert t.aggressor in {s.Book(side)[k].orders[j].id, other} && t.resting in {s.Book(side)[k].orders[j].id, other};
  }

  lemma FillShowing(lim: Limits, s: State, hand: multiset<nat>, side: Side, k: nat, j: nat, n: int, fp: int)
    requires Inv(lim, s, hand) && Spot(s.Book(side), k, j) && 0 < n <= s.Book(side)[k].orders[j].remaining
    ensures Showing(FillAt(s, side, k, j, n, fp).bids) && Showing(FillAt(s, side, k, j, n, fp).asks)
  {
    var ls := s.Book(side);
    FillAtBook(s, side, k, j, n, fp);
    assert AllPositive(ls[k].orders);
    FillQPositive(ls[k].orders, j, n);
    PutShowing(side, ls, k, FillQ(ls[k].orders, j, n));
  }

  lemma TradeStepShape(lim: Limits, s: State, hand: multiset<nat>, side: Side, k: nat, j: nat, t: Trade, other: nat)
    requires Inv(lim, s, hand) && Spot(s.Book(side), k, j) && Names(s, side, k, j, t, other)
    requires 0 < t.qty <= s.Book(side)[k].orders[j].remaining
    ensures Shape(lim, TradeStep(lim, s, side, k, j, t), hand) && Reconciled(TradeStep(lim, s, side, k, j, t))
  {
    hide Reconciled, Names, Posted;
    var s1 := TakeAt(s, side, k, j, t.qty, t.price);
    var s2 := s1.(ledger := Posted(s.ledger, t, lim.maxTrades), lastTrade := t.price);
    TakeShape(lim, s, hand, side, k, j, t.qty, t.price);
    LedgerShape(lim, s1, hand, s2);
    TakeReconciled(lim, s, hand, side, k, j, t, other);
    PriceReconciled(s1.(ledger := s2.ledger), t.price);
    SettleShape(lim, s2, hand, side, k, j);
    SettleReconciled(lim, s2, hand, side, k, j);
    SettleAside(s1, side, k, j, s2.ledger, t.price);
  }

  lemma PriceReconciled(s: State, p: int)
    requires Reconciled(s)
    ensures Reconciled(s.(lastTrade := p))
  {
  }

  /** A trade against the order at a spot keeps every invariant. */
  lemma TradeStepInv(lim: Limits, s: State, hand: multiset<nat>, side: Side, k: nat, j: nat, t: Trade, other: nat)
    requires Inv(lim, s, hand) && Spot(s.Book(side), k, j) && Names(s, side, k, j, t, other) && other < s.nextId
    requires 0 < t.qty <= s.Book(side)[k].orders[j].remaining
    ensures Inv(lim, TradeStep(lim, s, side, k, j, t), hand)
  {
    var s' := TradeStep(lim, s, side, k, j, t);
    hide Shape, Reconciled, Showing, Balanced, Posted, SettleAt, TakeAt, Names;
    TradeStepShape(lim, s, hand, side, k, j, t, other);
    FillShowing(lim, s, hand, side, k, j, t.qty, t.price);
    PostedBalanced(s.ledger, t, lim.maxAccounts, lim.maxTrades);
    KnownSpot(lim, s, hand, side, k, j);
    KnownNames(s, side, k, j, t, other);
    TradeStepLedger(lim, s, side, k, j, t);
    TradeKnown(s, s', t, lim.maxTrades);
  }

  lemma KnownNames(s: State, side: Side, k: nat, j: nat, t: Trade, other: nat)
    requires Spot(s.Book(side), k, j) && Names(s, side, k, j, t, other)
    requires other < s.nextId && s.Book(side)[k].orders[j].id < s.nextId
    ensures t.aggressor < s.nextId && t.resting < s.nextId
  {
    assert t.aggressor in {s.Book(side)[k].orders[j].id, other} && t.resting in {s.Book(side)[k].orders[j].id, other};
  }

  lemma TradeStepLedger(lim: Limits, s: State, side: Side, k: nat, j: nat, t: Trade)
    requires Spot(s.Book(side), k, j)
    ensures var s' := TradeStep(lim, s, side, k, j, t);
      s'.ledger == Posted(s.ledger, t, lim.maxTrades) && s'.nextId == s.nextId && s'.lastTrade == t.price
  {
  }

  lemma TradeStepMirrors(lim: Limits, s: State, hand: multiset<nat>, side: Side, k: nat, j: nat, t: Trade)
    requires Inv(lim, s, hand) && Spot(s.Book(side), k, j) && MirrorsBook(s)
    requires 0 < t.qty <= s.Book(side)[k].orders[j].remaining
    ensures MirrorsBook(TradeStep(lim, s, side, k, j, t))
  {
    hide Showing, Balanced, Reconciled;
    TakeShape(lim, s, hand, side, k, j, t.qty, t.price);
    TakeMirrors(lim, s, hand, side, k, j, t.qty, t.price);
    SettleMirrors(lim, TakeAt(s, side, k, j, t.qty, t.price), hand, side, k, j);
  }

  lemma TradeKnown(s: State, s': State, t: Trade, maxTrades: nat)
    requires KnownTrades(s) && t.aggressor < s.nextId && t.resting < s.nextId && t.qty > 0
    requires s'.ledger == Posted(s.ledger, t, maxTrades) && s'.nextId == s.nextId && s'.lastTrade == t.price
    ensures KnownTrades(s') && LastPrice(s')
  {
  }

  lemma KnownSpot(lim: Limits, s: State, hand: multiset<nat>, side: Side, k: nat, j: nat)
    requires Shape(lim, s, hand) && Spot(s.Book(side), k, j)
    ensures s.Book(side)[k].orders[j].id in s.live && s.Book(side)[k].orders[j].id < s.nextId
  {
    BagSplit(s.Book(side), k);
    IdBagMember(s.Book(side)[k].orders, j);
    Indexed(lim, s, hand, s.Book(side)[k].orders[j].id);
  }

  /** An identifier in a list or in hand is indexed. */
  lemma Indexed(lim: Limits, s: State, hand: multiset<nat>, id: nat)
    requires Shape(lim, s, hand) && (AllIds(s) + hand)[id] >= 1
    ensures id in s.live && 0 < id < s.nextId
  {
    assert multiset(s.live)[id] >= 1;
  }

  /** The trade of an aggressor in hand names it and the resting order. */
  lemma MatchNames(lim: Limits, s: State, agg: Order, j: nat, n: int)
    requires Inv(lim, s, multiset{agg.id}) && Spot(s.Book(agg.side.Opposite()), 0, j)
    ensures Names(s, agg.side.Opposite(), 0, j, MatchTrade(s, agg, j, n), agg.id) && agg.id < s.nextId
    ensures s.Book(agg.side.Opposite())[0].orders[j].id != agg.id
  {
    hide Shape, AllIds, Reconciled;
    HandApart(lim, s, agg.id);
    Indexed(lim, s, multiset{agg.id}, agg.id);
    SpotListed(s, agg.side.Opposite(), 0, j);
  }

  lemma HandApart(lim: Limits, s: State, id: nat)
    requires Shape(lim, s, multiset{id})
    ensures AllIds(s)[id] == 0
  {
    hide AllIds, BookSide, StopSide;
    assert (AllIds(s) + multiset{id})[id] == multiset(s.live)[id];
  }

  lemma SpotListed(s: State, side: Side, k: nat, j: nat)
    requires Spot(s.Book(side), k, j)
    ensures AllIds(s)[s.Book(side)[k].orders[j].id] >= 1
  {
    BagSplit(s.Book(side), k);
    IdBagMember(s.Book(side)[k].orders, j);
  }

  /** A trade with the aggressor in hand keeps every invariant and credits the aggressor. */
  lemma MatchStepInv(lim: Limits, s: State, agg: Order, j: nat, n: int)
    requires Inv(lim, s, multiset{agg.id}) && Spot(s.Book(agg.side.Opposite()), 0, j)
    requires 0 < n <= s.Book(agg.side.Opposite())[0].orders[j].remaining
    ensures Inv(lim, MatchStep(lim, s, agg, j, n), multiset{agg.id})
    ensures Traded(MatchStep(lim, s, agg, j, n).ledger, agg.id) == Traded(s.ledger, agg.id) + n
  {
    hide Shape, Reconciled, Showing, Posted, SettleAt, TakeAt, Names;
    var opp, t := agg.side.Opposite(), MatchTrade(s, agg, j, n);
    MatchNames(lim, s, agg, j, n);
    TradeStepInv(lim, s, multiset{agg.id}, opp, 0, j, t, agg.id);
    TradeStepLedger(lim, s, opp, 0, j, t);
    PostedAdds(s.ledger, t, lim.maxTrades, 0, agg.id);
  }

  /** The order leaves the book on this fill. */
  predicate Leaves(o: Order, n: int) { o.remaining == n && !o.Filled(n).HasHidden() }

  /** The order shows its next tranche on this fill. */
  predicate Reveals(o: Order, n: int) { o.remaining == n && o.Filled(n).HasHidden() }

  /** The whole of an order, hidden part included.  A modification sets the quantity and leaves an
      iceberg's total alone, so that an iceberg reduced below its total still trades the total. */
  function Size(o: Order): int { if o.display > 0 && o.total > o.quantity then o.total else o.quantity }

  /** A resting order leaves the book by trading only once all of it, hidden part included, has
      traded; until then what has not traded is showing or hidden. */
  lemma GoneMeansTraded(lim: Limits, s: State, hand: multiset<nat>, side: Side, k: nat, j: nat, t: Trade, other: nat)
    requires Inv(lim, s, hand) && Spot(s.Book(side), k, j) && Names(s, side, k, j, t, other)
    requires 0 < t.qty <= s.Book(side)[k].orders[j].remaining
    ensures var o := s.Book(side)[k].orders[j];
      var now := Traded(TradeStep(lim, s, side, k, j, t).ledger, o.id);
      now == o.filled + t.qty <= Size(o) && (Leaves(o, t.qty) <==> now == Size(o))
  {
    hide Shape, Balanced, Showing, TradeStep, Posted;
    var ls := s.Book(side);
    var o := ls[k].orders[j];
    RestsThere(lim, s, hand, side, k, j);
    assert ls[k] in ls && o in ls[k].orders && o.filled == Traded(s.ledger, o.id);
    TradeStepLedger(lim, s, side, k, j, t);
    LedgerSize(lim, s, hand);
    PostedAdds(s.ledger, t, lim.maxTrades, 0, o.id);
    PartOf(s, side, k, j, t, other);
  }

  lemma LedgerSize(lim: Limits, s: State, hand: multiset<nat>)
    requires Inv(lim, s, hand)
    ensures |s.ledger.trades| <= |s.ledger.log|
  {
  }

  lemma PartOf(s: State, side: Side, k: nat, j: nat, t: Trade, other: nat)
    requires Spot(s.Book(side), k, j) && Names(s, side, k, j, t, other)
    ensures Part(t, s.Book(side)[k].orders[j].id) == t.qty
  {
    assert s.Book(side)[k].orders[j].id in {t.aggressor, t.resting};
  }

  /** MatchStep field by field. */
  lemma MatchStepIs(lim: Limits, s: State, agg: Order, j: nat, n: int)
    requires Spot(s.Book(agg.side.Opposite()), 0, j)
    ensures var opp := agg.side.Opposite();
      var lv, o := s.Book(opp)[0], s.Book(opp)[0].orders[j];
      MatchStep(lim, s, agg, j, n) ==
        s.WithBook(opp, PutQueue(s.Book(opp), 0, FillQ(lv.orders, j, n))).(
          ledger := Posted(s.ledger, MatchTrade(s, agg, j, n), lim.maxTrades),
          lastTrade := lv.price,
          feed := s.feed + [BookAction(o.id, opp, lv.price, n, Action.Fill)] +
            if Reveals(o, n) then [BookAction(o.id, opp, o.price, o.Filled(n).NextTranche(), Action.Add)] else [],
          live := if Leaves(o, n) then s.live - {o.id} else s.live,
          freeOrders := if Leaves(o, n) then s.freeOrders + 1 else s.freeOrders,
          freeLevels := if Leaves(o, n) && |lv.orders| == 1 then s.freeLevels + 1 else s.freeLevels)
  {
    var opp := agg.side.Opposite();
    FillAtBook(s, opp, 0, j, n, s.Book(opp)[0].price);
  }
}
