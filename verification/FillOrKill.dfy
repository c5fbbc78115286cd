/**
  Fill or kill (exchange-core/matching_engine.h, match_order and compute_matchable_qty).  The pre-check
  counts what the opposite side shows, self-matching orders included, and nothing hidden; what the
  matching loop can take is another matter.  Here is exactly when the order is filled in full or not
  touched, from the book it finds.
 */
module FillOrKill {
  import opened Types
  import opened Queues
  import opened Levels
  import opened Ledger
  import opened EngineState
  import opened Steps
  import opened Trading
  import opened Matching
  import opened Alloc
  import opened ProRata
  import opened Policies
  import opened Determined
  import opened Progress
  import opened Lifecycle
  import opened Wholes
  import opened Turns

  // ---------------------------------------------------------------- what a side holds

  /** What of a queue belongs to accounts that count, hidden part included. */
  ghost function Kept(keep: nat -> bool, q: seq<Order>): int {
    if q == [] then 0 else (if keep(q[0].account) then Whole(q[0]) else 0) + Kept(keep, q[1..])
  }

  /** The same for the levels of a side at acceptable prices. */
  ghost function Supply(keep: nat -> bool, side: Side, ls: seq<Level>, b: Bound): int {
    if ls == [] then 0 else (if Within(side, ls[0].price, b) then Kept(keep, ls[0].orders) else 0) + Supply(keep, side, ls[1..], b)
  }

  lemma {:induction false} KeptConcat(keep: nat -> bool, a: seq<Order>, b: seq<Order>)
    ensures Kept(keep, a + b) == Kept(keep, a) + Kept(keep, b)
  {
    if a == [] {
      assert a + b == b;
    } else {
      assert (a + b)[1..] == a[1..] + b;
      KeptConcat(keep, a[1..], b);
    }
  }

  lemma KeptOne(keep: nat -> bool, o: Order)
    ensures Kept(keep, [o]) == if keep(o.account) then Whole(o) else 0
  {
    assert [o][1..] == [];
  }

  lemma KeptSplit(keep: nat -> bool, q: seq<Order>, j: nat)
    requires j < |q|
    ensures Kept(keep, q) == Kept(keep, Without(q, j)) + if keep(q[j].account) then Whole(q[j]) else 0
  {
    hide Kept, Whole;
    assert q == q[..j] + ([q[j]] + q[j+1..]);
    KeptConcat(keep, q[..j], [q[j]] + q[j+1..]);
    KeptConcat(keep, [q[j]], q[j+1..]);
    KeptConcat(keep, q[..j], q[j+1..]);
    KeptOne(keep, q[j]);
  }

  /** A fill takes its quantity from what counts, if its order does. */
  lemma KeptFill(keep: nat -> bool, q: seq<Order>, j: nat, n: int)
    requires j < |q| && 0 < n <= q[j].remaining && keep(q[j].account)
    ensures Kept(keep, FillQ(q, j, n)) == Kept(keep, q) - n
  {
    hide Kept;
    var o := q[j].Filled(n);
    assert Whole(o) == Whole(q[j]) - n;
    KeptSplit(keep, q, j);
    if o.remaining != 0 {
      KeptSplit(keep, q[j := o], j);
      assert Without(q[j := o], j) == Without(q, j);
    } else {
      var next := o.(remaining := o.NextTranche());
      KeptConcat(keep, Without(q, j), [next]);
      KeptOne(keep, next);
    }
  }

  lemma {:induction false} KeptNonneg(keep: nat -> bool, q: seq<Order>)
    requires AllPositive(q)
    ensures Kept(keep, q) >= 0
  {
    if q != [] { KeptNonneg(keep, q[1..]); }
  }

  lemma {:induction false} KeptAll(keep: nat -> bool, q: seq<Order>)
    requires AllPositive(q) && forall a :: keep(a)
    ensures Kept(keep, q) >= SumRem(q)
  {
    if q != [] { KeptAll(keep, q[1..]); }
  }

  lemma SupplyPut(keep: nat -> bool, side: Side, ls: seq<Level>, q: seq<Order>, b: Bound)
    requires ls != [] && Within(side, ls[0].price, b)
    ensures Supply(keep, side, PutQueue(ls, 0, q), b) == Supply(keep, side, ls, b) - Kept(keep, ls[0].orders) + Kept(keep, q)
  {
    if q == [] {
      assert PutQueue(ls, 0, q) == ls[1..];
    } else {
      assert PutQueue(ls, 0, q)[1..] == ls[1..];
    }
  }

  lemma {:induction false} SupplyNone(keep: nat -> bool, side: Side, ls: seq<Level>, b: Bound)
    requires forall lv :: lv in ls ==> !Within(side, lv.price, b)
    ensures Supply(keep, side, ls, b) == 0
  {
    if ls != [] { SupplyNone(keep, side, ls[1..], b); }
  }

  lemma {:induction false} SupplyNonneg(keep: nat -> bool, side: Side, ls: seq<Level>, b: Bound)
    requires Showing(ls)
    ensures Supply(keep, side, ls, b) >= 0
  {
    if ls != [] {
      assert ls[0] in ls;
      KeptNonneg(keep, ls[0].orders);
      SupplyNonneg(keep, side, ls[1..], b);
    }
  }

  lemma {:induction false} SupplyReach(keep: nat -> bool, side: Side, ls: seq<Level>, b: Bound)
    requires Showing(ls) && (forall lv :: lv in ls ==> CachesOk(lv)) && forall a :: keep(a)
    ensures Supply(keep, side, ls, b) >= Reach(side, ls, b)
  {
    if ls != [] {
      assert ls[0] in ls;
      KeptAll(keep, ls[0].orders);
      SupplyReach(keep, side, ls[1..], b);
    }
  }

  // ---------------------------------------------------------------- what turns take from it

  /** Whoever the order may trade with counts; whom it has cancelled does not. */
  ghost predicate Counts(keep: nat -> bool, r: Rules, o: Order) {
    && (forall a :: !r.selfMatch(o.account, a) ==> keep(a))
    && (r.smp == CancelOldest ==> forall a :: r.selfMatch(o.account, a) ==> !keep(a))
  }

  ghost function Left(keep: nat -> bool, s: State, o: Order): int {
    Supply(keep, o.side.Opposite(), s.Book(o.side.Opposite()), BoundOf(o))
  }

  lemma CommitSupply(keep: nat -> bool, r: Rules, s: State, o: Order, c: State, agg: Order, fs: seq<Fill>)
    requires Turn(r, s, o, c, agg, fs) && fs != [] && !SelfFill(r, c, o, fs[0]) && Counts(keep, r, o)
    ensures Left(keep, CommitStep(r.lim, c, o, fs[0]), o) == Left(keep, c, o) - fs[0].quantity
  {
    var opp := o.side.Opposite();
    var at := NextResting(r, s, o, c, agg, fs);
    StrangerIs(r, s, o, c, agg, fs, at);
    CommitIs(r, s, o, c, agg, fs, at);
    FirstFits(r, s, o, c, agg, fs, at);
    hide Turn, InHand, CommitStep, SelfFill, MatchStep, Supply, FillQ, PutQueue;
    var q := c.Book(opp)[0].orders;
    MatchStepApart(r.lim, c, agg, at, fs[0].quantity);
    KeptFill(keep, q, at, fs[0].quantity);
    SupplyPut(keep, opp, c.Book(opp), FillQ(q, at, fs[0].quantity), BoundOf(o));
  }

  lemma FirstFits(r: Rules, s: State, o: Order, c: State, agg: Order, fs: seq<Fill>, at: nat)
    requires Turn(r, s, o, c, agg, fs) && fs != [] && Holds(c.Book(o.side.Opposite())[0].orders, at, fs[0].resting)
    ensures 0 < fs[0].quantity <= c.Book(o.side.Opposite())[0].orders[at].remaining
    ensures agg.account == o.account && Within(o.side.Opposite(), c.Book(o.side.Opposite())[0].price, BoundOf(o))
  {
    hide InHand;
    FillsForNonneg(fs[1..], fs[0].resting);
  }

  lemma {:induction false} CommittedSupply(keep: nat -> bool, r: Rules, s: State, o: Order, fs: seq<Fill>, i: nat)
    requires InHand(r.lim, s, o) && Answer(r, s, o, fs) && i <= |fs| && NoSelf(r, s, o, fs, i) && Counts(keep, r, o)
    ensures Left(keep, Committed(r.lim, s, o, fs[..i]), o) == Left(keep, s, o) - TotalFills(fs[..i])
  {
    hide InHand, Turn, Answer, SelfFill, CommitStep, Supply, Counts;
    if i == 0 {
      assert fs[..0] == [];
    } else {
      CommittedSupply(keep, r, s, o, fs, i - 1);
      TurnAt(r, s, o, fs, i - 1);
      var c := Committed(r.lim, s, o, fs[..i-1]);
      assert fs[i-1..][0] == fs[i-1] && !SelfFill(r, c, o, fs[i-1]);
      CommitSupply(keep, r, s, o, c, o.Filled(TotalFills(fs[..i-1])), fs[i-1..]);
      CommittedSnoc(r.lim, s, o, fs, i - 1);
      TotalSnoc(fs, i - 1);
    }
  }

  lemma TotalSnoc(fs: seq<Fill>, i: nat)
    requires i < |fs|
    ensures TotalFills(fs[..i+1]) == TotalFills(fs[..i]) + fs[i].quantity
  {
    assert fs[..i+1] == fs[..i] + [fs[i]];
    TotalFillsConcat(fs[..i], [fs[i]]);
    assert [fs[i]][1..] == [];
  }

  /** A turn the order survives takes from the side exactly what it fills. */
  lemma TurnSupply(keep: nat -> bool, r: Rules, s: State, o: Order, fs: seq<Fill>, k: nat, v: State, o': Order)
    requires InHand(r.lim, s, o) && TurnIs(r, s, o, fs, k, v, o') && Counts(keep, r, o) && (k == |fs| || r.smp == CancelOldest)
    ensures Left(keep, v, o) - o'.remaining == Left(keep, s, o) - o.remaining
  {
    hide InHand, Turn, Answer, SelfFill, CommitStep, NoSelf, CancelAt, Supply, Counts;
    var c := Committed(r.lim, s, o, fs[..k]);
    CommittedSupply(keep, r, s, o, fs, k);
    if k < |fs| {
      TurnAt(r, s, o, fs, k);
      SelfSpot(r, s, o, c, o', fs[k..]);
      CancelSupply(keep, r, s, o, c, o', fs[k..]);
    }
  }

  lemma CancelSupply(keep: nat -> bool, r: Rules, s: State, o: Order, c: State, agg: Order, fs: seq<Fill>)
    requires Turn(r, s, o, c, agg, fs) && fs != [] && SelfFill(r, c, o, fs[0]) && Counts(keep, r, o) && r.smp == CancelOldest
    ensures var opp := o.side.Opposite();
      Left(keep, CancelAt(c, opp, 0, FirstAt(c.Book(opp)[0].orders, fs[0].resting), fs[0].price, SelfMatchPrevention), o) == Left(keep, c, o)
  {
    hide InHand, Supply;
    var ls := c.Book(o.side.Opposite());
    var q := ls[0].orders;
    var j := FirstAt(q, fs[0].resting);
    KeptSplit(keep, q, j);
    SupplyPut(keep, o.side.Opposite(), ls, Without(q, j), BoundOf(o));
  }

  /** The same order, further on. */
  ghost predicate Onward(o0: Order, o: Order) {
    && o == o0.(filled := o.filled, remaining := o.remaining)
    && o.filled + o.remaining == o0.filled + o0.remaining && o.remaining <= o0.remaining
  }

  lemma {:induction false} TurnsSupply(keep: nat -> bool, r: Rules, s0: State, o0: Order, ds: seq<Round>, v: State, o: Order)
    requires InHand(r.lim, s0, o0) && TurnsTo(r, s0, o0, ds, v, o, true) && Counts(keep, r, o0)
    ensures InHand(r.lim, v, o) && Onward(o0, o) && Left(keep, v, o0) - o.remaining == Left(keep, s0, o0) - o0.remaining
    decreases |ds|
  {
    hide InHand, TurnIs, Supply, Counts;
    if ds != [] {
      var d := ds[|ds| - 1];
      var v1, o1, fs, k := d.before, d.order, d.fills, d.k;
      TurnsSupply(keep, r, s0, o0, ds[..|ds| - 1], v1, o1);
      CountsOnward(keep, r, o0, o1);
      TurnKeeps(r, v1, o1, fs, k, v, o);
      TurnSupply(keep, r, v1, o1, fs, k, v, o);
      TurnOnward(r, v1, o1, fs, k, v, o);
    }
  }

  lemma CountsOnward(keep: nat -> bool, r: Rules, o0: Order, o: Order)
    requires Counts(keep, r, o0) && Onward(o0, o)
    ensures Counts(keep, r, o)
  {
  }

  lemma TurnOnward(r: Rules, s: State, o: Order, fs: seq<Fill>, k: nat, v: State, o': Order)
    requires TurnIs(r, s, o, fs, k, v, o')
    ensures Onward(o, o')
  {
    hide NoSelf, SelfMatched, Committed, Follows, EntriesFor, WholeEntries;
    TotalFillsNonneg(fs[..k]);
  }

  // ---------------------------------------------------------------- meeting oneself

  /** The account has an order in the queue. */
  ghost predicate SelfIn(r: Rules, account: nat, q: seq<Order>) { exists i :: 0 <= i < |q| && r.selfMatch(account, q[i].account) }

  /** The policy gives none of n lots on a level to the account's own orders. */
  ghost predicate Spared(r: Rules, account: nat, lv: Level, n: int) {
    forall fs, i :: Plans(r.policy, lv, n, fs) && 0 <= i < |lv.orders| && r.selfMatch(account, lv.orders[i].account) ==>
      FillsFor(fs, lv.orders[i].id) == 0
  }

  /** n lots are taken from the side without meeting the account's own orders: it has none in a level
      taken whole, and the level where the quantity ends spares it. */
  ghost predicate Clear(r: Rules, account: nat, side: Side, ls: seq<Level>, b: Bound, n: int)
    decreases |ls|
  {
    n <= 0 || ls == [] || !Within(side, ls[0].price, b) ||
    if n < ls[0].total then Spared(r, account, ls[0], n)
    else !SelfIn(r, account, ls[0].orders) && Clear(r, account, side, ls[1..], b, n - SumWhole(ls[0].orders))
  }

  ghost predicate Unmet(r: Rules, s: State, o: Order, n: int) {
    Clear(r, o.account, o.side.Opposite(), s.Book(o.side.Opposite()), BoundOf(o), n)
  }

  /** A level of strangers, whatever it reveals, is only a matter of its quantity. */
  lemma ClearStrangers(r: Rules, account: nat, side: Side, ls: seq<Level>, b: Bound, n: int)
    requires ls != [] && Within(side, ls[0].price, b) && !SelfIn(r, account, ls[0].orders)
    requires AllPositive(ls[0].orders) && ls[0].total == SumRem(ls[0].orders)
    ensures Clear(r, account, side, ls, b, n) <==> Clear(r, account, side, ls[1..], b, n - SumWhole(ls[0].orders))
  {
    SumWholeAtLeast(ls[0].orders);
  }

  /** The orders of q' are orders of q with the same owners. */
  ghost predicate Owners(q: seq<Order>, q': seq<Order>) {
    forall j :: 0 <= j < |q'| ==> OwnerIn(q, q'[j].id, q'[j].account)
  }

  ghost predicate OwnerIn(q: seq<Order>, id: nat, account: nat) {
    exists i :: 0 <= i < |q| && q[i].id == id && q[i].account == account
  }

  lemma FillOwners(q0: seq<Order>, q: seq<Order>, j: nat, n: int)
    requires j < |q| && Owners(q0, q)
    ensures Owners(q0, FillQ(q, j, n))
  {
    hide OwnerIn;
    var q' := FillQ(q, j, n);
    forall x | 0 <= x < |q'| ensures OwnerIn(q0, q'[x].id, q'[x].account) {
      assert OwnerIn(q0, q[j].id, q[j].account);
      if q[j].remaining != n {
        assert OwnerIn(q0, q[x].id, q[x].account);
      } else if x < |q| - 1 {
        assert q'[x] == q[if x < j then x else x + 1];
        assert OwnerIn(q0, q[if x < j then x else x + 1].id, q[if x < j then x else x + 1].account);
      }
    }
  }

  /** The best level part of the way through a turn. */
  lemma {:induction false} CommittedBook(r: Rules, s: State, o: Order, fs: seq<Fill>, i: nat) returns (q: seq<Order>)
    requires InHand(r.lim, s, o) && Answer(r, s, o, fs) && i <= |fs| && NoSelf(r, s, o, fs, i)
    ensures var ls := s.Book(o.side.Opposite());
      && Committed(r.lim, s, o, fs[..i]).Book(o.side.Opposite()) == PutQueue(ls, 0, q)
      && Owners(ls[0].orders, q) && SumWhole(q) == SumWhole(ls[0].orders) - TotalFills(fs[..i])
    ensures i < |fs| ==> q != []
  {
    hide InHand, Turn, SelfFill, CommitStep, SumWhole, PutQueue, Owners, Plans;
    var opp := o.side.Opposite();
    var ls := s.Book(opp);
    if i == 0 {
      q := ls[0].orders;
      SameBest(r.lim, s, o);
      OwnOwners(q);
      assert fs[..0] == [];
    } else {
      var q1 := CommittedBook(r, s, o, fs, i - 1);
      TurnAt(r, s, o, fs, i - 1);
      assert fs[i-1..][0] == fs[i-1];
      CommittedSnoc(r.lim, s, o, fs, i - 1);
      TotalSnoc(fs, i - 1);
      q := BookStep(r, s, o, Committed(r.lim, s, o, fs[..i-1]), o.Filled(TotalFills(fs[..i-1])), fs[i-1..], q1);
    }
    if i < |fs| { StillThere(r, s, o, fs, i, q); }
  }

  lemma BookStep(r: Rules, s: State, o: Order, c: State, agg: Order, fs: seq<Fill>, q: seq<Order>) returns (q': seq<Order>)
    requires Turn(r, s, o, c, agg, fs) && fs != [] && q != [] && s.Book(o.side.Opposite()) != []
    requires c.Book(o.side.Opposite()) == PutQueue(s.Book(o.side.Opposite()), 0, q) && Owners(s.Book(o.side.Opposite())[0].orders, q)
    ensures CommitStep(r.lim, c, o, fs[0]).Book(o.side.Opposite()) == PutQueue(s.Book(o.side.Opposite()), 0, q')
    ensures Owners(s.Book(o.side.Opposite())[0].orders, q') && SumWhole(q') == SumWhole(q) - fs[0].quantity
  {
    hide InHand, Turn, SelfFill, CommitStep, SumWhole, PutQueue, Owners, MatchStep;
    var ls := s.Book(o.side.Opposite());
    var at := NextResting(r, s, o, c, agg, fs);
    CommitIs(r, s, o, c, agg, fs, at);
    FirstFits(r, s, o, c, agg, fs, at);
    PutTop(ls, q);
    MatchStepApart(r.lim, c, agg, at, fs[0].quantity);
    q' := FillQ(q, at, fs[0].quantity);
    PutTwice(ls, q, q');
    FillWhole(q, at, fs[0].quantity);
    FillOwners(ls[0].orders, q, at, fs[0].quantity);
  }

  lemma PutTop(ls: seq<Level>, q: seq<Order>)
    requires ls != [] && q != []
    ensures |PutQueue(ls, 0, q)| == |ls| && PutQueue(ls, 0, q)[0] == MkLevel(ls[0].price, q) && PutQueue(ls, 0, q)[1..] == ls[1..]
  {
  }

  lemma SameBest(lim: Limits, s: State, o: Order)
    requires InHand(lim, s, o) && s.Book(o.side.Opposite()) != []
    ensures var ls := s.Book(o.side.Opposite()); PutQueue(ls, 0, ls[0].orders) == ls && ls[0].orders != []
  {
    BestIsReady(lim, s, multiset{o.id}, o.side.Opposite());
  }

  lemma OwnOwners(q: seq<Order>)
    ensures Owners(q, q)
  {
  }

  lemma PutTwice(ls: seq<Level>, q: seq<Order>, q': seq<Order>)
    requires ls != [] && q != []
    ensures |PutQueue(ls, 0, q)| == |ls| && PutQueue(PutQueue(ls, 0, q), 0, q') == PutQueue(ls, 0, q')
  {
  }

  /** With a fill still to come the level is still there. */
  lemma StillThere(r: Rules, s: State, o: Order, fs: seq<Fill>, i: nat, q: seq<Order>)
    requires InHand(r.lim, s, o) && Answer(r, s, o, fs) && i < |fs| && NoSelf(r, s, o, fs, i)
    requires Committed(r.lim, s, o, fs[..i]).Book(o.side.Opposite()) == PutQueue(s.Book(o.side.Opposite()), 0, q)
    ensures q != []
  {
    hide InHand, Turn, SelfFill, CommitStep, Committed, NoSelf, PutQueue;
    var ls := s.Book(o.side.Opposite());
    TurnAt(r, s, o, fs, i);
    BestPrice(r, s, o, Committed(r.lim, s, o, fs[..i]), o.Filled(TotalFills(fs[..i])), fs[i..]);
    HandSorted(r.lim, s, o);
    NextPrice(o.side.Opposite(), ls);
  }

  lemma BestPrice(r: Rules, s: State, o: Order, c: State, agg: Order, fs: seq<Fill>)
    requires Turn(r, s, o, c, agg, fs) && fs != []
    ensures c.Book(o.side.Opposite()) != [] && c.Book(o.side.Opposite())[0].price == fs[0].price
  {
    hide InHand, Advanced;
  }

  lemma NextPrice(side: Side, ls: seq<Level>)
    requires Sorted(side, ls) && ls != []
    ensures PutQueue(ls, 0, []) != [] ==> PutQueue(ls, 0, [])[0].price != ls[0].price
  {
  }

  /** The order a fill of a turn names, in the level as the turn found it. */
  lemma NamedAt(r: Rules, s: State, o: Order, fs: seq<Fill>, i: nat) returns (x: nat)
    requires InHand(r.lim, s, o) && Answer(r, s, o, fs) && i < |fs| && NoSelf(r, s, o, fs, i)
    ensures var q := s.Book(o.side.Opposite())[0].orders;
      && x < |q| && q[x].id == fs[i].resting
      && (SelfFill(r, Committed(r.lim, s, o, fs[..i]), o, fs[i]) <==> r.selfMatch(o.account, q[x].account))
  {
    hide InHand, Turn, SelfFill, CommitStep, SumWhole, PutQueue, Plans, NoSelf, Committed;
    var q := CommittedBook(r, s, o, fs, i);
    TurnAt(r, s, o, fs, i);
    var ls := s.Book(o.side.Opposite());
    var c, agg := Committed(r.lim, s, o, fs[..i]), o.Filled(TotalFills(fs[..i]));
    assert fs[i..][0] == fs[i];
    var at := NextResting(r, s, o, c, agg, fs[i..]);
    PutTop(ls, q);
    StrangerIs(r, s, o, c, agg, fs[i..], at);
    assert OwnerIn(ls[0].orders, q[at].id, q[at].account);
    x :| 0 <= x < |ls[0].orders| && ls[0].orders[x].id == q[at].id && ls[0].orders[x].account == q[at].account;
  }

  /** A self-matching order of the level that is given something is named by a fill. */
  lemma GivenIsNamed(fs: seq<Fill>, id: nat) returns (i: nat)
    requires (forall k :: 0 <= k < |fs| ==> fs[k].quantity > 0) && FillsFor(fs, id) != 0
    ensures i < |fs| && fs[i].resting == id
  {
    FillsForNonneg(fs, id);
    i :| 0 <= i < |fs| && fs[i].resting == id;
  }

  lemma SpotOf(q: seq<Order>, x: nat, y: nat)
    requires NoDup(q) && x < |q| && y < |q| && q[x].id == q[y].id
    ensures x == y
  {
  }

  /** A turn without a self-match gives nothing to the order's own account. */
  lemma NothingToSelf(r: Rules, s: State, o: Order, fs: seq<Fill>, x: nat)
    requires InHand(r.lim, s, o) && Answer(r, s, o, fs) && NoSelf(r, s, o, fs, |fs|) && x < |s.Book(o.side.Opposite())[0].orders|
    requires r.selfMatch(o.account, s.Book(o.side.Opposite())[0].orders[x].account)
    ensures FillsFor(fs, s.Book(o.side.Opposite())[0].orders[x].id) == 0
  {
    hide InHand, SelfFill, Committed;
    var q := s.Book(o.side.Opposite())[0].orders;
    if FillsFor(fs, q[x].id) != 0 {
      BestIsReadyFor(r, s, o);
      var i := GivenIsNamed(fs, q[x].id);
      var y := NamedAt(r, s, o, fs, i);
      SpotOf(q, x, y);
    }
  }

  lemma BestIsReadyFor(r: Rules, s: State, o: Order)
    requires InHand(r.lim, s, o) && s.Book(o.side.Opposite()) != []
    ensures Ready(s.Book(o.side.Opposite())[0])
  {
    BestIsReady(r.lim, s, multiset{o.id}, o.side.Opposite());
  }

  // ---------------------------------------------------------------- turn after turn

  /** A whole turn without a self-match neither clears nor blocks the way. */
  lemma TurnClear(r: Rules, s: State, o: Order, fs: seq<Fill>, v: State, o': Order)
    requires InHand(r.lim, s, o) && TurnIs(r, s, o, fs, |fs|, v, o')
    ensures Unmet(r, s, o, o.remaining) <==> Unmet(r, v, o, o'.remaining)
  {
    hide InHand, NoSelf, Committed, SelfMatched, Clear, Spared, SelfIn, Plans;
    var lv := s.Book(o.side.Opposite())[0];
    BestIsReadyFor(r, s, o);
    assert fs[..|fs|] == fs;
    PlanTotal(r.policy, lv, o.remaining, fs);
    if o.remaining < lv.total {
      SparedIs(r, s, o, fs);
      ClearAtLast(r, s, o);
      ClearDone(r, v, o);
    } else {
      StrangersOnly(r, s, o, fs);
      LevelGone(r, s, o, fs, v);
    }
  }

  lemma PlanTotal(p: Policy, lv: Level, n: int, fs: seq<Fill>)
    requires Ready(lv) && Plans(p, lv, n, fs)
    ensures TotalFills(fs) == Min(n, lv.total)
  {
  }

  lemma ClearDone(r: Rules, v: State, o: Order)
    ensures Unmet(r, v, o, 0)
  {
  }

  lemma ClearAtLast(r: Rules, s: State, o: Order)
    requires s.Book(o.side.Opposite()) != [] && Spared(r, o.account, s.Book(o.side.Opposite())[0], o.remaining)
    requires o.remaining < s.Book(o.side.Opposite())[0].total
    ensures Unmet(r, s, o, o.remaining)
  {
    hide Spared;
  }

  lemma SparedIs(r: Rules, s: State, o: Order, fs: seq<Fill>)
    requires InHand(r.lim, s, o) && Answer(r, s, o, fs) && NoSelf(r, s, o, fs, |fs|)
    ensures Spared(r, o.account, s.Book(o.side.Opposite())[0], o.remaining)
  {
    hide InHand, NoSelf, Plans;
    var lv := s.Book(o.side.Opposite())[0];
    BestIsReadyFor(r, s, o);
    forall gs, i | Plans(r.policy, lv, o.remaining, gs) && 0 <= i < |lv.orders| && r.selfMatch(o.account, lv.orders[i].account)
      ensures FillsFor(gs, lv.orders[i].id) == 0
    {
      NothingToSelf(r, s, o, fs, i);
      GiftsUnique(r.policy, lv, o.remaining, fs, gs);
      assert Gifts(lv.orders, fs)[i] == Gifts(lv.orders, gs)[i];
    }
  }

  /** A turn that takes all a level shows, without a self-match, takes it from strangers. */
  lemma StrangersOnly(r: Rules, s: State, o: Order, fs: seq<Fill>)
    requires InHand(r.lim, s, o) && Answer(r, s, o, fs) && NoSelf(r, s, o, fs, |fs|) && o.remaining >= s.Book(o.side.Opposite())[0].total
    ensures !SelfIn(r, o.account, s.Book(o.side.Opposite())[0].orders)
  {
    hide InHand, NoSelf, Follows, EntriesFor, WholeEntries;
    var lv := s.Book(o.side.Opposite())[0];
    BestIsReadyFor(r, s, o);
    forall i | 0 <= i < |lv.orders| ensures !r.selfMatch(o.account, lv.orders[i].account) {
      WholeTaken(lv.orders, lv.price, o.remaining, fs, i);
      if r.selfMatch(o.account, lv.orders[i].account) { NothingToSelf(r, s, o, fs, i); }
    }
  }

  lemma LevelGone(r: Rules, s: State, o: Order, fs: seq<Fill>, v: State)
    requires InHand(r.lim, s, o) && Answer(r, s, o, fs) && NoSelf(r, s, o, fs, |fs|) && v == Committed(r.lim, s, o, fs)
    requires !SelfIn(r, o.account, s.Book(o.side.Opposite())[0].orders)
    ensures Unmet(r, s, o, o.remaining) <==> Unmet(r, v, o, o.remaining - TotalFills(fs))
  {
    hide InHand, NoSelf, Committed, Clear, Plans, SumWhole, SelfIn, PutQueue, Owners, AllPositive;
    var opp := o.side.Opposite();
    assert fs[..|fs|] == fs;
    var q := CommittedBook(r, s, o, fs, |fs|);
    BestIsReadyFor(r, s, o);
    if q != [] {
      PutTop(s.Book(opp), q);
      TurnAt(r, s, o, fs, |fs|);
      BestAfter(r, s, o, v, o.Filled(TotalFills(fs)), fs[|fs|..]);
    }
    ClearPut(r, o.account, opp, s.Book(opp), BoundOf(o), q, o.remaining, TotalFills(fs));
  }

  /** Strangers that keep their places and give up t lots leave the way as clear as it was. */
  lemma ClearPut(r: Rules, account: nat, side: Side, ls: seq<Level>, b: Bound, q: seq<Order>, n: int, t: int)
    requires ls != [] && Within(side, ls[0].price, b) && !SelfIn(r, account, ls[0].orders)
    requires AllPositive(ls[0].orders) && ls[0].total == SumRem(ls[0].orders)
    requires Owners(ls[0].orders, q) && SumWhole(q) == SumWhole(ls[0].orders) - t && (q != [] ==> AllPositive(q))
    ensures Clear(r, account, side, ls, b, n) <==> Clear(r, account, side, PutQueue(ls, 0, q), b, n - t)
  {
    hide Clear, SelfIn, PutQueue, Owners, AllPositive;
    ClearStrangers(r, account, side, ls, b, n);
    if q == [] {
      NoQueue(ls);
    } else {
      hide SumWhole;
      PutTop(ls, q);
      OwnersStrangers(r, account, ls[0].orders, q);
      ClearStrangers(r, account, side, PutQueue(ls, 0, q), b, n - t);
    }
  }

  lemma NoQueue(ls: seq<Level>)
    requires ls != []
    ensures PutQueue(ls, 0, []) == ls[1..] && SumWhole([]) == 0
  {
  }

  lemma OwnersStrangers(r: Rules, account: nat, q: seq<Order>, q': seq<Order>)
    requires Owners(q, q') && !SelfIn(r, account, q)
    ensures !SelfIn(r, account, q')
  {
    forall j | 0 <= j < |q'| ensures !r.selfMatch(account, q'[j].account) {
      assert OwnerIn(q, q'[j].id, q'[j].account);
      var i :| 0 <= i < |q| && q[i].id == q'[j].id && q[i].account == q'[j].account;
    }
  }

  lemma BestAfter(r: Rules, s: State, o: Order, v: State, agg: Order, fs: seq<Fill>)
    requires Turn(r, s, o, v, agg, fs) && v.Book(o.side.Opposite()) != []
    ensures AllPositive(v.Book(o.side.Opposite())[0].orders) && v.Book(o.side.Opposite())[0].total == SumRem(v.Book(o.side.Opposite())[0].orders)
  {
    hide Advanced;
    BestIsReady(r.lim, v, multiset{agg.id}, o.side.Opposite());
  }

  /** A turn stopped by a self-match was not clear. */
  lemma TurnBlocked(r: Rules, s: State, o: Order, fs: seq<Fill>, k: nat, v: State, o': Order)
    requires InHand(r.lim, s, o) && TurnIs(r, s, o, fs, k, v, o') && k < |fs|
    ensures !Unmet(r, s, o, o.remaining)
  {
    hide InHand, NoSelf, Committed, SelfFill;
    var lv := s.Book(o.side.Opposite())[0];
    var x := NamedAt(r, s, o, fs, k);
    BestIsReadyFor(r, s, o);
    FillsForNonneg(fs, fs[k].resting);
    hide Plans;
    assert r.selfMatch(o.account, lv.orders[x].account) && FillsFor(fs, lv.orders[x].id) != 0;
  }

  lemma {:induction false} TurnsClear(r: Rules, s0: State, o0: Order, ds: seq<Round>, v: State, o: Order, alive: bool)
    requires InHand(r.lim, s0, o0) && TurnsTo(r, s0, o0, ds, v, o, alive) && r.smp != CancelOldest
    ensures InHand(r.lim, v, o) && Onward(o0, o)
    ensures if alive then Unmet(r, s0, o0, o0.remaining) <==> Unmet(r, v, o0, o.remaining) else !Unmet(r, s0, o0, o0.remaining)
    decreases |ds|
  {
    hide InHand, TurnIs, Clear;
    if ds != [] {
      var d := ds[|ds| - 1];
      var v1, o1, fs, k := d.before, d.order, d.fills, d.k;
      TurnsClear(r, s0, o0, ds[..|ds| - 1], v1, o1, true);
      TurnKeeps(r, v1, o1, fs, k, v, o);
      TurnOnward(r, v1, o1, fs, k, v, o);
      TurnUpTo(r, v1, o1, fs, k, v, o);
      if alive { TurnClear(r, v1, o1, fs, v, o); } else { TurnBlocked(r, v1, o1, fs, k, v, o); }
    }
  }

  // ---------------------------------------------------------------- exactly when

  /** The accounts the order does not match with itself. */
  ghost function Others(r: Rules, o: Order): nat -> bool { (a: nat) => !r.selfMatch(o.account, a) }

  /** The order meets its own first: the policy's first entry for the best level names an order it
      self-matches with. */
  ghost predicate OwnFirst(r: Rules, s: State, o: Order) {
    var ls := s.Book(o.side.Opposite());
    && o.remaining > 0 && ls != [] && Within(o.side.Opposite(), ls[0].price, BoundOf(o)) && ls[0].total > 0 && ls[0].orders != []
    && var i := Leader(r.policy, ls[0], o.remaining);
    i < |ls[0].orders| && r.selfMatch(o.account, ls[0].orders[i].account)
  }

  /**
    What makes a fill-or-kill order all or nothing: the pre-check fails, so that it is not touched; or a
    self-match cancels nothing but the order itself, and comes first; or it hides nothing and, where
    self-matches cancel resting orders only, strangers hold enough for it, hidden quantity included, and
    where they cancel the order, it meets none of its own.
   */
  ghost predicate AllOrNone(r: Rules, s: State, o: Order) {
    var opp := o.side.Opposite();
    || Reach(opp, s.Book(opp), BoundOf(o)) < o.remaining
    || (r.smp == CancelNewest && OwnFirst(r, s, o))
    || (ShowsAll(o) && if r.smp == CancelOldest then Left(Others(r, o), s, o) >= o.remaining else Unmet(r, s, o, o.remaining))
  }

  /** In a calm session a fill-or-kill order is filled with its whole quantity or cancelled untouched exactly then. */
  lemma FokExactly(r: Rules, s0: State, o0: Order, w: Work, s1: State)
    requires InHand(r.lim, s0, o0) && o0.tif == FOK && Calm(r, s0) && WorkedBy(r, s0, o0, w, s1)
    ensures AllOrNothing(s0, o0, s1, w.o, w.outcome) <==> AllOrNone(r, s0, o0)
  {
    hide InHand, TurnsTo, OutOfReach, Reach, Strangers, Supply, Clear, Calm, Rest, OwnFirst, Free;
    NeverHalted(r, s0, w.turns, w.v);
    var opp := o0.side.Opposite();
    if Reach(opp, s0.Book(opp), BoundOf(o0)) >= o0.remaining {
      if r.smp == CancelOldest {
        OldestExactly(r, s0, o0, w, s1);
      } else if w.outcome != Dropped(SelfMatchPrevention) {
        MetNone(r, s0, o0, w, s1);
      } else {
        MetOwn(r, s0, o0, w, s1);
      }
    }
  }

  lemma OldestExactly(r: Rules, s0: State, o0: Order, w: Work, s1: State)
    requires InHand(r.lim, s0, o0) && o0.tif == FOK && r.smp == CancelOldest
    requires TurnsTo(r, s0, o0, w.turns, w.v, w.o, true) && w.outcome == Fate(w.o) && (w.o.remaining == 0 || OutOfReach(w.v, w.o))
    requires s1 == Ended(w.v.(session := s0.session), w.o, w.outcome)
    requires Reach(o0.side.Opposite(), s0.Book(o0.side.Opposite()), BoundOf(o0)) >= o0.remaining
    ensures AllOrNothing(s0, o0, s1, w.o, w.outcome) <==> ShowsAll(o0) && Left(Others(r, o0), s0, o0) >= o0.remaining
  {
    hide InHand, TurnsTo, OutOfReach, Reach, Supply, Rest;
    var keep := Others(r, o0);
    TurnsSupply(keep, r, s0, o0, w.turns, w.v, w.o);
    LeftNonneg(keep, r.lim, w.v, w.o);
    if w.o.remaining != 0 {
      NothingLeft(keep, w.v, w.o);
      NotUntouched(r.lim, s0, o0, w, s1);
    }
  }

  lemma LeftNonneg(keep: nat -> bool, lim: Limits, v: State, o: Order)
    requires InHand(lim, v, o)
    ensures Left(keep, v, o) >= 0 && o.remaining >= 0
  {
    SupplyNonneg(keep, o.side.Opposite(), v.Book(o.side.Opposite()), BoundOf(o));
  }

  lemma NothingLeft(keep: nat -> bool, v: State, o: Order)
    requires OutOfReach(v, o)
    ensures Left(keep, v, o) == 0
  {
    SupplyNone(keep, o.side.Opposite(), v.Book(o.side.Opposite()), BoundOf(o));
  }

  /** An order that ran out of counterparties did not leave the book as it was. */
  lemma NotUntouched(lim: Limits, s0: State, o0: Order, w: Work, s1: State)
    requires Onward(o0, w.o) && w.o.remaining > 0 && OutOfReach(w.v, w.o) && w.outcome == Fate(w.o) && o0.tif == FOK
    requires Reach(o0.side.Opposite(), s0.Book(o0.side.Opposite()), BoundOf(o0)) >= o0.remaining && o0.remaining > 0
    requires s1 == Ended(w.v.(session := s0.session), w.o, w.outcome)
    ensures !AllOrNothing(s0, o0, s1, w.o, w.outcome)
  {
    hide Reach, Rest;
    var opp := o0.side.Opposite();
    NoReach(opp, w.v.Book(opp), BoundOf(o0));
    assert s1.Book(opp) == w.v.Book(opp);
  }

  /** Where self-matches cancel the order and it survives, it has met none of its own and gets all it shows. */
  lemma MetNone(r: Rules, s0: State, o0: Order, w: Work, s1: State)
    requires InHand(r.lim, s0, o0) && o0.tif == FOK && r.smp != CancelOldest && TurnsTo(r, s0, o0, w.turns, w.v, w.o, true)
    requires w.outcome == Fate(w.o) && (w.o.remaining == 0 || OutOfReach(w.v, w.o))
    requires Reach(o0.side.Opposite(), s0.Book(o0.side.Opposite()), BoundOf(o0)) >= o0.remaining
    ensures Unmet(r, s0, o0, o0.remaining) && !OwnFirst(r, s0, o0)
    ensures AllOrNothing(s0, o0, s1, w.o, w.outcome) <==> ShowsAll(o0)
  {
    hide InHand, TurnsTo, OutOfReach, Reach, Supply, Clear, OwnFirst, Free;
    TurnsClear(r, s0, o0, w.turns, w.v, w.o, true);
    Enough(r, s0, o0, w.turns, w.v, w.o);
    ClearDone(r, w.v, o0);
    if OwnFirst(r, s0, o0) {
      OwnStops(r, s0, o0, w.turns, w.v, w.o, true);
      OwnInReach(r, s0, o0);
    }
  }

  lemma OwnInReach(r: Rules, s: State, o: Order)
    requires OwnFirst(r, s, o)
    ensures o.remaining > 0 && !OutOfReach(s, o)
  {
    hide Leader;
    assert s.Book(o.side.Opposite())[0] in s.Book(o.side.Opposite());
  }

  /** Where a self-match cancels the order, it is untouched exactly when nothing else is and nothing came before. */
  lemma MetOwn(r: Rules, s0: State, o0: Order, w: Work, s1: State)
    requires InHand(r.lim, s0, o0) && r.smp != CancelOldest && w.outcome == Dropped(SelfMatchPrevention)
    requires TurnsTo(r, s0, o0, w.turns, w.v, w.o, false)
    requires s1 == Ended(w.v.(session := s0.session), w.o, w.outcome)
    ensures !Unmet(r, s0, o0, o0.remaining)
    ensures AllOrNothing(s0, o0, s1, w.o, w.outcome) <==> r.smp == CancelNewest && OwnFirst(r, s0, o0)
  {
    hide InHand, TurnsTo, Clear, OwnFirst, TurnIs, Free, Ended;
    TurnsClear(r, s0, o0, w.turns, w.v, w.o, false);
    DroppedIs(s0, w, s1);
    if OwnFirst(r, s0, o0) {
      OwnStops(r, s0, o0, w.turns, w.v, w.o, false);
      StoppedFirst(r, s0, o0, w);
    } else {
      NotOwnFirst(r, s0, o0, w.turns, w.v, w.o);
      if w.v.ledger == s0.ledger { SameFilled(r, s0, o0, w.v, w.o); }
    }
  }

  lemma DroppedIs(s0: State, w: Work, s1: State)
    requires w.outcome.Dropped? && s1 == Ended(w.v.(session := s0.session), w.o, w.outcome)
    ensures s1.ledger == w.v.ledger && |s1.cancels| == |w.v.cancels| + 1
    ensures w.v == s0 ==> s1 == DropHand(s0, w.o.id, w.outcome.reason)
    ensures forall id :: DropHand(s0, id, w.outcome.reason).ledger == s0.ledger && |DropHand(s0, id, w.outcome.reason).cancels| == |s0.cancels| + 1
  {
    assert s0.(session := s0.session) == s0;
  }

  /** The ledger says what an order has been filled with. */
  lemma SameFilled(r: Rules, s0: State, o0: Order, v: State, o: Order)
    requires InHand(r.lim, s0, o0) && InHand(r.lim, v, o) && Onward(o0, o) && v.ledger == s0.ledger
    ensures o.filled == o0.filled
  {
  }

  /** A turn stopped before its first fill leaves everything but the cancelled orders as it was. */
  lemma StoppedFirst(r: Rules, s0: State, o0: Order, w: Work)
    requires |w.turns| == 1 && TurnIs(r, s0, o0, w.turns[0].fills, 0, w.v, w.o) && w.turns[0].fills != []
    ensures w.o == o0 && (r.smp == CancelNewest ==> w.v == s0) && (r.smp != CancelNewest ==> |w.v.cancels| == |s0.cancels| + 1)
  {
    hide Answer, NoSelf, SelfFill;
    var fs := w.turns[0].fills;
    assert fs[..0] == [];
    assert Committed(r.lim, s0, o0, fs[..0]) == s0;
  }

  /** The first fill of a turn would pair the order with itself exactly when it meets its own first. */
  lemma FirstNamed(r: Rules, s: State, o: Order, fs: seq<Fill>)
    requires InHand(r.lim, s, o) && Answer(r, s, o, fs)
    ensures fs != [] && (SelfFill(r, s, o, fs[0]) <==> OwnFirst(r, s, o))
  {
    hide InHand, SelfFill, Follows, EntriesFor, WholeEntries, Leader, Allocates;
    var q := s.Book(o.side.Opposite())[0].orders;
    var x := NamedAt(r, s, o, fs, 0);
    BestIsReadyFor(r, s, o);
    assert Committed(r.lim, s, o, fs[..0]) == s;
    SpotOf(q, x, Leader(r.policy, s.Book(o.side.Opposite())[0], o.remaining));
  }

  /** An order that meets its own first gets no further. */
  lemma {:induction false} OwnStops(r: Rules, s0: State, o0: Order, ds: seq<Round>, v: State, o: Order, alive: bool)
    requires InHand(r.lim, s0, o0) && TurnsTo(r, s0, o0, ds, v, o, alive) && r.smp != CancelOldest && OwnFirst(r, s0, o0)
    ensures alive ==> ds == [] && v == s0 && o == o0
    ensures !alive ==> |ds| == 1 && TurnIs(r, s0, o0, ds[0].fills, 0, v, o) && ds[0].fills != []
    decreases |ds|
  {
    hide InHand, TurnIs, OwnFirst;
    if ds != [] {
      var d := ds[|ds| - 1];
      OwnStops(r, s0, o0, ds[..|ds| - 1], d.before, d.order, true);
      OwnBlocks(r, s0, o0, d.fills, d.k, v, o);
    }
  }

  lemma OwnBlocks(r: Rules, s: State, o: Order, fs: seq<Fill>, k: nat, v: State, o': Order)
    requires InHand(r.lim, s, o) && TurnIs(r, s, o, fs, k, v, o') && OwnFirst(r, s, o)
    ensures k == 0 && fs != []
  {
    hide InHand, TurnIs, SelfFill, OwnFirst;
    TurnAnswers(r, s, o, fs, k, v, o');
    FirstNamed(r, s, o, fs);
    FirstFill(r, s, o, fs, k, v, o');
  }

  lemma TurnAnswers(r: Rules, s: State, o: Order, fs: seq<Fill>, k: nat, v: State, o': Order)
    requires TurnIs(r, s, o, fs, k, v, o')
    ensures Answer(r, s, o, fs)
  {
  }

  /** A turn stops before its first fill exactly when that one would pair the order with itself. */
  lemma FirstFill(r: Rules, s: State, o: Order, fs: seq<Fill>, k: nat, v: State, o': Order)
    requires TurnIs(r, s, o, fs, k, v, o') && fs != []
    ensures k == 0 <==> SelfFill(r, s, o, fs[0])
  {
    hide SelfFill, Answer;
    assert Committed(r.lim, s, o, fs[..0]) == s;
    assert k > 0 ==> !SelfFill(r, Committed(r.lim, s, o, fs[..0]), o, fs[0]);
  }

  /** An order that does not meet its own first is filled with something before it is stopped. */
  lemma NotOwnFirst(r: Rules, s0: State, o0: Order, ds: seq<Round>, v: State, o: Order)
    requires InHand(r.lim, s0, o0) && TurnsTo(r, s0, o0, ds, v, o, false) && r.smp != CancelOldest && !OwnFirst(r, s0, o0)
    ensures o.filled > o0.filled
  {
    hide InHand, TurnIs, OwnFirst;
    var d := ds[|ds| - 1];
    TurnsFill(r, s0, o0, ds[..|ds| - 1], d.before, d.order);
    TurnOnward(r, d.before, d.order, d.fills, d.k, v, o);
    if |ds| == 1 { StopFills(r, s0, o0, d.fills, d.k, v, o); }
  }

  /** Every turn the order survives fills it. */
  lemma {:induction false} TurnsFill(r: Rules, s0: State, o0: Order, ds: seq<Round>, v: State, o: Order)
    requires InHand(r.lim, s0, o0) && TurnsTo(r, s0, o0, ds, v, o, true) && r.smp != CancelOldest
    ensures InHand(r.lim, v, o) && (ds == [] || o.filled > o0.filled)
    decreases |ds|
  {
    hide InHand, TurnIs;
    if ds != [] {
      var d := ds[|ds| - 1];
      TurnsFill(r, s0, o0, ds[..|ds| - 1], d.before, d.order);
      TurnKeeps(r, d.before, d.order, d.fills, d.k, v, o);
      TurnAdds(r, d.before, d.order, d.fills, d.k, v, o);
      PlannedSome(r, d.before, d.order, d.fills, d.k, v, o);
    }
  }

  lemma PlannedSome(r: Rules, s: State, o: Order, fs: seq<Fill>, k: nat, v: State, o': Order)
    requires TurnIs(r, s, o, fs, k, v, o')
    ensures fs != []
  {
    hide NoSelf, Committed, SelfMatched, Follows, EntriesFor, WholeEntries, Leader, Allocates;
  }

  /** A committed fill adds to what the order has been filled with. */
  lemma TurnAdds(r: Rules, s: State, o: Order, fs: seq<Fill>, k: nat, v: State, o': Order)
    requires TurnIs(r, s, o, fs, k, v, o')
    ensures o'.filled >= o.filled && (k > 0 ==> o'.filled > o.filled)
  {
    hide NoSelf, Committed, SelfMatched, Follows, EntriesFor, WholeEntries, Leader, LedBy;
    TotalFillsNonneg(fs[..k]);
    if k > 0 { SomeFilled(fs, k); }
  }

  lemma SomeFilled(fs: seq<Fill>, k: nat)
    requires 0 < k <= |fs| && forall i :: 0 <= i < |fs| ==> fs[i].quantity > 0
    ensures TotalFills(fs[..k]) > 0
  {
    TotalFillsNonneg(fs[..k][1..]);
  }

  lemma StopFills(r: Rules, s: State, o: Order, fs: seq<Fill>, k: nat, v: State, o': Order)
    requires InHand(r.lim, s, o) && TurnIs(r, s, o, fs, k, v, o') && !OwnFirst(r, s, o)
    ensures o'.filled > o.filled
  {
    hide InHand, TurnIs, SelfFill, OwnFirst;
    TurnAnswers(r, s, o, fs, k, v, o');
    FirstNamed(r, s, o, fs);
    FirstFill(r, s, o, fs, k, v, o');
    TurnAdds(r, s, o, fs, k, v, o');
  }

  /** Among strangers an order that passes the pre-check is filled with all it shows, and with no more. */
  lemma ShownFilled(r: Rules, s0: State, o0: Order, w: Work, s1: State)
    requires InHand(r.lim, s0, o0) && o0.tif == FOK && Calm(r, s0) && WorkedBy(r, s0, o0, w, s1)
    requires Strangers(r, o0, s0.Book(o0.side.Opposite()))
    requires Reach(o0.side.Opposite(), s0.Book(o0.side.Opposite()), BoundOf(o0)) >= o0.remaining
    ensures w.outcome == Filled && w.o.filled == o0.filled + o0.remaining
    ensures AllOrNone(r, s0, o0) <==> ShowsAll(o0)
  {
    hide InHand, TurnsTo, OutOfReach, Reach, Strangers, Supply, Clear, Calm, Rest, OwnFirst, Free, AllOrNone;
    NeverHalted(r, s0, w.turns, w.v);
    TurnsAdvance(r, s0, o0, w.turns, w.v, w.o, true);
    FokFills(r, s0, o0, w.v, w.o);
    FokExactly(r, s0, o0, w, s1);
  }

  lemma WorkedOnward(r: Rules, s0: State, o0: Order, w: Work, s1: State)
    requires InHand(r.lim, s0, o0) && WorkedBy(r, s0, o0, w, s1)
    ensures Onward(o0, w.o)
  {
    hide InHand, TurnsTo, Ends, Ended;
    TurnsAdvance(r, s0, o0, w.turns, w.v, w.o, w.outcome != Dropped(SelfMatchPrevention));
  }

  // ---------------------------------------------------------------- in part

  /**
    What makes a fill-or-kill order trade some of what it shows and not the rest: the pre-check passes and,
    where self-matches cancel resting orders only, strangers hold something but too little, and where they
    cancel the order, it meets one of its own, and not first.
   */
  ghost predicate SomeOnly(r: Rules, s: State, o: Order) {
    var opp := o.side.Opposite();
    && Reach(opp, s.Book(opp), BoundOf(o)) >= o.remaining
    && if r.smp == CancelOldest then 0 < Left(Others(r, o), s, o) < o.remaining
       else !Unmet(r, s, o, o.remaining) && !OwnFirst(r, s, o)
  }

  /** In a calm session a fill-or-kill order is filled with part of what it shows exactly then. */
  lemma FokPartly(r: Rules, s0: State, o0: Order, w: Work, s1: State)
    requires InHand(r.lim, s0, o0) && o0.tif == FOK && Calm(r, s0) && WorkedBy(r, s0, o0, w, s1)
    ensures w.o.filled > o0.filled && w.o.remaining > 0 <==> SomeOnly(r, s0, o0)
  {
    hide InHand, TurnsTo, OutOfReach, Reach, Strangers, Supply, Clear, Calm, Ended, OwnFirst;
    NeverHalted(r, s0, w.turns, w.v);
    var opp := o0.side.Opposite();
    if Reach(opp, s0.Book(opp), BoundOf(o0)) >= o0.remaining {
      if r.smp == CancelOldest {
        OldestTakes(r, s0, o0, w.turns, w.v, w.o);
      } else if w.outcome != Dropped(SelfMatchPrevention) {
        MetNone(r, s0, o0, w, s1);
        Enough(r, s0, o0, w.turns, w.v, w.o);
      } else {
        StoppedPartly(r, s0, o0, w.turns, w.v, w.o);
      }
    }
  }

  lemma OldestTakes(r: Rules, s0: State, o0: Order, ds: seq<Round>, v: State, o: Order)
    requires InHand(r.lim, s0, o0) && TurnsTo(r, s0, o0, ds, v, o, true) && r.smp == CancelOldest && (o.remaining == 0 || OutOfReach(v, o))
    ensures o.filled > o0.filled && o.remaining > 0 <==> 0 < Left(Others(r, o0), s0, o0) < o0.remaining
  {
    hide InHand, TurnsTo, OutOfReach, Supply;
    var keep := Others(r, o0);
    TurnsSupply(keep, r, s0, o0, ds, v, o);
    LeftNonneg(keep, r.lim, v, o);
    if o.remaining != 0 { NothingLeft(keep, v, o); }
  }

  lemma StoppedPartly(r: Rules, s0: State, o0: Order, ds: seq<Round>, v: State, o: Order)
    requires InHand(r.lim, s0, o0) && TurnsTo(r, s0, o0, ds, v, o, false) && r.smp != CancelOldest
    ensures o.remaining > 0 && !Unmet(r, s0, o0, o0.remaining) && (o.filled > o0.filled <==> !OwnFirst(r, s0, o0))
  {
    hide InHand, TurnIs, OwnFirst, Clear;
    TurnsClear(r, s0, o0, ds, v, o, false);
    var d := ds[|ds| - 1];
    TurnUpTo(r, d.before, d.order, d.fills, d.k, v, o);
    StoppedShort(r, d.before, d.order, d.fills, d.k, v, o);
    if OwnFirst(r, s0, o0) {
      OwnStops(r, s0, o0, ds, v, o, false);
      NothingTaken(r, s0, o0, ds[0].fills, v, o);
    } else {
      NotOwnFirst(r, s0, o0, ds, v, o);
    }
  }

  lemma NothingTaken(r: Rules, s: State, o: Order, fs: seq<Fill>, v: State, o': Order)
    requires TurnIs(r, s, o, fs, 0, v, o')
    ensures o' == o
  {
    hide Answer, NoSelf, SelfMatched;
    assert fs[..0] == [];
  }

  lemma StoppedShort(r: Rules, s: State, o: Order, fs: seq<Fill>, k: nat, v: State, o': Order)
    requires TurnIs(r, s, o, fs, k, v, o') && k < |fs|
    ensures o'.remaining > 0
  {
    hide NoSelf, Committed, SelfMatched, Follows, EntriesFor, WholeEntries, Leader, LedBy;
    assert fs == fs[..k] + fs[k..];
    TotalFillsConcat(fs[..k], fs[k..]);
    SomeFilled(fs[k..], |fs| - k);
    assert fs[k..][..|fs| - k] == fs[k..];
  }

  /** Without a self-match the pre-check's quantity is there to be taken. */
  lemma Enough(r: Rules, s0: State, o0: Order, ds: seq<Round>, v: State, o: Order)
    requires InHand(r.lim, s0, o0) && TurnsTo(r, s0, o0, ds, v, o, true) && r.smp != CancelOldest
    requires Reach(o0.side.Opposite(), s0.Book(o0.side.Opposite()), BoundOf(o0)) >= o0.remaining
    requires o.remaining == 0 || OutOfReach(v, o)
    ensures o.remaining == 0 && o.filled == o0.filled + o0.remaining
  {
    hide TurnsTo, OutOfReach, Reach, Supply;
    var all: nat -> bool := a => true;
    var opp := o0.side.Opposite();
    SupplyReach(all, opp, s0.Book(opp), BoundOf(o0));
    hide InHand;
    TurnsSupply(all, r, s0, o0, ds, v, o);
    LeftNonneg(all, r.lim, v, o);
    if o.remaining != 0 { NothingLeft(all, v, o); }
  }
}
