/**
  What an auction has to work with when quantity is hidden (exchange-core/matching_engine.h,
  execute_auction and auction_handle_filled_order): the walk reveals tranche after tranche, so it
  is the whole of an order, hidden part included, that stands between a price and the next.
 */
module Wholes {
  import opened Types
  import opened Queues
  import opened Levels
  import opened EngineState
  import opened Trading
  import opened Progress
  import opened Auction

  /** What of an order is neither filled nor showing. */
  function Hidden(o: Order): int {
    if o.display > 0 && o.total > o.filled + o.remaining then o.total - o.filled - o.remaining else 0
  }

  function Whole(o: Order): int { o.remaining + Hidden(o) }

  function SumWhole(q: seq<Order>): int { if q == [] then 0 else Whole(q[0]) + SumWhole(q[1..]) }

  /** Volume of a side at a price, hidden quantity included. */
  function WholeVolume(side: Side, ls: seq<Level>, x: int): int {
    if ls == [] then 0
    else (if Within(side, ls[0].price, UpTo(x)) then SumWhole(ls[0].orders) else 0) + WholeVolume(side, ls[1..], x)
  }

  // ---------------------------------------------------------------- one queue

  lemma {:induction false} SumWholeConcat(a: seq<Order>, b: seq<Order>)
    ensures SumWhole(a + b) == SumWhole(a) + SumWhole(b)
  {
    if a == [] {
      assert a + b == b;
    } else {
      assert (a + b)[1..] == a[1..] + b;
      SumWholeConcat(a[1..], b);
    }
  }

  lemma SumWholeSplit(q: seq<Order>, j: nat)
    requires j < |q|
    ensures SumWhole(q) == SumWhole(q[..j]) + Whole(q[j]) + SumWhole(q[j+1..])
    ensures SumWhole(Without(q, j)) == SumWhole(q[..j]) + SumWhole(q[j+1..])
  {
    assert q == q[..j] + q[j..] && q[j..][1..] == q[j+1..];
    SumWholeConcat(q[..j], q[j..]);
    SumWholeConcat(q[..j], q[j+1..]);
  }

  lemma SumWholeSnoc(q: seq<Order>, o: Order)
    ensures SumWhole(q + [o]) == SumWhole(q) + Whole(o)
  {
    SumWholeConcat(q, [o]);
    assert [o][1..] == [];
  }

  lemma {:induction false} SumWholeAtLeast(q: seq<Order>)
    requires AllPositive(q)
    ensures SumWhole(q) >= SumRem(q) >= 0
  {
    if q != [] { SumWholeAtLeast(q[1..]); }
  }

  /** A fill takes its quantity and nothing else from the whole of a queue: a revealed tranche was
      there before, and an order leaves only with nothing hidden. */
  lemma FillWhole(q: seq<Order>, j: nat, n: int)
    requires j < |q| && 0 < n <= q[j].remaining
    ensures SumWhole(FillQ(q, j, n)) == SumWhole(q) - n
  {
    hide SumWhole;
    var o := q[j].Filled(n);
    assert Whole(o) == Whole(q[j]) - n;
    SumWholeSplit(q, j);
    if o.remaining != 0 {
      var q' := q[j := o];
      SumWholeSplit(q', j);
      assert q'[..j] == q[..j] && q'[j+1..] == q[j+1..];
    } else {
      var next := o.(remaining := o.NextTranche());
      SumWholeSnoc(Without(q, j), next);
    }
  }

  // ---------------------------------------------------------------- one side

  lemma {:induction false} NoWhole(side: Side, ls: seq<Level>, x: int)
    requires forall lv :: lv in ls ==> !Within(side, lv.price, UpTo(x))
    ensures WholeVolume(side, ls, x) == 0
  {
    if ls != [] { NoWhole(side, ls[1..], x); }
  }

  lemma {:induction false} WholeNonneg(side: Side, ls: seq<Level>, x: int)
    requires Showing(ls)
    ensures WholeVolume(side, ls, x) >= 0
  {
    if ls != [] {
      assert ls[0] in ls;
      SumWholeAtLeast(ls[0].orders);
      WholeNonneg(side, ls[1..], x);
    }
  }

  /** Something is there exactly when some level is. */
  lemma {:induction false} WholeAtLeast(side: Side, ls: seq<Level>, lv: Level, x: int)
    requires Showing(ls) && lv in ls && lv.orders != [] && Within(side, lv.price, UpTo(x))
    ensures WholeVolume(side, ls, x) > 0
  {
    assert ls[0] in ls;
    SumWholeAtLeast(ls[0].orders);
    WholeNonneg(side, ls[1..], x);
    if lv == ls[0] { SumRemAtLeast(lv.orders, 0); } else { WholeAtLeast(side, ls[1..], lv, x); }
  }

  lemma WholeSource(side: Side, ls: seq<Level>, x: int) returns (lv: Level)
    requires WholeVolume(side, ls, x) > 0
    ensures lv in ls && Within(side, lv.price, UpTo(x))
  {
    if forall l :: l in ls ==> !Within(side, l.price, UpTo(x)) { NoWhole(side, ls, x); }
    lv :| lv in ls && Within(side, lv.price, UpTo(x));
  }

  /** A fill at the best level, seen from every price. */
  lemma FillWholeVolume(side: Side, ls: seq<Level>, j: nat, n: int, x: int)
    requires Sorted(side, ls) && Showing(ls) && Spot(ls, 0, j) && 0 < n <= ls[0].orders[j].remaining
    ensures var v, v' := WholeVolume(side, ls, x), WholeVolume(side, PutQueue(ls, 0, FillQ(ls[0].orders, j, n)), x);
      if Within(side, ls[0].price, UpTo(x)) then v >= n && v' == v - n else v == 0 && v' == 0
  {
    hide SumWhole, FillQ;
    var q := FillQ(ls[0].orders, j, n);
    var ls' := PutQueue(ls, 0, q);
    assert ls[0] in ls;
    FillWhole(ls[0].orders, j, n);
    SumWholeAtLeast(ls[0].orders);
    SumRemAtLeast(ls[0].orders, j);
    WholeNonneg(side, ls[1..], x);
    assert q == [] ==> ls' == ls[1..] && SumWhole(q) == 0 by { EmptyWhole(); }
    assert q != [] ==> ls'[0].orders == q && ls'[0].price == ls[0].price && ls'[1..] == ls[1..];
    if !Within(side, ls[0].price, UpTo(x)) {
      NoWhole(side, ls[1..], x);
    }
  }

  lemma EmptyWhole()
    ensures SumWhole([]) == 0
  {
  }

  // ---------------------------------------------------------------- the whole walk

  /** Of the whole volume at every price, `done` is gone, or everything. */
  ghost predicate Taken(side: Side, ls0: seq<Level>, ls: seq<Level>, done: int) {
    forall x :: WholeVolume(side, ls, x) == WholeVolume(side, ls0, x) - Min(done, WholeVolume(side, ls0, x))
  }

  lemma TakenNothing(side: Side, ls: seq<Level>)
    requires Showing(ls)
    ensures Taken(side, ls, ls, 0)
  {
    forall x ensures WholeVolume(side, ls, x) == WholeVolume(side, ls, x) - Min(0, WholeVolume(side, ls, x)) {
      WholeNonneg(side, ls, x);
    }
  }

  lemma TakenMore(side: Side, ls0: seq<Level>, ls: seq<Level>, done: int, j: nat, n: int)
    requires Taken(side, ls0, ls, done) && done >= 0
    requires Sorted(side, ls) && Showing(ls) && Spot(ls, 0, j) && 0 < n <= ls[0].orders[j].remaining
    ensures Taken(side, ls0, PutQueue(ls, 0, FillQ(ls[0].orders, j, n)), done + n)
  {
    hide WholeVolume, FillQ, PutQueue;
    var ls' := PutQueue(ls, 0, FillQ(ls[0].orders, j, n));
    forall x ensures WholeVolume(side, ls', x) == WholeVolume(side, ls0, x) - Min(done + n, WholeVolume(side, ls0, x)) {
      FillWholeVolume(side, ls, j, n, x);
    }
  }

  /** At no price do both sides have more than n, hidden quantity included. */
  ghost predicate Covers(bids: seq<Level>, asks: seq<Level>, n: int) {
    forall x :: Min(WholeVolume(Buy, bids, x), WholeVolume(Sell, asks, x)) <= n
  }

  /** Taking n from the whole of both sides uncrosses them exactly when n covers what could cross. */
  lemma TakenUncrosses(bids0: seq<Level>, asks0: seq<Level>, bids: seq<Level>, asks: seq<Level>, n: int)
    requires Taken(Buy, bids0, bids, n) && Taken(Sell, asks0, asks, n)
    requires Showing(bids) && Showing(asks) && (forall lv :: lv in bids || lv in asks ==> lv.orders != [])
    ensures (forall b, a :: b in bids && a in asks ==> b.price < a.price) <==> Covers(bids0, asks0, n)
  {
    hide WholeVolume;
    if Covers(bids0, asks0, n) {
      forall b, a | b in bids && a in asks ensures b.price < a.price {
        if b.price >= a.price {
          WholeAtLeast(Buy, bids, b, b.price);
          WholeAtLeast(Sell, asks, a, b.price);
        }
      }
    } else {
      var x :| Min(WholeVolume(Buy, bids0, x), WholeVolume(Sell, asks0, x)) > n;
      var b := WholeSource(Buy, bids, x);
      var a := WholeSource(Sell, asks, x);
      assert b.price >= x >= a.price;
    }
  }
}
