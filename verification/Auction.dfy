/**
  The call auction (exchange-core/matching_engine.h, calculate_auction_price, execute_auction and
  auction_handle_filled_order): one price that trades the most, then both sides walked from the
  best level until that volume has traded.
 */
module Auction {
  import opened Types
  import opened Queues
  import opened Levels
  import opened Tape
  import opened Ledger
  import opened EngineState
  import opened Steps
  import opened Trading
  import opened Matching
  import opened Progress
  import opened Busts

  // ---------------------------------------------------------------- volumes

  /** Quantity a side offers at a price: bids at or above it, asks at or below it. */
  function Volume(side: Side, ls: seq<Level>, p: int): int { Reach(side, ls, UpTo(p)) }

  /** What would trade at a price. */
  function Matchable(bids: seq<Level>, asks: seq<Level>, p: int): int {
    Min(Volume(Buy, bids, p), Volume(Sell, asks, p))
  }

  function Imbalance(bids: seq<Level>, asks: seq<Level>, p: int): int {
    Abs(Volume(Buy, bids, p) - Volume(Sell, asks, p))
  }

  ghost predicate Depth(ls: seq<Level>) { forall lv :: lv in ls ==> lv.total > 0 }

  lemma {:induction false} VolumeAgrees(side: Side, ls: seq<Level>, p: int, c: int)
    requires forall lv :: lv in ls ==> (Within(side, lv.price, UpTo(p)) <==> Within(side, lv.price, UpTo(c)))
    ensures Volume(side, ls, p) == Volume(side, ls, c)
  {
    if ls != [] {
      assert ls[0] in ls;
      VolumeAgrees(side, ls[1..], p, c);
    }
  }

  /** Going further never offers less. */
  lemma {:induction false} VolumeGrows(side: Side, ls: seq<Level>, p: int, c: int)
    requires Depth(ls) && !Better(side, c, p)
    ensures 0 <= Volume(side, ls, p) <= Volume(side, ls, c)
  {
    if ls != [] {
      assert ls[0] in ls;
      VolumeGrows(side, ls[1..], p, c);
    }
  }

  lemma VolumeAtLeast(side: Side, ls: seq<Level>, lv: Level, p: int)
    requires Depth(ls) && lv in ls && Within(side, lv.price, UpTo(p))
    ensures Volume(side, ls, p) >= lv.total > 0
  {
    var k :| 0 <= k < |ls| && ls[k] == lv;
    ReachSplit(side, ls, k, UpTo(p));
    VolumeGrows(side, ls[..k], p, p);
    VolumeGrows(side, ls[k+1..], p, p);
  }

  lemma VolumeSource(side: Side, ls: seq<Level>, p: int) returns (lv: Level)
    requires Volume(side, ls, p) > 0
    ensures lv in ls && Within(side, lv.price, UpTo(p))
  {
    if forall x :: x in ls ==> !Within(side, x.price, UpTo(p)) { NoReach(side, ls, UpTo(p)); }
    lv :| lv in ls && Within(side, lv.price, UpTo(p));
  }

  /** Something trades at some price exactly when the book is crossed. */
  lemma CrossedTrades(bids: seq<Level>, asks: seq<Level>, b: Level, a: Level)
    requires Depth(bids) && Depth(asks) && b in bids && a in asks && b.price >= a.price
    ensures Matchable(bids, asks, b.price) > 0
  {
    VolumeAtLeast(Buy, bids, b, b.price);
    VolumeAtLeast(Sell, asks, a, b.price);
  }

  lemma TradesCrossed(bids: seq<Level>, asks: seq<Level>, p: int) returns (b: Level, a: Level)
    requires Matchable(bids, asks, p) > 0
    ensures b in bids && a in asks && b.price >= p >= a.price
  {
    b := VolumeSource(Buy, bids, p);
    a := VolumeSource(Sell, asks, p);
  }

  /** Whatever trades at some price trades at the price of a bid level too. */
  lemma LevelSuffices(bids: seq<Level>, asks: seq<Level>, p: int) returns (c: int)
    requires Sorted(Buy, bids) && Depth(bids) && Depth(asks) && Matchable(bids, asks, p) > 0
    ensures HasPrice(bids, c) && Matchable(bids, asks, c) >= Matchable(bids, asks, p)
  {
    var b, a := TradesCrossed(bids, asks, p);
    var k := Slot(Buy, bids, p);
    if k < |bids| && bids[k].price == p {
      c := p;
      assert bids[k] in bids;
    } else {
      assert k > 0;
      c := bids[k-1].price;
      assert bids[k-1] in bids;
      VolumeAgrees(Buy, bids, p, c);
      VolumeGrows(Sell, asks, p, c);
    }
  }

  // ---------------------------------------------------------------- the equilibrium price

  datatype AuctionResult = AuctionResult(hasPrice: bool, price: int, matched: int, buySurplus: int, sellSurplus: int)

  /** The auction's order of preference among prices: more volume, then less imbalance, then
      nearer the reference, then higher. */
  ghost predicate Prefers(bids: seq<Level>, asks: seq<Level>, reference: int, p: int, c: int) {
    var vp, vc := Matchable(bids, asks, p), Matchable(bids, asks, c);
    var ip, ic := Imbalance(bids, asks, p), Imbalance(bids, asks, c);
    var dp, dc := Abs(p - reference), Abs(c - reference);
    vp > vc || (vp == vc && (ip < ic || (ip == ic && (dp < dc || (dp == dc && p >= c)))))
  }

  /** The price, its volume and its surpluses; preferred to every level price; and no price
      whatever, between levels or not, would trade more. */
  ghost predicate Clears(bids: seq<Level>, asks: seq<Level>, reference: int, r: AuctionResult) {
    && r.matched == Matchable(bids, asks, r.price) > 0
    && r.buySurplus == Volume(Buy, bids, r.price) - r.matched
    && r.sellSurplus == Volume(Sell, asks, r.price) - r.matched
    && (HasPrice(bids, r.price) || HasPrice(asks, r.price))
    && (forall c :: HasPrice(bids, c) || HasPrice(asks, c) ==> Prefers(bids, asks, reference, r.price, c))
    && (forall x :: Matchable(bids, asks, x) <= r.matched)
  }

  /** Volume of one side at a price, by a walk over its levels. */
  method SumVolume(side: Side, ls: seq<Level>, p: int) returns (v: int)
    ensures v == Volume(side, ls, p)
  {
    v := 0;
    assert ls[..|ls|] == ls;
    for i := 0 to |ls|
      invariant v == Volume(side, ls[..i], p)
    {
      assert ls[..i+1][..i] == ls[..i] && ls[..i+1][i+1..] == [];
      ReachSplit(side, ls[..i+1], i, UpTo(p));
      if Within(side, ls[i].price, UpTo(p)) { v := v + ls[i].total; }
    }
  }

  ghost predicate Ascending(ps: seq<int>) { forall i, j :: 0 <= i < j < |ps| ==> ps[i] < ps[j] }

  /** Put a price in an ascending list without repeats. */
  method AddPrice(ps: seq<int>, p: int) returns (r: seq<int>)
    requires Ascending(ps)
    ensures Ascending(r) && forall x :: x in r <==> x in ps || x == p
  {
    var i := 0;
    while i < |ps| && ps[i] < p
      invariant 0 <= i <= |ps| && forall j :: 0 <= j < i ==> ps[j] < p
    {
      i := i + 1;
    }
    if i < |ps| && ps[i] == p { return ps; }
    r := ps[..i] + [p] + ps[i..];
    assert ps == ps[..i] + ps[i..];
  }

  lemma PriceIn(x: seq<Level>, y: seq<Level>, c: int)
    ensures HasPrice(x + y, c) <==> HasPrice(x, c) || HasPrice(y, c)
    ensures |y| == 1 ==> (HasPrice(y, c) <==> y[0].price == c)
  {
    if |y| == 1 { assert y[0] in y; }
    if HasPrice(x, c) {
      var lv :| lv in x && lv.price == c;
      assert lv in x + y;
    }
    if HasPrice(y, c) {
      var lv :| lv in y && lv.price == c;
      assert lv in x + y;
    }
  }

  /** The prices of both sides, sorted, each once. */
  method Candidates(bids: seq<Level>, asks: seq<Level>) returns (ps: seq<int>)
    ensures Ascending(ps) && forall c :: c in ps <==> HasPrice(bids, c) || HasPrice(asks, c)
  {
    ps := [];
    var ls := bids + asks;
    for i := 0 to |ls|
      invariant Ascending(ps) && forall c :: c in ps <==> HasPrice(ls[..i], c)
    {
      ps := AddPrice(ps, ls[i].price);
      assert ls[..i+1] == ls[..i] + [ls[i]];
      forall c ensures HasPrice(ls[..i+1], c) <==> HasPrice(ls[..i], c) || ls[i].price == c {
        PriceIn(ls[..i], [ls[i]], c);
      }
    }
    assert ls[..|ls|] == ls;
    forall c ensures HasPrice(ls, c) <==> HasPrice(bids, c) || HasPrice(asks, c) { PriceIn(bids, asks, c); }
  }

  /** The best of the candidates looked at so far; those that trade nothing are passed over. */
  ghost predicate BestSoFar(bids: seq<Level>, asks: seq<Level>, reference: int, ps: seq<int>, r: AuctionResult) {
    && (!r.hasPrice ==> forall c :: c in ps ==> Matchable(bids, asks, c) == 0)
    && (r.hasPrice ==>
          && r.price in ps && r.matched == Matchable(bids, asks, r.price) > 0
          && r.buySurplus == Volume(Buy, bids, r.price) - r.matched
          && r.sellSurplus == Volume(Sell, asks, r.price) - r.matched
          && forall c :: c in ps ==> Prefers(bids, asks, reference, r.price, c))
  }

  lemma PrefersTrans(bids: seq<Level>, asks: seq<Level>, reference: int, p: int, c: int, d: int)
    requires Prefers(bids, asks, reference, p, c) && Prefers(bids, asks, reference, c, d)
    ensures Prefers(bids, asks, reference, p, d)
  {
  }

  /** The scan of the candidates. */
  method CalculateAuctionPrice(bids: seq<Level>, asks: seq<Level>, reference: int) returns (best: AuctionResult)
    requires Sorted(Buy, bids) && Sorted(Sell, asks) && Depth(bids) && Depth(asks)
    ensures best.hasPrice <==> exists b, a :: b in bids && a in asks && b.price >= a.price
    ensures best.hasPrice ==> Clears(bids, asks, reference, best)
  {
    best := AuctionResult(false, 0, 0, 0, 0);
    var ps := Candidates(bids, asks);
    var bestImbalance, bestDistance := 0, 0;
    for i := 0 to |ps|
      invariant BestSoFar(bids, asks, reference, ps[..i], best)
      invariant best.hasPrice ==>
        bestImbalance == Imbalance(bids, asks, best.price) && bestDistance == Abs(best.price - reference)
    {
      var p := ps[i];
      var buy := SumVolume(Buy, bids, p);
      var sell := SumVolume(Sell, asks, p);
      var matched := Min(buy, sell);
      var imbalance, distance := Abs(buy - sell), Abs(p - reference);
      var better := matched != 0 && (
        if !best.hasPrice || matched > best.matched then true
        else if matched < best.matched then false
        else if imbalance != bestImbalance then imbalance < bestImbalance
        else if distance != bestDistance then distance < bestDistance
        else p > best.price);
      VolumeGrows(Buy, bids, p, p);
      VolumeGrows(Sell, asks, p, p);
      assert ps[..i+1] == ps[..i] + [p];
      ScanStep(bids, asks, reference, ps[..i], best, p, better);
      if better {
        best := AuctionResult(true, p, matched, buy - matched, sell - matched);
        bestImbalance, bestDistance := imbalance, distance;
      }
    }
    assert ps[..|ps|] == ps;
    ScanDone(bids, asks, reference, ps, best);
  }

  ghost predicate Improves(bids: seq<Level>, asks: seq<Level>, reference: int, r: AuctionResult, p: int) {
    && Matchable(bids, asks, p) != 0
    && (!r.hasPrice || (Prefers(bids, asks, reference, p, r.price) && p != r.price))
  }

  /** One candidate more. */
  lemma ScanStep(bids: seq<Level>, asks: seq<Level>, reference: int, ps: seq<int>, r: AuctionResult, p: int, better: bool)
    requires BestSoFar(bids, asks, reference, ps, r) && Matchable(bids, asks, p) >= 0
    requires better <==> Improves(bids, asks, reference, r, p)
    ensures var v := Matchable(bids, asks, p);
      var r' := AuctionResult(true, p, v, Volume(Buy, bids, p) - v, Volume(Sell, asks, p) - v);
      BestSoFar(bids, asks, reference, ps + [p], if better then r' else r)
  {
    if better {
      forall c | c in ps + [p] ensures Prefers(bids, asks, reference, p, c) {
        if c in ps && r.hasPrice { PrefersTrans(bids, asks, reference, p, r.price, c); }
      }
    } else {
      forall c | c in ps + [p] && r.hasPrice ensures Prefers(bids, asks, reference, r.price, c) {}
    }
  }

  lemma ScanDone(bids: seq<Level>, asks: seq<Level>, reference: int, ps: seq<int>, r: AuctionResult)
    requires Sorted(Buy, bids) && Depth(bids) && Depth(asks)
    requires BestSoFar(bids, asks, reference, ps, r)
    requires forall c :: c in ps <==> HasPrice(bids, c) || HasPrice(asks, c)
    ensures r.hasPrice <==> exists b, a :: b in bids && a in asks && b.price >= a.price
    ensures r.hasPrice ==> Clears(bids, asks, reference, r)
  {
    if r.hasPrice {
      var b, a := TradesCrossed(bids, asks, r.price);
      forall x ensures Matchable(bids, asks, x) <= r.matched {
        if Matchable(bids, asks, x) > 0 {
          var c := LevelSuffices(bids, asks, x);
          assert Prefers(bids, asks, reference, r.price, c);
        }
      }
    } else if b, a :| b in bids && a in asks && b.price >= a.price {
      CrossedTrades(bids, asks, b, a);
      assert HasPrice(bids, b.price);
    }
  }
}
