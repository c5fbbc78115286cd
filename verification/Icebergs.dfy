/**
  An auction that leaves the book crossed: two orders entered before the open, an iceberg bid that
  shows half of its quantity and an ask of all of it at the same price.
 */
module Icebergs {
  import opened Types
  import opened Queues
  import opened Levels
  import opened Tape
  import opened Ledger
  import opened EngineState
  import opened Trading
  import opened Policies
  import opened Progress
  import opened Lifecycle
  import opened Auction
  import opened Wholes
  import opened Opening

  /** An engine with room for the two orders. */
  function Small(): Rules { Plain(Limits(2, 2, 3, 0, 0), Fifo) }

  function IcebergBook(): State {
    Entered(Entered(BeforeOpen(Limits(2, 2, 3, 0, 0)), At10(Buy, 10, 5)), At10(Sell, 10, 0))
  }

  /** The book is one the engine reaches, with its two levels. */
  lemma IcebergBookIs()
    ensures Inv(Small().lim, IcebergBook(), multiset{}) && MirrorsBook(IcebergBook())
    ensures IcebergBook().bids == [MkLevel(10, [OrderOf(At10(Buy, 10, 5), 1)])]
    ensures IcebergBook().asks == [MkLevel(10, [OrderOf(At10(Sell, 10, 0), 2)])]
  {
    hide Inv, MirrorsBook, OrderOf, Entered;
    var s0, bid, ask := BeforeOpen(Small().lim), At10(Buy, 10, 5), At10(Sell, 10, 0);
    EmptyInv(Small());
    EnteredInv(Small(), s0, bid);
    FirstIn(Buy, s0, bid);
    var s1 := Entered(s0, bid);
    EnteredInv(Small(), s1, ask);
    FirstIn(Sell, s1, ask);
  }

  lemma OneLevel(side: Side, price: int, o: Order, x: int)
    ensures var ls := [MkLevel(price, [o])];
      && Volume(side, ls, x) == (if Within(side, price, UpTo(x)) then o.remaining else 0)
      && WholeVolume(side, ls, x) == (if Within(side, price, UpTo(x)) then Whole(o) else 0)
  {
    var ls := [MkLevel(price, [o])];
    assert [o][1..] == [] && ls[1..] == [];
    assert Reach(side, ls[1..], UpTo(x)) == 0 && SumRem([o]) == o.remaining && SumWhole([o]) == Whole(o);
  }

  /** However its price is found, the auction on this book trades the 5 that show, and 5 does not
      cover the 10 on each side: by the contract of the auction the book stays crossed. */
  lemma IcebergStaysCrossed(reference: int, r: AuctionResult)
    requires Clears(IcebergBook().bids, IcebergBook().asks, reference, r)
    ensures Inv(Small().lim, IcebergBook(), multiset{})
    ensures r.matched == 5 && !Covers(IcebergBook().bids, IcebergBook().asks, r.matched)
  {
    hide Inv, WholeVolume, Reach, MkLevel, IcebergBook;
    var s, b, a := IcebergBook(), OrderOf(At10(Buy, 10, 5), 1), OrderOf(At10(Sell, 10, 0), 2);
    IcebergBookIs();
    OneLevel(Buy, 10, b, 10);
    OneLevel(Sell, 10, a, 10);
    OneLevel(Buy, 10, b, r.price);
    OneLevel(Sell, 10, a, r.price);
    assert Matchable(s.bids, s.asks, 10) == 5 <= r.matched;
    assert Min(WholeVolume(Buy, s.bids, 10), WholeVolume(Sell, s.asks, 10)) == 10;
  }
}
