/**
  Fill-or-kill orders filled in part: an ask of a stranger and one of the order's own account, five lots
  each, and a buy of all ten; and, on the same book, a third account's buy of ten that shows five.
 */
module Partial {
  import opened Types
  import opened Queues
  import opened Levels
  import opened Tape
  import opened Ledger
  import opened EngineState
  import opened Trading
  import opened Policies
  import opened Progress
  import opened Lifecycle
  import opened Wholes
  import opened Turns
  import opened Runs
  import opened Opening
  import opened FillOrKill

  const LIM := Limits(3, 2, 4, 0, 0)

  /** Orders of one account are not to trade with each other. */
  function OwnRules(smp: SmpAction): Rules { Plain(LIM, Fifo).(selfMatch := (a, b) => a == b, smp := smp) }

  function Ask(account: nat): Request { At10(Sell, 5, 0).(account := account) }

  function Two(): State { EnterState(Entered(Entered(BeforeOpen(LIM), Ask(2)), Ask(1)), Continuous, true) }

  function BuyAll(account: nat, display: int): Request { Request(account, Buy, Limit, FOK, 10, 10, 0, 0, 0, display, false) }

  lemma TwoIs(smp: SmpAction)
    ensures Inv(LIM, Two(), multiset{}) && MirrorsBook(Two())
    ensures Two().asks == ASKS && Two().session == Continuous
    ensures Two().nextId == 3 && Two().freeOrders == 1 && Two().lastTrade == 0
  {
    hide Inv, MirrorsBook, OrderOf, Entered;
    var r, s0 := OwnRules(smp), BeforeOpen(LIM);
    EmptyInv(r);
    EnteredInv(r, s0, Ask(2));
    FirstIn(Sell, s0, Ask(2));
    var s1 := Entered(s0, Ask(2));
    EnteredInv(r, s1, Ask(1));
    EnteredAside(s1, Ask(1));
    NextIn(Sell, s1, Ask(1), [OrderOf(Ask(2), 1)]);
    assert [OrderOf(Ask(2), 1)] + [OrderOf(Ask(1), 2)] == [OrderOf(Ask(2), 1), OrderOf(Ask(1), 2)];
    EnterKeeps(LIM, Entered(s1, Ask(1)), Continuous, true);
  }

  const QUEUE := [OrderOf(Ask(2), 1), OrderOf(Ask(1), 2)]
  const ASKS := [MkLevel(10, QUEUE)]

  /** The order is admitted and worked on a book that the pre-check finds to show enough. */
  lemma Starts(smp: SmpAction, account: nat, display: int)
    requires account > 0 && (display == 0 || display == 5)
    ensures var s, o := AcceptedState(Two()), OrderOf(BuyAll(account, display), 3);
      && InHand(LIM, s, o) && Calm(OwnRules(smp), s) && s.asks == ASKS
      && Reach(Sell, s.asks, BoundOf(o)) >= o.remaining
  {
    hide Inv, InHand, Reach, OrderOf, Two;
    TwoIs(smp);
    AcceptInv(OwnRules(smp), Two(), BuyAll(account, display));
    BuyIs(account, display);
    TenShown();
  }

  /** However self-matches are resolved, the buy of ten is filled with some of them and not all, and is
      neither filled in full nor left untouched. */
  lemma PartFilled(smp: SmpAction, w: Work, s1: State)
    requires smp == CancelNewest || smp == CancelOldest || smp == CancelBoth
    requires WorkedBy(OwnRules(smp), AcceptedState(Two()), OrderOf(BuyAll(1, 0), 3), w, s1)
    ensures var s, o := AcceptedState(Two()), OrderOf(BuyAll(1, 0), 3);
      && InHand(LIM, s, o) && Calm(OwnRules(smp), s) && Reach(Sell, s.asks, BoundOf(o)) >= o.remaining
      && 0 < w.o.filled < o.quantity && !AllOrNone(OwnRules(smp), s, o)
  {
    hide InHand, Supply, Clear, Reach, OrderOf, Two, OwnFirst, WorkedBy, Calm;
    var r, s, o := OwnRules(smp), AcceptedState(Two()), OrderOf(BuyAll(1, 0), 3);
    Starts(smp, 1, 0);
    BuyIs(1, 0);
    FiveForOthers(smp);
    OneOwn(smp);
    StrangerFirst(smp, s);
    FokPartly(r, s, o, w, s1);
    WorkedOnward(r, s, o, w, s1);
  }

  /** The buy of ten that shows five is done once the five are filled, self-matches or none. */
  lemma TipFilled(smp: SmpAction, w: Work, s1: State)
    requires smp == CancelNewest || smp == CancelOldest || smp == CancelBoth
    requires WorkedBy(OwnRules(smp), AcceptedState(Two()), OrderOf(BuyAll(3, 5), 3), w, s1)
    ensures var s, o := AcceptedState(Two()), OrderOf(BuyAll(3, 5), 3);
      && InHand(LIM, s, o) && Calm(OwnRules(smp), s) && Reach(Sell, s.asks, BoundOf(o)) >= o.remaining
      && w.outcome == Filled && 0 < w.o.filled < o.quantity && !AllOrNone(OwnRules(smp), s, o)
  {
    hide InHand, Reach, OrderOf, Two, OwnFirst, WorkedBy, Calm, Unmet, Supply;
    var r, s, o := OwnRules(smp), AcceptedState(Two()), OrderOf(BuyAll(3, 5), 3);
    Starts(smp, 3, 5);
    BuyIs(3, 5);
    NoneOwn(smp, s);
    ShownFilled(r, s, o, w, s1);
  }

  lemma BuyIs(account: nat, display: int)
    requires display == 0 || display == 5
    ensures var o := OrderOf(BuyAll(account, display), 3);
      && o.account == account && o.side == Buy && o.tif == FOK && o.quantity == 10 && o.filled == 0 && BoundOf(o) == UpTo(10)
      && o.remaining == if display == 0 then 10 else 5
  {
  }

  lemma QueueIs()
    ensures QUEUE[1..] == [OrderOf(Ask(1), 2)] && QUEUE[1..][1..] == [] && ASKS[1..] == []
    ensures QUEUE[0].account == 2 && QUEUE[1].account == 1 && Whole(QUEUE[0]) == 5 && Whole(QUEUE[1]) == 5
    ensures QUEUE[0].remaining == 5 && QUEUE[1].remaining == 5
  {
  }

  lemma TenShown()
    ensures ASKS[0].total == 10 && Reach(Sell, ASKS, UpTo(10)) == 10
  {
    QueueIs();
    hide OrderOf;
    assert SumRem(QUEUE[1..]) == 5;
    assert Reach(Sell, ASKS[1..], UpTo(10)) == 0;
  }

  lemma FiveForOthers(smp: SmpAction)
    ensures Supply(Others(OwnRules(smp), OrderOf(BuyAll(1, 0), 3)), Sell, ASKS, UpTo(10)) == 5
  {
    BuyIs(1, 0);
    QueueIs();
    hide OrderOf, Whole;
    var keep := Others(OwnRules(smp), OrderOf(BuyAll(1, 0), 3));
    assert !keep(1) && keep(2);
    assert Kept(keep, QUEUE[1..]) == 0;
    assert Supply(keep, Sell, ASKS[1..], UpTo(10)) == 0;
  }

  lemma OneOwn(smp: SmpAction)
    ensures !Clear(OwnRules(smp), 1, Sell, ASKS, UpTo(10), 10)
  {
    QueueIs();
    TenShown();
    hide OrderOf;
    assert OwnRules(smp).selfMatch(1, QUEUE[1].account) && SelfIn(OwnRules(smp), 1, QUEUE);
  }

  lemma StrangerFirst(smp: SmpAction, s: State)
    requires s.asks == ASKS
    ensures !OwnFirst(OwnRules(smp), s, OrderOf(BuyAll(1, 0), 3))
  {
    QueueIs();
    BuyIs(1, 0);
    hide OrderOf;
  }

  lemma NoneOwn(smp: SmpAction, s: State)
    requires s.asks == ASKS
    ensures Strangers(OwnRules(smp), OrderOf(BuyAll(3, 5), 3), s.asks) && !OwnFirst(OwnRules(smp), s, OrderOf(BuyAll(3, 5), 3))
  {
    QueueIs();
    BuyIs(3, 5);
    hide OrderOf;
  }
}
