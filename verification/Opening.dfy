/**
  Books entered order by order before the open, in an engine with no exchange rules of its own: the
  states on which promises are shown to fail are built here, so that they are ones an engine reaches.
 */
module Opening {
  import opened Types
  import opened Queues
  import opened Levels
  import opened Tape
  import opened Ledger
  import opened EngineState
  import opened Steps
  import opened Trading
  import opened Policies
  import opened Progress
  import opened Lifecycle
  import opened Runs

  function Plain(lim: Limits, policy: Policy): Rules {
    Rules(lim, policy, CancelNewest, 0, 0, 0, 0, 0, CancelReplace,
          (a, b) => false, (p, q) => false, p => (0, 0), q => true, t => true, (q, x) => true, false, a => 0, q => 0)
  }

  /** A limit order at 10. */
  function At10(side: Side, quantity: int, display: int): Request {
    Request(1, side, Limit, GTC, 10, quantity, 0, 0, 0, display, false)
  }

  /** A new engine, moved to PreOpen. */
  function BeforeOpen(lim: Limits): State {
    State([], [], [], [], {}, 1, lim.maxOrders, lim.maxLevels, 0, PreOpen, 0, Ledger([], [], seq(lim.maxAccounts, i => 0)), [], [])
  }

  /** An order accepted and booked in a collection phase. */
  function Entered(s: State, req: Request): State { Ended(AcceptedState(s), OrderOf(req, s.nextId), Booked) }

  lemma EnteredInv(r: Rules, s: State, req: Request)
    requires Inv(r.lim, s, multiset{}) && MirrorsBook(s) && req.kind == Limit && Admissible(r, s, req)
    ensures Inv(r.lim, Entered(s, req), multiset{}) && MirrorsBook(Entered(s, req))
  {
    hide Inv, MirrorsBook, InHand, OrderOf, Ended;
    var o := OrderOf(req, s.nextId);
    AcceptInv(r, s, req);
    AcceptAside(s);
    assert Bookable(o);
    EndedOnce(r.lim, AcceptedState(s), o, Booked);
  }

  lemma EmptyInv(r: Rules)
    ensures Inv(r.lim, BeforeOpen(r.lim), multiset{}) && MirrorsBook(BeforeOpen(r.lim))
  {
    hide Inv, MirrorsBook;
    var s := BeforeOpen(r.lim).(session := Continuous);
    InitialInv(r.lim, s);
    EnterKeeps(r.lim, s, PreOpen, true);
    assert EnterState(s, PreOpen, true) == BeforeOpen(r.lim);
  }

  /** What entering an order leaves alone. */
  lemma EnteredAside(s: State, req: Request)
    requires s.freeLevels > 0
    ensures var s' := Entered(s, req);
      && s'.nextId == s.nextId + 1 && s'.freeOrders == s.freeOrders - 1 && s'.Book(req.side.Opposite()) == s.Book(req.side.Opposite())
      && s'.session == s.session && s'.lastTrade == s.lastTrade && s'.ledger == s.ledger
  {
  }

  lemma FirstIn(side: Side, s: State, req: Request)
    requires s.Book(side) == [] && s.freeLevels > 0 && req.side == side && req.kind == Limit
    ensures Entered(s, req).Book(side) == [MkLevel(req.price, [OrderOf(req, s.nextId)])]
    ensures Entered(s, req).Book(side.Opposite()) == s.Book(side.Opposite())
    ensures var s' := Entered(s, req);
      s'.nextId == s.nextId + 1 && s'.freeOrders == s.freeOrders - 1 && s'.freeLevels == s.freeLevels - 1
      && s'.session == s.session && s'.lastTrade == s.lastTrade && s'.ledger == s.ledger
  {
    assert Slot(side, [], req.price) == 0;
  }

  /** A further order at the only price of a side queues behind the others. */
  lemma NextIn(side: Side, s: State, req: Request, q: seq<Order>)
    requires q != [] && s.Book(side) == [MkLevel(req.price, q)] && s.freeLevels > 0 && req.side == side && req.kind == Limit
    ensures Entered(s, req).Book(side) == [MkLevel(req.price, q + [OrderOf(req, s.nextId)])]
    ensures Entered(s, req).freeLevels == s.freeLevels
  {
    var ls := s.Book(side);
    assert Slot(side, ls, req.price) == 0;
    assert ls[0 := MkLevel(req.price, q + [OrderOf(req, s.nextId)])] == [MkLevel(req.price, q + [OrderOf(req, s.nextId)])];
  }
}
