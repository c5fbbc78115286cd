/**
  Runs of the engine: the public operations as values, what a caller owes each of them, and the
  states a run starts from.
 */
module Runs {
  import opened Types
  import opened Queues
  import opened Levels
  import opened Tape
  import opened Ledger
  import opened EngineState
  import opened Steps
  import opened Trading
  import opened Progress
  import opened Lifecycle
  import opened Cancels
  import opened Busts
  import opened Implied
  import opened Policies
  import opened Crowds
  import opened Room
  import opened Restores

  /** The public operations.  `throttled` is the verdict of the rate tracker, `approved` that of the
      exchange's bust hook, `allowed` that of its session hook. */
  datatype Op =
    | New(req: Request, throttled: bool)
    | Cancel(id: nat, throttled: bool)
    | SweepOrders(sweep: Sweep, reason: CancelReason)
    | Modify(id: nat, price: int, quantity: int, ts: int, throttled: bool)
    | Bust(tradeId: nat, approved: bool)
    | Fills(legs: seq<Leg>)
    | Uncross(reference: int)
    | Enter(state: SessionState, allowed: bool)
    | Unlock
    | Restore(order: Order, now: int, approved: bool)

  /** Operations the order feed tells in full: a bust and an in-place amendment are not on it. */
  predicate Announced(r: Rules, op: Op) { !op.Bust? && (op.Modify? ==> r.amend == CancelReplace) }

  ghost predicate AllAnnounced(r: Rules, ops: seq<Op>) { forall i :: 0 <= i < |ops| ==> Announced(r, ops[i]) }

  /** Operations that neither ask for another session nor put orders on the book unmatched. */
  predicate Quiet(op: Op) { !op.Enter? && !op.Restore? }

  /** A run of such operations that starts in a matching session, with price limits and volatility
      interruption off. */
  ghost predicate StaysPut(r: Rules, s: State, ops: seq<Op>) {
    Calm(r, s) && !Collecting(s.session) && forall i :: 0 <= i < |ops| ==> Quiet(ops[i])
  }

  /** What the caller owes an operation. */
  ghost predicate Owed(r: Rules, s: State, op: Op) {
    match op
    case New(req, throttled) =>
      Rejection(r, s.session, s.lastTrade, s.nextId, s.freeOrders, s.ledger.positions, req, throttled).None? ==>
        RoomFor(r.policy, s, req)
    case Modify(id, price, quantity, _, throttled) =>
      ModifyRejection(r, s.session, s.live, id, price, quantity, throttled).None? ==>
        Modifiable(s, id, quantity) && RoomToReplace(r, s, id, price)
    case Restore(o, now, approved) => RestoreOwed(r, s, o, now, approved)
    case Bust(tradeId, _) => 0 < tradeId <= |s.ledger.trades| ==> Bustable(r.lim, s, tradeId - 1)
    case Fills(legs) => DistinctLegs(legs) && RestingLegs(s, legs)
    case _ => true
  }

  /** A restored order owes the engine that it is restorable, and room for it. */
  ghost predicate RestoreOwed(r: Rules, s: State, o: Order, now: int, approved: bool) {
    RestoreRejection(r, s.live, s.lastTrade, s.freeOrders, o, now, approved).None? ==>
      Restorable(s, o) && Crowd(s, o.side, o.price) < PerPrice(r.policy)
  }

  lemma RestoreSide(lim: Limits, s: State, side: Side)
    requires Inv(lim, s, multiset{})
    ensures WellFormed(side, s.Book(side))
  {
  }

  /** Whatever is asked of the order with an identifier is asked of the one the index finds. */
  lemma HeldAt(lim: Limits, s: State, at: Place, o: Order)
    requires Inv(lim, s, multiset{}) && Spot(ListAt(s, at), at.k, at.j)
    requires o.id == ListAt(s, at)[at.k].orders[at.j].id
    ensures Held(s, o) <==> o == ListAt(s, at)[at.k].orders[at.j]
  {
    hide Inv;
    var ls := ListAt(s, at);
    var x := ls[at.k].orders[at.j];
    assert ls[at.k] in ls && x in ls[at.k].orders && Listed(ls, x);
    if Held(s, o) { HeldUnique(lim, s, at, o); }
  }

  lemma ModifiableAt(r: Rules, s: State, at: Place, id: nat, price: int, quantity: int)
    requires Inv(r.lim, s, multiset{}) && Spot(ListAt(s, at), at.k, at.j) && ListAt(s, at)[at.k].orders[at.j].id == id
    ensures var x := ListAt(s, at)[at.k].orders[at.j];
      && (Modifiable(s, id, quantity) <==> x.kind == Limit && Replaceable(x, quantity))
      && (RoomToReplace(r, s, id, price) <==> x.price == price || Crowd(s, x.side, price) < PerPrice(r.policy))
  {
    hide Inv, Held, Crowd;
    var x := ListAt(s, at)[at.k].orders[at.j];
    HeldAt(r.lim, s, at, x);
    forall o | Held(s, o) && o.id == id ensures o == x { HeldAt(r.lim, s, at, o); }
  }

  /** A leg asks about one order only. */
  ghost predicate RestingLeg(s: State, leg: Leg) { forall o :: Held(s, o) && o.id == leg.id ==> o.kind == Limit }

  lemma RestingLegAt(lim: Limits, s: State, at: Place, leg: Leg)
    requires Inv(lim, s, multiset{}) && Spot(ListAt(s, at), at.k, at.j) && ListAt(s, at)[at.k].orders[at.j].id == leg.id
    ensures RestingLeg(s, leg) <==> ListAt(s, at)[at.k].orders[at.j].kind == Limit
  {
    hide Inv, Held;
    var x := ListAt(s, at)[at.k].orders[at.j];
    HeldAt(lim, s, at, x);
    forall o | Held(s, o) && o.id == leg.id ensures o == x { HeldAt(lim, s, at, o); }
  }

  lemma NobodyHeld(lim: Limits, s: State, id: nat)
    requires Shape(lim, s, multiset{}) && id !in s.live
    ensures forall o :: Held(s, o) ==> o.id != id
  {
    hide Held, Shape;
    forall o | Held(s, o) ensures o.id != id { HeldIsLive(lim, s, o); }
  }

  lemma NobodyModifiable(r: Rules, s: State, id: nat, price: int, quantity: int)
    requires forall o :: Held(s, o) ==> o.id != id
    ensures Modifiable(s, id, quantity) && RoomToReplace(r, s, id, price)
  {
  }

  lemma NobodyResting(lim: Limits, s: State, leg: Leg)
    requires Shape(lim, s, multiset{}) && leg.id !in s.live
    ensures RestingLeg(s, leg)
  {
    NobodyHeld(lim, s, leg.id);
  }

  lemma RestingEach(s: State, legs: seq<Leg>)
    ensures RestingLegs(s, legs) <==> forall i :: 0 <= i < |legs| ==> RestingLeg(s, legs[i])
  {
    hide Held;
  }

  // ---------------------------------------------------------------- sessions

  function EnterState(s: State, to: SessionState, allowed: bool): State {
    if to == s.session || !allowed then s
    else if to == Continuous && s.lastTrade > 0 then s.(session := to, viReference := s.lastTrade)
    else s.(session := to)
  }

  lemma EnterKeeps(lim: Limits, s: State, to: SessionState, allowed: bool)
    requires Inv(lim, s, multiset{})
    ensures Inv(lim, EnterState(s, to, allowed), multiset{})
    ensures MirrorsBook(s) ==> MirrorsBook(EnterState(s, to, allowed))
  {
    hide BookSide, StopSide, Bag, ReconciledSide, Showing, Balanced, Mirrors;
  }

  lemma UnlockKeeps(lim: Limits, s: State)
    requires Inv(lim, s, multiset{})
    ensures Inv(lim, Unlocked(s), multiset{})
    ensures (MirrorsBook(s) ==> MirrorsBook(Unlocked(s))) && (Uncrossed(s) ==> Uncrossed(Unlocked(s)))
  {
    hide BookSide, StopSide, Bag, ReconciledSide, Showing, Balanced, Mirrors;
  }

  lemma UnlockCalm(r: Rules, s: State)
    requires Calm(r, s)
    ensures Unlocked(s) == s
  {
  }

  lemma SameRoomy(policy: Policy, s: State, s': State)
    requires Roomy(policy, s)
    requires s'.bids == s.bids && s'.asks == s.asks && s'.buyStops == s.buyStops && s'.sellStops == s.sellStops
    ensures Roomy(policy, s')
  {
    forall side, p ensures Crowd(s', side, p) <= PerPrice(policy) {
      assert Crowd(s, side, p) <= PerPrice(policy);
    }
  }

  // ---------------------------------------------------------------- where runs start

  ghost predicate Initial(lim: Limits, s: State) {
    && s.bids == [] && s.asks == [] && s.buyStops == [] && s.sellStops == [] && s.live == {}
    && s.nextId == 1 && s.freeOrders == lim.maxOrders && s.freeLevels == lim.maxLevels
    && s.lastTrade == 0 && s.session == Continuous && s.viReference == 0
    && s.ledger.log == [] && s.ledger.trades == [] && s.feed == [] && s.cancels == []
    && |s.ledger.positions| == lim.maxAccounts && forall a :: 0 <= a < lim.maxAccounts ==> s.ledger.positions[a] == 0
  }

  lemma InitialInv(lim: Limits, s: State)
    requires Initial(lim, s)
    ensures Inv(lim, s, multiset{}) && MirrorsBook(s) && Uncrossed(s) && forall policy :: Roomy(policy, s)
  {
    assert Replay(s.feed) == [];
    assert AllIds(s) + multiset{} == multiset(s.live);
  }
}
