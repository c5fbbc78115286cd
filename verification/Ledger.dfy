/**
  Executed trades: the registry that numbers them (exchange-core/trade_registry.h), the
  per-account net positions (exchange-core/position_tracker.h), and the trade bust that
  reverses one of them (exchange-core/matching_engine.h, bust_trade).
 */
module Ledger {
  import opened Types

  /** One executed trade, as announced and as recorded.  An implied fill has no
      counterparty: it names its one order on both sides. */
  datatype Trade = Trade(
    price: int, qty: int, aggressor: nat, resting: nat,
    side: Side, aggressorAccount: nat, restingAccount: nat)
  {
    predicate Implied() { aggressor == resting }
  }

  datatype TradeRecord = TradeRecord(trade: Trade, busted: bool)

  /** `log` is every trade ever announced.  Record i of the registry is trade id i + 1. */
  datatype Ledger = Ledger(log: seq<Trade>, trades: seq<TradeRecord>, positions: seq<int>) {
    predicate Busted(i: nat) { i < |trades| && trades[i].busted }
  }

  // ---------------------------------------------------------------- what the ledger means

  function Signed(side: Side, q: int): int { if side.Buy? then q else -q }

  /** What one trade is worth to an account's net position. */
  function Worth(p: Trade, account: nat): int {
    (if p.aggressorAccount == account then Signed(p.side, p.qty) else 0) +
    (if !p.Implied() && p.restingAccount == account then Signed(p.side.Opposite(), p.qty) else 0)
  }

  /** What one trade filled of an order. */
  function Part(p: Trade, id: nat): int { if p.aggressor == id || p.resting == id then p.qty else 0 }

  /** Signed sum of the first n trades still standing. */
  function NetTo(l: Ledger, account: nat, n: nat): int
    requires n <= |l.log|
  {
    if n == 0 then 0
    else NetTo(l, account, n - 1) + if l.Busted(n - 1) then 0 else Worth(l.log[n - 1], account)
  }

  function NetPosition(l: Ledger, account: nat): int { NetTo(l, account, |l.log|) }

  /** Quantity of the first n standing trades an order took part in. */
  function TradedTo(l: Ledger, id: nat, n: nat): int
    requires n <= |l.log|
  {
    if n == 0 then 0
    else TradedTo(l, id, n - 1) + if l.Busted(n - 1) then 0 else Part(l.log[n - 1], id)
  }

  function Traded(l: Ledger, id: nat): int { TradedTo(l, id, |l.log|) }

  predicate Tracked(account: nat, maxAccounts: nat) { 0 < account < maxAccounts }

  /** Record capacity: identifiers run from 1 to maxTrades - 1. */
  function Capacity(maxTrades: nat): nat { if maxTrades == 0 then 0 else maxTrades - 1 }

  /** The registry holds the first trades in order, as many as fit, and every tracked
      account's position is the signed sum of its standing trades. */
  ghost predicate Balanced(l: Ledger, maxAccounts: nat, maxTrades: nat) {
    && |l.positions| == maxAccounts
    && |l.trades| == Min(|l.log|, Capacity(maxTrades))
    && (forall i :: 0 <= i < |l.trades| ==> l.trades[i].trade == l.log[i])
    && (forall a: nat :: Tracked(a, maxAccounts) ==> l.positions[a] == NetPosition(l, a))
  }

  // ---------------------------------------------------------------- operations

  /** PositionTracker::update_fill. */
  method UpdateFill(positions: seq<int>, account: nat, side: Side, qty: int) returns (r: seq<int>)
    ensures r == Moved(positions, account, Signed(side, qty))
  {
    r := positions;
    if account == 0 || account >= |positions| { return; }
    if side == Buy {
      r := r[account := r[account] + qty];
    } else {
      r := r[account := r[account] - qty];
    }
  }

  /** PositionTracker::reverse_fill: the exact inverse of UpdateFill. */
  method ReverseFill(positions: seq<int>, account: nat, side: Side, qty: int) returns (r: seq<int>)
    ensures r == Moved(positions, account, -Signed(side, qty))
    ensures Moved(r, account, Signed(side, qty)) == positions
  {
    r := positions;
    if account == 0 || account >= |positions| { return; }
    if side == Buy {
      r := r[account := r[account] - qty];
    } else {
      r := r[account := r[account] + qty];
    }
  }

  function Moved(positions: seq<int>, account: nat, d: int): seq<int> {
    if Tracked(account, |positions|) then positions[account := positions[account] + d] else positions
  }

  /** TradeRegistry::record: the trade id assigned, or 0 when the registry is full. */
  method Record(trades: seq<TradeRecord>, p: Trade, maxTrades: nat) returns (r: seq<TradeRecord>, id: nat)
    requires |trades| <= Capacity(maxTrades)
    ensures id != 0 <==> |trades| < Capacity(maxTrades)
    ensures id != 0 ==> id == |trades| + 1 && r == trades + [TradeRecord(p, false)]
    ensures id == 0 ==> r == trades
  {
    var next := |trades| + 1;
    if next >= maxTrades {
      return trades, 0;
    }
    return trades + [TradeRecord(p, false)], next;
  }

  /** TradeRegistry::mark_busted. */
  method MarkBusted(trades: seq<TradeRecord>, id: nat) returns (r: seq<TradeRecord>, ok: bool)
    ensures ok <==> 0 < id <= |trades| && !trades[id - 1].busted
    ensures r == if ok then trades[id - 1 := trades[id - 1].(busted := true)] else trades
  {
    if id == 0 || id >= |trades| + 1 { return trades, false; }
    if trades[id - 1].busted { return trades, false; }
    return trades[id - 1 := trades[id - 1].(busted := true)], true;
  }

  /** The ledger after a trade: positions of both sides moved (of the one side, for an
      implied fill) and the trade recorded if the registry has room. */
  function Posted(l: Ledger, p: Trade, maxTrades: nat): Ledger {
    var pos := Moved(l.positions, p.aggressorAccount, Signed(p.side, p.qty));
    Ledger(
      l.log + [p],
      if |l.trades| < Capacity(maxTrades) then l.trades + [TradeRecord(p, false)] else l.trades,
      if p.Implied() then pos else Moved(pos, p.restingAccount, Signed(p.side.Opposite(), p.qty)))
  }

  /** The ledger after bust_trade on record i: both sides are reversed, always. */
  function BustedLedger(l: Ledger, i: nat): Ledger
    requires i < |l.trades|
  {
    var p := l.trades[i].trade;
    var pos := Moved(l.positions, p.aggressorAccount, -Signed(p.side, p.qty));
    l.(trades := l.trades[i := l.trades[i].(busted := true)],
       positions := Moved(pos, p.restingAccount, -Signed(p.side.Opposite(), p.qty)))
  }

  // ---------------------------------------------------------------- every run of trades and busts

  lemma {:induction false} NetFrame(l: Ledger, m: Ledger, account: nat, n: nat)
    requires n <= |l.log| && l.log <= m.log
    requires forall i: nat :: i < n ==> l.Busted(i) == m.Busted(i)
    ensures NetTo(m, account, n) == NetTo(l, account, n)
  {
    if n > 0 { NetFrame(l, m, account, n - 1); }
  }

  lemma {:induction false} TradedFrame(l: Ledger, m: Ledger, id: nat, n: nat)
    requires n <= |l.log| && l.log <= m.log
    requires forall i: nat :: i < n ==> l.Busted(i) == m.Busted(i)
    ensures TradedTo(m, id, n) == TradedTo(l, id, n)
  {
    if n > 0 { TradedFrame(l, m, id, n - 1); }
  }

  /** Posting a trade adds its worth to positions and its quantity to its two orders only. */
  lemma PostedAdds(l: Ledger, p: Trade, maxTrades: nat, account: nat, id: nat)
    requires |l.trades| <= |l.log|
    ensures NetPosition(Posted(l, p, maxTrades), account) == NetPosition(l, account) + Worth(p, account)
    ensures Traded(Posted(l, p, maxTrades), id) == Traded(l, id) + Part(p, id)
  {
    var m := Posted(l, p, maxTrades);
    NetFrame(l, m, account, |l.log|);
    TradedFrame(l, m, id, |l.log|);
  }

  lemma PostedBalanced(l: Ledger, p: Trade, maxAccounts: nat, maxTrades: nat)
    requires Balanced(l, maxAccounts, maxTrades)
    ensures Balanced(Posted(l, p, maxTrades), maxAccounts, maxTrades)
  {
    var m := Posted(l, p, maxTrades);
    forall a: nat | Tracked(a, maxAccounts) ensures m.positions[a] == NetPosition(m, a) {
      PostedAdds(l, p, maxTrades, a, 0);
    }
  }

  lemma {:induction false} BustNet(l: Ledger, i: nat, account: nat, n: nat)
    requires i < |l.trades| <= |l.log| && !l.trades[i].busted && n <= |l.log|
    ensures NetTo(BustedLedger(l, i), account, n) ==
      NetTo(l, account, n) - if i < n then Worth(l.log[i], account) else 0
  {
    if n > 0 { BustNet(l, i, account, n - 1); }
  }

  lemma {:induction false} BustTraded(l: Ledger, i: nat, id: nat, n: nat)
    requires i < |l.trades| <= |l.log| && !l.trades[i].busted && n <= |l.log|
    ensures TradedTo(BustedLedger(l, i), id, n) ==
      TradedTo(l, id, n) - if i < n then Part(l.log[i], id) else 0
  {
    if n > 0 { BustTraded(l, i, id, n - 1); }
  }

  /**
    A bust keeps the books exactly when the trade had a counterparty.  An implied fill of a
    tracked account moved one position and a bust reverses it on both sides, which cancel:
    the account is then off by the whole trade.  Only the resting side is reversed in vain.
   */
  lemma BustBalanced(l: Ledger, i: nat, maxAccounts: nat, maxTrades: nat)
    requires Balanced(l, maxAccounts, maxTrades) && i < |l.trades| && !l.trades[i].busted
    requires l.trades[i].trade.qty != 0
    ensures Balanced(BustedLedger(l, i), maxAccounts, maxTrades) <==>
      !(l.trades[i].trade.Implied() && Tracked(l.trades[i].trade.restingAccount, maxAccounts))
  {
    var m, p := BustedLedger(l, i), l.trades[i].trade;
    forall a: nat | Tracked(a, maxAccounts)
      ensures NetPosition(m, a) == l.positions[a] - Worth(p, a)
    {
      BustNet(l, i, a, |l.log|);
    }
    if p.Implied() && Tracked(p.restingAccount, maxAccounts) {
      var a := p.restingAccount;
      assert m.positions[a] != NetPosition(m, a);
    } else {
      forall a: nat | Tracked(a, maxAccounts) ensures m.positions[a] == NetPosition(m, a) {}
    }
  }

  /** A bust undoes the trade it busts: post then bust restores every position, and the
      trade stays on record but no longer stands. */
  lemma BustUndoesPost(l: Ledger, p: Trade, maxTrades: nat)
    requires |l.trades| < Capacity(maxTrades) && |l.trades| == |l.log| && !p.Implied()
    ensures BustedLedger(Posted(l, p, maxTrades), |l.trades|).positions == l.positions
    ensures BustedLedger(Posted(l, p, maxTrades), |l.trades|).Busted(|l.trades|)
  {
  }
}
