/**
  Entities of the exchange core (exchange-core/types.h): orders, price levels and
  fill results, with the enumerations the engine branches on.  Prices and
  quantities are unbounded integers.
 */
module Types {

  datatype Side = Buy | Sell {
    function Opposite(): Side { if Buy? then Sell else Buy }
  }

  datatype OrderType = Limit | Market | Stop | StopLimit

  datatype TimeInForce = DAY | GTC | IOC | FOK | GTD

  datatype SmpAction = CancelNewest | CancelOldest | CancelBoth | Decrement | NoAction

  datatype SessionState =
    | Closed | PreOpen | OpeningAuction | Continuous | PreClose
    | ClosingAuction | Halt | VolatilityAuction | LockLimit

  datatype ModifyPolicy = CancelReplace | AmendDown | RejectModify

  datatype CancelReason =
    | UserRequested | IOCRemainder | FOKFailed | Expired
    | SelfMatchPrevention | LevelPoolExhausted | MassCancelled

  /** An order.  `display > 0` marks an iceberg: `remaining` is then the visible
      tranche and `total` the whole size including the hidden part. */
  datatype Order = Order(
    id: nat, account: nat, side: Side, kind: OrderType, tif: TimeInForce,
    price: int, quantity: int, filled: int, remaining: int,
    timestamp: int, gtdExpiry: int, display: int, total: int,
    marketMaker: bool, topOrder: bool)
  {
    predicate HasHidden() { display > 0 && total > filled }

    /** The next tranche an exhausted iceberg shows. */
    function NextTranche(): int { Min(display, total - filled) }

    function Filled(q: int): Order { this.(filled := filled + q, remaining := remaining - q) }
  }

  /** A price level: a FIFO queue of orders with its cached aggregates. */
  datatype Level = Level(price: int, total: int, count: int, orders: seq<Order>)

  /** One entry of a matching policy's output.  `resting` identifies the order. */
  datatype Fill = Fill(resting: nat, price: int, quantity: int, restingRemaining: int)

  /** OrderRequest.  `display > 0` asks for an iceberg. */
  datatype Request = Request(
    account: nat, side: Side, kind: OrderType, tif: TimeInForce, price: int, quantity: int,
    stopPrice: int, timestamp: int, gtdExpiry: int, display: int, marketMaker: bool)
  {
    predicate IsStop() { kind == Stop || kind == StopLimit }

    predicate IsPriced() { kind == Limit || kind == StopLimit }
  }

  datatype RejectReason =
    | PoolExhausted | InvalidPrice | InvalidQuantity | InvalidTif | UnknownOrder | PriceBandViolation
    | MaxOrderSizeExceeded | LockLimitUp | LockLimitDown | ExchangeSpecific | RateThrottled | PositionLimitExceeded

  datatype Option<T> = None | Some(value: T)

  function Min(a: int, b: int): int { if a <= b then a else b }

  function Abs(a: int): int { if a < 0 then -a else a }

  /** `p` is a strictly better (earlier in the list) price than `q` on a list kept in the
      direction of `side`: bids descend, asks ascend. */
  predicate Better(side: Side, p: int, q: int) {
    if side.Buy? then p > q else p < q
  }
}
