// The vocabulary shared by every component: instruments, bars, orders, fills, positions, signals.
module Domain {
  import opened Money

  datatype Option<+T> = None | Some(value: T)

  datatype Result<+T, +E> = Success(value: T) | Failure(error: E) {
    predicate IsFailure() {
      Failure?
    }

    function PropagateFailure<U>(): Result<U, E>
      requires Failure?
    {
      Failure(error)
    }

    function Extract(): T
      requires Success?
    {
      value
    }
  }

  newtype byte = b: int | 0 <= b < 256

  type Bytes = seq<byte>

  function Zeros(n: nat): (z: Bytes)
    ensures |z| == n
  {
    seq(n, _ => 0)
  }

  type Symbol = string

  /** Milliseconds since the epoch. */
  type Timestamp = int

  datatype Side = BUY | SELL
  datatype OrderType = MARKET | LIMIT | STOP | STOP_LIMIT
  datatype Product = CNC | MIS | NRML
  datatype TimeInForce = DAY | IOC
  datatype OrderStatus = PENDING_NEW | OPEN | PARTIALLY_FILLED | FILLED | CANCELLED | REJECTED
  datatype Direction = LONG | SHORT | FLAT

  /** Statuses an order never leaves. */
  predicate IsTerminal(s: OrderStatus) {
    s.FILLED? || s.CANCELLED? || s.REJECTED?
  }

  /**
   * What an order is for. The idempotency key is a hash of exactly these fields; the model
   * identifies the key with the fields, so equal keys mean equal intents.
   */
  datatype TradeIntent = TradeIntent(
    strategyId: string,
    symbol: Symbol,
    side: Side,
    quantity: int,
    decisionBar: Timestamp)

  type Key = TradeIntent

  /** Platform ids are derived from the key; venue ids are issued by the broker. */
  datatype Id = Platform(key: Key) | Venue(number: nat)

  datatype OrderRequest = OrderRequest(
    symbol: Symbol,
    side: Side,
    quantity: int,
    orderType: OrderType,
    product: Product,
    timeInForce: TimeInForce,
    limitPrice: Option<Paise>,
    triggerPrice: Option<Paise>,
    strategyId: string,
    idempotencyKey: Key)

  datatype Order = Order(
    id: Id,
    request: OrderRequest,
    status: OrderStatus,
    brokerOrderId: Option<Id>,
    filledQuantity: nat,
    averageFillPrice: Option<Paise>)

  datatype Fill = Fill(
    orderId: Id,
    brokerOrderId: Option<Id>,
    symbol: Symbol,
    side: Side,
    quantity: int,
    price: Paise,
    timestamp: Timestamp,
    commission: Paise)

  /** What a connector can answer a submission with. */
  datatype Reply = Ack(brokerOrderId: Id) | Refused(retryable: bool) | Uncertain

  /** Quantity with the sign of the position it builds. */
  function Signed(side: Side, quantity: int): int {
    if side.BUY? then quantity else -quantity
  }

  /** What a fill does to cash: the trade value moves against the position, commission leaves. */
  function CashFlow(fill: Fill): int {
    -(Signed(fill.side, fill.quantity) * fill.price) - fill.commission
  }

  /** Signed: positive is long, negative is short, zero is flat. */
  datatype Position = Position(
    symbol: Symbol,
    quantity: int,
    averagePrice: Paise,
    realisedPnl: Paise,
    lastPrice: Paise)

  datatype Signal = Signal(
    symbol: Symbol,
    strategyId: string,
    direction: Direction,
    strength: real,
    timestamp: Timestamp,
    referencePrice: Paise,
    stopLoss: Option<Paise>)

  datatype Interval = M1 | M5 | M15 | H1 | D1

  datatype Candle = Candle(
    symbol: Symbol,
    interval: Interval,
    timestamp: Timestamp,
    open: Paise,
    high: Paise,
    low: Paise,
    close: Paise,
    volume: int)

  /** No element occurs twice. */
  predicate Distinct<T(==)>(s: seq<T>) {
    forall i, j :: 0 <= i < j < |s| ==> s[i] != s[j]
  }
}
