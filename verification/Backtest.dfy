// The backtest, bar by bar: decide on a close, execute at the next open, take the adverse extreme first.
module Backtests {
  import opened Money
  import opened Domain
  import opened Portfolios
  import opened RiskEngines
  import Risk
  import Sizing
  import Oms
  import Ledgers
  import Pipelines
  import PB = PaperBrokers

  datatype Config = Config(
    openingCash: Paise,
    limits: Risk.Limits,
    broker: PB.Config,
    maxRetries: nat,
    lotSize: int,
    useTrailingStops: bool,
    trailingAtrMultiple: real)
  {
    predicate Valid() {
      broker.Valid() && lotSize >= 1 && openingCash >= 0
    }
  }

  datatype OpenRisk = OpenRisk(stop: Paise, direction: Direction)

  datatype Pending = Pending(
    symbol: Symbol,
    side: Side,
    quantity: int,
    strategyId: string,
    decisionBar: Timestamp,
    stop: Option<Paise>,
    direction: Direction)

  datatype Point = Point(timestamp: Timestamp, equity: Paise)

  /** An order as it was sent, and what was held when it was. */
  datatype Sent = Sent(held: int, request: OrderRequest)

  /** Everything the loop carries from bar to bar; `sent` is the history of its orders. */
  datatype Bt = Bt(
    desk: Ledgers.Desk,
    pending: Option<Pending>,
    openRisk: Option<OpenRisk>,
    peak: Paise,
    startOfDay: Paise,
    day: Option<int>,
    barsInMarket: nat,
    tradesSeen: nat,
    streak: Streak,
    curve: seq<Point>,
    signals: seq<Signal>,
    refused: seq<Signal>,
    vetoed: seq<Signal>,
    sent: seq<Sent>)
  {
    ghost predicate Valid() {
      desk.oms.Valid() && desk.book.Valid() && tradesSeen <= |desk.book.trades|
    }

    function Held(symbol: Symbol): int {
      desk.book.Quantity(symbol)
    }
  }

  /** Prices a broker can publish. */
  predicate Quotable(c: Candle) {
    c.open >= 0 && c.high >= 0 && c.low >= 0 && c.close >= 0
  }

  const STOP_ID := "risk-stop"

  /** The civil day in UTC, as a number. */
  function UtcDay(now: Timestamp): int {
    now / 86_400_000
  }

  ghost function Start(cfg: Config): (bt: Bt)
    ensures bt.Valid()
  {
    Bt(Ledgers.Open(cfg.openingCash), None, None, cfg.openingCash, cfg.openingCash, None, 0, 0, NO_LOSSES, [], [], [], [], [])
  }

  // ----- The exchange -----

  /** Publishing a price works the resting orders and delivers their executions. */
  ghost function Publish(cfg: Config, bt: Bt, symbol: Symbol, price: nat): (r: Bt)
    requires cfg.Valid() && bt.Valid()
    ensures r.Valid() && r == bt.(desk := r.desk)
  {
    var desk := Ledgers.Step(cfg.broker, cfg.maxRetries, bt.desk, Ledgers.Quoted(PB.Quote(symbol, price, None)));
    BookAllKeepsValid(bt.desk.book, Ledgers.Produced(cfg.broker, bt.desk.broker, PB.Quote(symbol, price, None)));
    bt.(desk := desk)
  }

  lemma {:induction false} BookAllKeepsValid(book: Book, fills: seq<Fill>)
    requires book.Valid()
    ensures Ledgers.BookAll(book, fills).Valid()
    ensures |book.trades| <= |Ledgers.BookAll(book, fills).trades|
  {
    hide Settle, CashFlow;
    if fills != [] {
      var last := fills[|fills| - 1];
      BookAllKeepsValid(book, fills[..|fills| - 1]);
      var before := Ledgers.BookAll(book, fills[..|fills| - 1]);
      if last.quantity > 0 {
        FillMovesOnePosition(Cost, before, last);
      }
    }
  }

  ghost function Send(cfg: Config, bt: Bt, request: OrderRequest, now: Timestamp): (r: Bt)
    requires cfg.Valid() && bt.Valid()
    ensures r.Valid()
  {
    var desk := Ledgers.Step(cfg.broker, cfg.maxRetries, bt.desk, Ledgers.Submit(request, now));
    SubmitKeepsValid(cfg, bt.desk, request, now);
    bt.(desk := desk, sent := bt.sent + [Sent(bt.Held(request.symbol), request)])
  }

  lemma SubmitKeepsValid(cfg: Config, d: Ledgers.Desk, request: OrderRequest, now: Timestamp)
    requires cfg.Valid() && d.oms.Valid()
    ensures Ledgers.Step(cfg.broker, cfg.maxRetries, d, Ledgers.Submit(request, now)).oms.Valid()
    ensures Ledgers.Step(cfg.broker, cfg.maxRetries, d, Ledgers.Submit(request, now)).book == d.book
  {
    hide Oms.Conclude, PB.Accept;
    if request.idempotencyKey !in d.oms.registry {
      Oms.StageKeepsValid(d.oms, request);
      Oms.ConcludeKeepsTable(Oms.Stage(d.oms, request), Oms.IdFor(request.idempotencyKey), cfg.maxRetries, 0,
                             PB.Accept(d.broker, request).1, now);
    }
  }

  /** A price the position is also marked at. */
  ghost function Touch(cfg: Config, bt: Bt, symbol: Symbol, price: nat): (r: Bt)
    requires cfg.Valid() && bt.Valid()
    ensures r.Valid() && r == bt.(desk := r.desk)
  {
    var published := Publish(cfg, bt, symbol, price);
    MarkKeepsCost(published.desk.book, symbol, price);
    published.(desk := published.desk.(book := Mark(published.desk.book, symbol, price)))
  }

  // ----- One bar -----

  ghost function BeginBar(bt: Bt, now: Timestamp): (r: Bt)
    requires bt.Valid()
    ensures r.Valid()
  {
    var clocked := bt.(desk := bt.desk.(broker := bt.desk.broker.(clock := now)));
    if bt.day == Some(UtcDay(now)) then clocked
    else clocked.(day := Some(UtcDay(now)), startOfDay := Equity(bt.desk.book))
  }

  function LotFloor(quantity: int, lotSize: int): int
    requires lotSize >= 1
  {
    quantity / lotSize * lotSize
  }

  ghost function SubmitPending(cfg: Config, bt: Bt, p: Pending, now: Timestamp): (r: Bt)
    requires cfg.Valid() && bt.Valid()
    ensures r.Valid()
  {
    var quantity := LotFloor(p.quantity, cfg.lotSize);
    if quantity <= 0 then bt
    else Send(cfg, bt, Pipelines.MarketOrder(p.strategyId, p.symbol, p.side, quantity, p.decisionBar), now)
  }

  /** The open: what the previous bar decided is sent and worked at this bar's first price. */
  ghost function OpenBar(cfg: Config, bt: Bt, symbol: Symbol, c: Candle): (r: Bt)
    requires cfg.Valid() && bt.Valid() && Quotable(c)
    ensures r.Valid()
  {
    var quoted := Publish(cfg, bt, symbol, c.open);
    if bt.pending.None? then quoted
    else
      var p := bt.pending.value;
      var worked := Publish(cfg, SubmitPending(cfg, quoted, p, c.timestamp), symbol, c.open);
      worked.(pending := None,
              openRisk := if !p.direction.FLAT? && p.stop.Some? then Some(OpenRisk(p.stop.value, p.direction)) else worked.openRisk)
  }

  /** A reached stop closes the whole position at the price that reached it. */
  ghost function EnforceStop(cfg: Config, bt: Bt, symbol: Symbol, price: nat, now: Timestamp): (r: Bt)
    requires cfg.Valid() && bt.Valid()
    ensures r.Valid()
  {
    var held := bt.Held(symbol);
    if bt.openRisk.None? || held == 0 then bt.(openRisk := None)
    else if !Sizing.IsStopTriggered(price, bt.openRisk.value.stop, bt.openRisk.value.direction) then bt
    else
      var request := Pipelines.MarketOrder(STOP_ID, symbol, if held > 0 then SELL else BUY, Abs(held), now);
      Publish(cfg, Send(cfg, bt, request, now), symbol, price).(openRisk := None)
  }

  /** One extreme of the bar. */
  ghost function Extreme(cfg: Config, bt: Bt, symbol: Symbol, price: nat, now: Timestamp): (r: Bt)
    requires cfg.Valid() && bt.Valid()
    ensures r.Valid()
  {
    EnforceStop(cfg, Touch(cfg, bt, symbol, price), symbol, price, now)
  }

  /** A short position meets the high before the low, any other the low before the high. */
  ghost function Extremes(cfg: Config, bt: Bt, symbol: Symbol, c: Candle): (r: Bt)
    requires cfg.Valid() && bt.Valid() && Quotable(c)
    ensures r.Valid()
  {
    var isShort := bt.Held(symbol) < 0;
    var first := Extreme(cfg, bt, symbol, if isShort then c.high else c.low, c.timestamp);
    Extreme(cfg, first, symbol, if isShort then c.low else c.high, c.timestamp)
  }

  function RecordTrades(limit: int, streak: Streak, trades: seq<ClosedTrade>): Streak {
    if trades == [] then streak
    else
      var last := trades[|trades| - 1];
      Recorded(limit, RecordTrades(limit, streak, trades[..|trades| - 1]), last.pnl, last.closedAt)
  }

  function TrailedStop(cfg: Config, r: OpenRisk, c: Candle): OpenRisk {
    var distance := RoundHalfUp(Max(1, c.high - c.low) as real * cfg.trailingAtrMultiple);
    var candidate := if r.direction.LONG? then c.close - distance else c.close + distance;
    r.(stop := Sizing.TrailStop(r.stop, candidate, r.direction))
  }

  /** The close: the equity point, the peak, the losing streak, and the stop's ratchet. */
  ghost function CloseBar(cfg: Config, bt: Bt, symbol: Symbol, c: Candle): (r: Bt)
    requires cfg.Valid() && bt.Valid() && Quotable(c)
    ensures r.Valid()
  {
    var closed := Touch(cfg, bt, symbol, c.close);
    var book := closed.desk.book;
    var equity := Equity(book);
    var held := closed.Held(symbol);
    closed.(
      streak := RecordTrades(cfg.limits.maxConsecutiveLosses, bt.streak, book.trades[bt.tradesSeen..]),
      tradesSeen := |book.trades|,
      peak := Max(bt.peak, equity),
      curve := bt.curve + [Point(c.timestamp, equity)],
      barsInMarket := if held != 0 then bt.barsInMarket + 1 else bt.barsInMarket,
      openRisk := if held == 0 then None
                  else if cfg.useTrailingStops && closed.openRisk.Some? then Some(TrailedStop(cfg, closed.openRisk.value, c))
                  else closed.openRisk)
  }

  /** A bar up to its close, before anything is decided. */
  ghost function WalkBar(cfg: Config, bt: Bt, symbol: Symbol, c: Candle): (r: Bt)
    requires cfg.Valid() && bt.Valid() && Quotable(c)
    ensures r.Valid()
  {
    CloseBar(cfg, Extremes(cfg, OpenBar(cfg, BeginBar(bt, c.timestamp), symbol, c), symbol, c), symbol, c)
  }

  // ----- Deciding -----

  function PositionOf(book: Book, symbol: Symbol): Option<Position> {
    if symbol in book.positions then Some(book.positions[symbol]) else None
  }

  function SizingInput(cfg: Config, bt: Bt, signal: Signal): Sizing.Input
    requires bt.desk.book.Valid() && signal.stopLoss.Some?
  {
    Sizing.Input(Equity(bt.desk.book), signal.referencePrice, signal.stopLoss.value,
                 cfg.limits.riskPerTradeFraction * (if signal.strength > 0.25 then signal.strength else 0.25),
                 cfg.limits.maxPositionFraction, bt.desk.book.cash, cfg.lotSize, 1.0)
  }

  function AccountOf(bt: Bt): Risk.Account
    requires bt.desk.book.Valid()
  {
    var equity := Equity(bt.desk.book);
    Risk.Account(equity, bt.desk.book.cash, bt.startOfDay, bt.peak,
                 OpenPositions(bt.desk.book.symbols, bt.desk.book.positions), equity - bt.startOfDay,
                 bt.streak.losses, bt.desk.oms.submissions, map[], map[])
  }

  /** The order a signal leads to at the next open; a sizing failure ends the run. */
  function PlanOrder(cfg: Config, bt: Bt, symbol: Symbol, signal: Signal, now: Timestamp): Result<Option<Pending>, Sizing.SizingError>
    requires bt.desk.book.Valid()
  {
    var held := bt.Held(symbol);
    if signal.direction.FLAT? then
      if held == 0 then Success(None)
      else Success(Some(Pending(symbol, if held > 0 then SELL else BUY, Abs(held), signal.strategyId, signal.timestamp, None, FLAT)))
    else if held != 0 || signal.stopLoss.None? then Success(None)
    else
      var sizing := Sizing.SizePosition(SizingInput(cfg, bt, signal));
      if sizing.Failure? then Failure(sizing.error)
      else if sizing.value.quantity <= 0 then Success(None)
      else
        var side := if signal.direction.LONG? then BUY else SELL;
        var request := Pipelines.MarketOrder(signal.strategyId, symbol, side, sizing.value.quantity, signal.timestamp);
        var decision := Risk.Evaluated(cfg.limits, false,
          Risk.Context(request, signal.referencePrice, signal.stopLoss, now, true, false), AccountOf(bt));
        if !decision.approved then Success(None)
        else
          Success(Some(Pending(symbol, side, decision.approvedQuantity, signal.strategyId, signal.timestamp,
                               signal.stopLoss, signal.direction)))
  }

  /** Looking at the account cools the streak and forgets old submissions. */
  function Looked(cfg: Config, bt: Bt, now: Timestamp): (r: Bt)
    ensures r == bt.(streak := r.streak, desk := r.desk) && r.desk == bt.desk.(oms := r.desk.oms)
    ensures r.desk.oms == bt.desk.oms.(submissions := r.desk.oms.submissions)
  {
    bt.(streak := Cooled(cfg.limits.consecutiveLossCooldownMs, bt.streak, now),
        desk := bt.desk.(oms := bt.desk.oms.(submissions := Oms.Recent(bt.desk.oms.submissions, now))))
  }

  /** What the collaborators say at a close: the strategy's signal, and whether the model allows it. */
  datatype Advice = Advice(signal: Option<Signal>, allowed: bool)

  function Decide(cfg: Config, bt: Bt, symbol: Symbol, advice: Advice, now: Timestamp): Result<Bt, Sizing.SizingError>
    requires bt.desk.book.Valid()
  {
    if advice.signal.None? then Success(bt)
    else
      var signal := advice.signal.value;
      var heard := bt.(signals := bt.signals + [signal]);
      if !advice.allowed then Success(heard.(vetoed := heard.vetoed + [signal]))
      else
        var looked := Looked(cfg, heard, now);
        var plan := PlanOrder(cfg, looked, symbol, signal, now);
        if plan.Failure? then Failure(plan.error)
        else Success(looked.(pending := plan.value,
                             refused := if Refused(looked, symbol, signal, plan.value) then looked.refused + [signal] else looked.refused))
  }

  /** An entry that was wanted and possible, and still came to nothing. */
  predicate Refused(bt: Bt, symbol: Symbol, signal: Signal, plan: Option<Pending>) {
    plan.None? && !signal.direction.FLAT? && bt.Held(symbol) == 0 && signal.stopLoss.Some?
  }

  // ----- Whole runs -----

  datatype Context = Context(symbol: Symbol, candles: seq<Candle>, index: nat, position: Option<Position>, now: Timestamp, minutesToClose: int)

  /** Indicators are prepared once for the whole series, then consulted bar by bar. */
  datatype Strategy<!P> = Strategy(prepare: seq<Candle> -> P, evaluate: (Context, P) -> Option<Signal>)

  type Gate = (Signal, seq<Candle>, nat) -> bool

  function AdviceAt<P>(strategy: Strategy<P>, gate: Gate, candles: seq<Candle>, symbol: Symbol, i: nat, position: Option<Position>): Advice
    requires i < |candles|
  {
    var signal := strategy.evaluate(Context(symbol, candles, i, position, candles[i].timestamp, 0), strategy.prepare(candles));
    Advice(signal, signal.Some? && gate(signal.value, candles, i))
  }

  lemma DecideKeepsValid(cfg: Config, bt: Bt, symbol: Symbol, advice: Advice, now: Timestamp)
    requires bt.Valid()
    ensures var r := Decide(cfg, bt, symbol, advice, now); r.Success? ==> r.value.Valid() && r.value.desk.book == bt.desk.book
  {
    hide PlanOrder, Oms.Recent;
  }

  /** One bar of a run: the last one decides nothing. */
  ghost function Bar(cfg: Config, bt: Bt, symbol: Symbol, c: Candle, last: bool, advise: Option<Position> -> Advice): (r: Result<Bt, Sizing.SizingError>)
    requires cfg.Valid() && bt.Valid() && Quotable(c)
    ensures r.Success? ==> r.value.Valid()
  {
    var walked := WalkBar(cfg, bt, symbol, c);
    if last then Success(walked)
    else
      var advice := advise(PositionOf(walked.desk.book, symbol));
      DecideKeepsValid(cfg, walked, symbol, advice, c.timestamp);
      Decide(cfg, walked, symbol, advice, c.timestamp)
  }

  predicate AllQuotable(candles: seq<Candle>) {
    forall i :: 0 <= i < |candles| ==> Quotable(candles[i])
  }

  function Advisor<P>(strategy: Strategy<P>, gate: Gate, candles: seq<Candle>, symbol: Symbol, i: nat): Option<Position> -> Advice
    requires i < |candles|
  {
    position => AdviceAt(strategy, gate, candles, symbol, i, position)
  }

  /** The state after the first `n` bars, or the sizing failure that ended the run. */
  ghost function Run<P>(cfg: Config, strategy: Strategy<P>, gate: Gate, candles: seq<Candle>, n: nat): (r: Result<Bt, Sizing.SizingError>)
    requires cfg.Valid() && candles != [] && AllQuotable(candles) && n <= |candles|
    ensures r.Success? ==> r.value.Valid()
  {
    if n == 0 then Success(Start(cfg))
    else
      var before := Run(cfg, strategy, gate, candles, n - 1);
      if before.Failure? then before
      else
        var symbol := candles[0].symbol;
        Bar(cfg, before.value, symbol, candles[n - 1], n == |candles|, Advisor(strategy, gate, candles, symbol, n - 1))
  }
}
