// What every bar of a backtest executes, when, and at what price; and what the equity curve is made of.
module BacktestExecutions {
  import opened Money
  import opened Domain
  import opened Portfolios
  import opened Backtests
  import opened BacktestRuns
  import Oms
  import Ledgers
  import Pipelines
  import Sizing
  import PB = PaperBrokers
  import Runs = PaperBrokerRuns

  // ----- One order, sent and executed -----

  /** An order filled whole by one execution, at a slipped price, on record and nothing else changed. */
  ghost predicate FilledAt(fraction: real, before: PB.State, after: PB.State, request: OrderRequest, price: Paise, f: Fill) {
    && after.fills == before.fills + [f]
    && f.symbol == request.symbol && f.side == request.side && f.quantity == request.quantity
    && f.timestamp == before.clock
    && PB.Slipped(fraction, f.side, price, f.price)
    && after.clock == before.clock
    && f.orderId !in before.completed
    && f.orderId in after.completed && after.completed[f.orderId].request == request
    && (forall id :: id in before.completed ==> id in after.completed && after.completed[id] == before.completed[id])
  }

  lemma MarketOrderExecutes(cfg: PB.Config, clock: Timestamp, o: Order, price: nat)
    requires cfg.Valid() && IsMarket(o.request) && o.filledQuantity == 0
    ensures var w := PB.WorkOrder(cfg, clock, o, PB.Quote(o.request.symbol, price, None));
      && !w.rests && w.fill.Some? && w.order.id == o.id && w.order.request == o.request
      && w.fill.value.orderId == o.id && w.fill.value.symbol == o.request.symbol && w.fill.value.side == o.request.side
      && w.fill.value.quantity == o.request.quantity && w.fill.value.timestamp == clock
      && PB.Slipped(cfg.slippage, o.request.side, price, w.fill.value.price)
  {
    hide PB.ApplySlippage, PB.Turnover, PB.Slipped;
  }

  lemma OneOrderDone(cfg: PB.Config, clock: Timestamp, o: Order, quote: PB.Quote)
    requires cfg.Valid() && !PB.WorkOrder(cfg, clock, o, quote).rests && PB.WorkOrder(cfg, clock, o, quote).fill.Some?
    ensures PB.WorkQueue(cfg, clock, [o], quote) ==
            PB.Pass([], [PB.WorkOrder(cfg, clock, o, quote).order], [PB.WorkOrder(cfg, clock, o, quote).fill.value])
  {
    hide PB.WorkOrder;
    Ledgers.OneOrderQueue(cfg, clock, o, quote);
  }

  /** A venue's next number has not been used. */
  lemma NextIsUnused(b: PB.State, opening: Paise)
    requires Runs.Sound(b, opening)
    ensures Venue(b.sequence + 1) !in b.completed
  {
    hide Runs.MatchesFills, PB.CashFlows, Runs.Rests, Runs.Registered;
    forall id | id in b.completed
      ensures id != Venue(b.sequence + 1)
    {
      assert Runs.Done(b, id);
    }
  }

  lemma PublishOne(cfg: PB.Config, b: PB.State, o: Order, price: nat)
    requires cfg.Valid() && b.resting == [o] && IsMarket(o.request) && o.filledQuantity == 0 && o.id !in b.completed
    ensures var quote := PB.Quote(o.request.symbol, price, None);
      var w := PB.WorkOrder(cfg, b.clock, o, quote);
      w.fill.Some? && FilledAt(cfg.slippage, b, PB.Publish(cfg, b, quote), o.request, price, w.fill.value)
  {
    hide PB.WorkOrder, PB.CashFlows, PB.WorkQueue, PB.Slipped, IsMarket;
    var quote := PB.Quote(o.request.symbol, price, None);
    MarketOrderExecutes(cfg, b.clock, o, price);
    OneOrderDone(cfg, b.clock, o, quote);
    Ledgers.LastArchived(b.completed, PB.WorkOrder(cfg, b.clock, o, quote).order);
  }

  /** A new market order, sent and worked at a price, is executed there. */
  lemma SentExecutes(cfg: Config, bt: Bt, opening: Paise, request: OrderRequest, now: Timestamp, price: nat) returns (f: Fill)
    requires cfg.Valid() && bt.Valid() && Quiet(bt.desk, opening)
    requires IsMarket(request) && request.idempotencyKey !in bt.desk.oms.registry
    ensures FilledAt(cfg.broker.slippage, bt.desk.broker, Publish(cfg, Send(cfg, bt, request, now), request.symbol,
        price).desk.broker,
                     request, price, f)
  {
    hide Ledgers.Balanced, Oms.Submitted, Oms.State.Valid, PB.WorkQueue, PB.WorkOrder, Booked, IsMarket, PB.Slipped, PB.Publish;
    var d := bt.desk;
    var quote := PB.Quote(request.symbol, price, None);
    Ledgers.NewKeyIsFresh(d, opening, request.idempotencyKey);
    Ledgers.SubmissionPlaces(d.oms, d.broker, request, cfg.maxRetries, now);
    AcceptedAlone(d, opening, request);
    QuietIsSound(d, opening);
    NextIsUnused(d.broker, opening);
    var sent := Send(cfg, bt, request, now).desk.broker;
    var o := sent.resting[0];
    PublishOne(cfg.broker, sent, o, price);
    f := PB.WorkOrder(cfg.broker, sent.clock, o, quote).fill.value;
  }

  lemma QuietIsSound(d: Ledgers.Desk, opening: Paise)
    requires Quiet(d, opening)
    ensures Runs.Sound(d.broker, opening)
  {
  }

  // ----- The stages of a bar -----

  /** The pending order is sent at all: there is one, of at least a lot, whose key is new. */
  predicate Opens(cfg: Config, bt: Bt)
    requires cfg.Valid()
  {
    && bt.pending.Some?
    && var p := bt.pending.value;
       var quantity := LotFloor(p.quantity, cfg.lotSize);
       && quantity > 0
       && TradeIntent(p.strategyId, p.symbol, p.side, quantity, p.decisionBar) !in bt.desk.oms.registry
  }

  /** The order it is sent as. */
  function PendingOrder(cfg: Config, p: Pending): OrderRequest
    requires cfg.Valid()
  {
    Pipelines.MarketOrder(p.strategyId, p.symbol, p.side, LotFloor(p.quantity, cfg.lotSize), p.decisionBar)
  }

  /** Nothing is executed, or one order is. */
  ghost predicate Adds(fraction: real, before: PB.State, after: PB.State, executes: bool, request: OrderRequest, price: Paise) {
    if executes then exists f :: FilledAt(fraction, before, after, request, price, f) else after == before
  }

  lemma OpenAdds(cfg: Config, bt: Bt, opening: Paise, symbol: Symbol, c: Candle, t: Timestamp)
    requires cfg.Valid() && Quotable(c) && Between(cfg, bt, opening, symbol, t)
    ensures var after := OpenBar(cfg, bt, symbol, c).desk.broker;
      if Opens(cfg, bt) then Adds(cfg.broker.slippage, bt.desk.broker, after, true, PendingOrder(cfg, bt.pending.value), c.open)
      else after == bt.desk.broker
  {
    hide Ledgers.Balanced, Oms.State.Valid, StopKeysUpTo, AllOpenOrFlatten, WholeLots, Publish, Send, FilledAt, LotFloor, Quiet;
    QuietPublishChangesNothing(cfg, bt, opening, symbol, c.open);
    if bt.pending.Some? {
      var p := bt.pending.value;
      var quantity := LotFloor(p.quantity, cfg.lotSize);
      if quantity > 0 {
        var request := PendingOrder(cfg, p);
        SendShape(cfg, bt, request, c.timestamp);
        if request.idempotencyKey in bt.desk.oms.registry {
          DuplicateChangesNothing(cfg, bt, request, c.timestamp);
          QuietPublishChangesNothing(cfg, Send(cfg, bt, request, c.timestamp), opening, symbol, c.open);
        } else {
          var f := SentExecutes(cfg, bt, opening, request, c.timestamp, c.open);
        }
      }
    }
  }

  lemma TouchAdds(cfg: Config, bt: Bt, opening: Paise, symbol: Symbol, price: nat)
    requires cfg.Valid() && Inside(cfg, bt, opening, symbol)
    ensures Touch(cfg, bt, symbol, price).desk.broker == bt.desk.broker
  {
    hide Ledgers.Balanced, Oms.State.Valid, AllOpenOrFlatten, WholeLots, Publish, Guarded, Quiet;
    QuietPublishChangesNothing(cfg, bt, opening, symbol, price);
  }

  /** The order that closes a position at its stop. */
  function StopOrder(symbol: Symbol, held: int, now: Timestamp): OrderRequest {
    Pipelines.MarketOrder(STOP_ID, symbol, if held > 0 then SELL else BUY, Abs(held), now)
  }

  /** A price reaches the stop of what is held. */
  predicate Reaches(held: int, openRisk: Option<OpenRisk>, price: Paise) {
    held != 0 && openRisk.Some? && if openRisk.value.direction.LONG? then price <= openRisk.value.stop else price >= openRisk.value.stop
  }

  lemma EnforceAdds(cfg: Config, bt: Bt, opening: Paise, symbol: Symbol, price: nat, now: Timestamp, t: Timestamp)
    requires cfg.Valid() && Inside(cfg, bt, opening, symbol) && t < now
    requires StopKeysUpTo(bt.desk.oms.registry.Keys, if bt.openRisk.Some? then t else now)
    ensures var held := bt.Held(symbol);
      Adds(cfg.broker.slippage, bt.desk.broker, EnforceStop(cfg, bt, symbol, price, now).desk.broker,
           Reaches(held, bt.openRisk, price), StopOrder(symbol, held, now), price)
  {
    hide Ledgers.Balanced, Oms.State.Valid, StopKeysUpTo, AllOpenOrFlatten, WholeLots, Publish, Send, Quiet, FilledAt;
    var held := bt.Held(symbol);
    if Reaches(held, bt.openRisk, price) {
      var request := StopOrder(symbol, held, now);
      StopOrderIsNew(bt.desk.oms.registry.Keys, t, now, request);
      var f := SentExecutes(cfg, bt, opening, request, now, price);
    }
  }

  lemma ExtremeAdds(cfg: Config, bt: Bt, opening: Paise, symbol: Symbol, price: nat, now: Timestamp, t: Timestamp)
    requires cfg.Valid() && Inside(cfg, bt, opening, symbol) && t < now
    requires StopKeysUpTo(bt.desk.oms.registry.Keys, if bt.openRisk.Some? then t else now)
    ensures bt.Valid()
    ensures Adds(cfg.broker.slippage, bt.desk.broker, Extreme(cfg, bt, symbol, price, now).desk.broker,
                 Reaches(bt.Held(symbol), bt.openRisk, price), StopOrder(symbol, bt.Held(symbol), now), price)
  {
    hide Inside, StopKeysUpTo, Touch, EnforceStop, Reaches, Bt.Valid, Adds;
    InsideIsValid(cfg, bt, opening, symbol);
    TouchStage(cfg, bt, opening, symbol, price);
    TouchAdds(cfg, bt, opening, symbol, price);
    InsideIsValid(cfg, Touch(cfg, bt, symbol, price), opening, symbol);
    EnforceAdds(cfg, Touch(cfg, bt, symbol, price), opening, symbol, price, now, t);
  }

  /** The extreme that hurts what is held. */
  function Adverse(held: int, c: Candle): Paise {
    if held < 0 then c.high else c.low
  }

  function Favourable(held: int, c: Candle): Paise {
    if held < 0 then c.low else c.high
  }

  /** A stop is met at the adverse extreme if that reaches it, else at the other. */
  function StopPrice(held: int, openRisk: Option<OpenRisk>, c: Candle): Paise {
    if Reaches(held, openRisk, Adverse(held, c)) then Adverse(held, c) else Favourable(held, c)
  }

  predicate Stops(held: int, openRisk: Option<OpenRisk>, c: Candle) {
    Reaches(held, openRisk, c.low) || Reaches(held, openRisk, c.high)
  }

  lemma ExtremesAdd(cfg: Config, bt: Bt, opening: Paise, symbol: Symbol, c: Candle, t: Timestamp)
    requires cfg.Valid() && Quotable(c) && Inside(cfg, bt, opening, symbol) && t < c.timestamp
    requires StopKeysUpTo(bt.desk.oms.registry.Keys, t)
    ensures bt.Valid()
    ensures var held := bt.Held(symbol);
      Adds(cfg.broker.slippage, bt.desk.broker, Extremes(cfg, bt, symbol, c).desk.broker,
           Stops(held, bt.openRisk, c), StopOrder(symbol, held, c.timestamp), StopPrice(held, bt.openRisk, c))
  {
    hide Inside, StopKeysUpTo, Extreme, Bt.Valid, Adds;
    InsideIsValid(cfg, bt, opening, symbol);
    StopKeysLater(bt.desk.oms.registry.Keys, t, c.timestamp);
    var held, now := bt.Held(symbol), c.timestamp;
    var p, q := Adverse(held, c), Favourable(held, c);
    var first := Extreme(cfg, bt, symbol, p, now);
    ExtremeStage(cfg, bt, opening, symbol, p, now, t);
    ExtremeAdds(cfg, bt, opening, symbol, p, now, t);
    InsideIsValid(cfg, first, opening, symbol);
    ExtremeAdds(cfg, first, opening, symbol, q, now, t);
    UnreachedIsUntouched(cfg, bt, opening, symbol, p, now, t);
    AddsNothing(cfg.broker.slippage, bt.desk.broker, first.desk.broker, StopOrder(symbol, held, now), p);
    AddsNothing(cfg.broker.slippage, first.desk.broker, Extreme(cfg, first, symbol, q, now).desk.broker,
                StopOrder(symbol, first.Held(symbol), now), q);
  }

  lemma AddsNothing(fraction: real, before: PB.State, after: PB.State, request: OrderRequest, price: Paise)
    ensures Adds(fraction, before, after, false, request, price) <==> after == before
  {
  }

  /** Where no stop is reached the position and its stop are as they were, and where one is they are gone. */
  lemma UnreachedIsUntouched(cfg: Config, bt: Bt, opening: Paise, symbol: Symbol, price: nat, now: Timestamp, t: Timestamp)
    requires cfg.Valid() && Inside(cfg, bt, opening, symbol) && t < now
    requires StopKeysUpTo(bt.desk.oms.registry.Keys, if bt.openRisk.Some? then t else now)
    ensures bt.Valid()
    ensures var r := Extreme(cfg, bt, symbol, price, now);
      if Reaches(bt.Held(symbol), bt.openRisk, price) then r.Held(symbol) == 0 || r.openRisk.None?
      else r.Held(symbol) == bt.Held(symbol) && (bt.Held(symbol) != 0 ==> r.openRisk == bt.openRisk)
  {
    hide Inside, StopKeysUpTo, Touch, Bt.Valid, Publish, Send;
    InsideIsValid(cfg, bt, opening, symbol);
    TouchStage(cfg, bt, opening, symbol, price);
    InsideIsValid(cfg, Touch(cfg, bt, symbol, price), opening, symbol);
    InsideIsGuarded(cfg, bt, opening, symbol);
  }

  // ----- A whole bar -----

  /** What is held once the pending order has been worked. */
  function HeldAtOpen(cfg: Config, bt: Bt, symbol: Symbol): int
    requires cfg.Valid()
  {
    bt.Held(symbol) + if Opens(cfg, bt) then Signed(bt.pending.value.side, LotFloor(bt.pending.value.quantity,
        cfg.lotSize)) else 0
  }

  lemma OpenHolds(cfg: Config, bt: Bt, opening: Paise, symbol: Symbol, c: Candle, t: Timestamp)
    requires cfg.Valid() && Quotable(c) && Between(cfg, bt, opening, symbol, t)
    ensures bt.Valid() && OpenBar(cfg, bt, symbol, c).Held(symbol) == HeldAtOpen(cfg, bt, symbol)
  {
    hide Ledgers.Balanced, Oms.State.Valid, StopKeysUpTo, AllOpenOrFlatten, WholeLots, Publish, Send, LotFloor, Quiet, Signed;
    QuietPublishChangesNothing(cfg, bt, opening, symbol, c.open);
    if bt.pending.Some? {
      var p := bt.pending.value;
      var quantity := LotFloor(p.quantity, cfg.lotSize);
      if quantity > 0 {
        var request := PendingOrder(cfg, p);
        SendShape(cfg, bt, request, c.timestamp);
        if request.idempotencyKey in bt.desk.oms.registry {
          DuplicateChangesNothing(cfg, bt, request, c.timestamp);
          QuietPublishChangesNothing(cfg, Send(cfg, bt, request, c.timestamp), opening, symbol, c.open);
        } else {
          SentIsFilled(cfg, bt, opening, request, c.timestamp, c.open);
        }
      }
    }
  }

  /** The exchange once the bar has opened: the order decided on the bar before, executed at the open. */
  ghost predicate Opened(cfg: Config, before: Bt, c: Candle, b: PB.State)
    requires cfg.Valid()
  {
    var start := before.desk.broker.(clock := c.timestamp);
    if Opens(cfg, before) then Adds(cfg.broker.slippage, start, b, true, PendingOrder(cfg, before.pending.value), c.open)
    else b == start
  }

  /** The exchange once the bar has run: the stop that was ahead, executed where an extreme reached it. */
  ghost predicate Stopped(cfg: Config, before: Bt, symbol: Symbol, c: Candle, b: PB.State, after: PB.State)
    requires cfg.Valid()
  {
    var held, ahead := HeldAtOpen(cfg, before, symbol), StopAhead(before);
    Adds(cfg.broker.slippage, b, after, Stops(held, ahead, c), StopOrder(symbol, held, c.timestamp), StopPrice(held, ahead, c))
  }

  ghost predicate BarExecutes(cfg: Config, before: Bt, after: Bt, symbol: Symbol, c: Candle)
    requires cfg.Valid()
  {
    exists b :: Opened(cfg, before, c, b) && Stopped(cfg, before, symbol, c, b, after.desk.broker)
  }

  lemma BeginExecutes(cfg: Config, bt: Bt, now: Timestamp, symbol: Symbol)
    requires cfg.Valid() && bt.Valid()
    ensures var begun := BeginBar(bt, now);
      && begun.desk.broker == bt.desk.broker.(clock := now)
      && Opens(cfg, begun) == Opens(cfg, bt) && begun.pending == bt.pending
      && HeldAtOpen(cfg, begun, symbol) == HeldAtOpen(cfg, bt, symbol) && StopAhead(begun) == StopAhead(bt)
  {
    hide Bt.Valid, LotFloor, Equity, Signed;
  }

  lemma CloseExecutesNothing(cfg: Config, bt: Bt, opening: Paise, symbol: Symbol, c: Candle)
    requires cfg.Valid() && Quotable(c) && Inside(cfg, bt, opening, symbol)
    ensures bt.Valid() && CloseBar(cfg, bt, symbol, c).desk.broker == bt.desk.broker
  {
    hide Inside, Touch, Bt.Valid, Equity, RecordTrades, TrailedStop;
    InsideIsValid(cfg, bt, opening, symbol);
    TouchAdds(cfg, bt, opening, symbol, c.close);
  }

  /** The exchange at the open of a bar, once what was pending has been worked. */
  ghost function AtOpen(cfg: Config, bt: Bt, symbol: Symbol, c: Candle): PB.State
    requires cfg.Valid() && bt.Valid() && Quotable(c)
  {
    OpenBar(cfg, BeginBar(bt, c.timestamp), symbol, c).desk.broker
  }

  lemma WalkExecutes(cfg: Config, bt: Bt, opening: Paise, symbol: Symbol, c: Candle, t: Timestamp)
    requires cfg.Valid() && Quotable(c) && Between(cfg, bt, opening, symbol, t) && t < c.timestamp
    ensures bt.Valid() && Opened(cfg, bt, c, AtOpen(cfg, bt, symbol, c))
    ensures Stopped(cfg, bt, symbol, c, AtOpen(cfg, bt, symbol, c), WalkBar(cfg, bt, symbol, c).desk.broker)
    ensures BarExecutes(cfg, bt, WalkBar(cfg, bt, symbol, c), symbol, c)
  {
    hide Inside, StopKeysUpTo, BeginBar, OpenBar, Extremes, CloseBar, Bt.Valid, PendingFits, Adds, Opens, HeldAtOpen,
        StopAhead, Stops, StopPrice;
    InsideIsValid(cfg, bt, opening, symbol);
    var begun := BeginBar(bt, c.timestamp);
    BeginStage(cfg, bt, opening, symbol, t, c.timestamp);
    InsideIsValid(cfg, begun, opening, symbol);
    BeginExecutes(cfg, bt, c.timestamp, symbol);
    var quoted := OpenBar(cfg, begun, symbol, c);
    OpenStage(cfg, begun, opening, symbol, c, t);
    OpenAdds(cfg, begun, opening, symbol, c, t);
    OpenHolds(cfg, begun, opening, symbol, c, t);
    InsideIsValid(cfg, quoted, opening, symbol);
    var passed := Extremes(cfg, quoted, symbol, c);
    ExtremesStage(cfg, quoted, opening, symbol, c, t);
    ExtremesAdd(cfg, quoted, opening, symbol, c, t);
    CloseExecutesNothing(cfg, passed, opening, symbol, c);
  }

  lemma BarExecutesAsWalked(cfg: Config, bt: Bt, symbol: Symbol, c: Candle, last: bool, advise: Option<Position> -> Advice)
    requires cfg.Valid() && bt.Valid() && Quotable(c)
    ensures var r := Bar(cfg, bt, symbol, c, last, advise);
      r.Success? ==> r.value.desk.broker == WalkBar(cfg, bt, symbol, c).desk.broker
  {
    hide WalkBar, PlanOrder, Bt.Valid;
  }

  // ----- Whole runs -----

  /**
   * Across any bar of any run the exchange executes the order decided on the bar before, whole, at
   * the bar's open, and the stop that was ahead, whole, at the extreme that reached it; and nothing else.
   */
  lemma BarsExecuteWhatWasDecided<P(!new)>(cfg: Config, strategy: Strategy<P>, gate: Gate, candles: seq<Candle>, n: nat)
    requires cfg.Valid() && candles != [] && AllQuotable(candles) && n < |candles|
    requires Increasing(candles) && WellNamed(strategy)
    ensures var before, after := Run(cfg, strategy, gate, candles, n), Run(cfg, strategy, gate, candles, n + 1);
      after.Success? ==> before.Success? && BarExecutes(cfg, before.value, after.value, candles[0].symbol, candles[n])
  {
    hide Inside, StopKeysUpTo, PendingFits, Bar, BarExecutes, Bt.Valid, WalkBar;
    var symbol := candles[0].symbol;
    EveryBarIsGuarded(cfg, strategy, gate, candles, n);
    var before := Run(cfg, strategy, gate, candles, n);
    if before.Success? {
      WalkExecutes(cfg, before.value, cfg.openingCash, symbol, candles[n],
                   if n == 0 then candles[0].timestamp - 1 else candles[n - 1].timestamp);
      BarExecutesAsWalked(cfg, before.value, symbol, candles[n], n + 1 == |candles|, Advisor(strategy, gate, candles,
          symbol, n));
      SameExecutions(cfg, before.value, WalkBar(cfg, before.value, symbol, candles[n]), symbol, candles[n]);
    }
  }

  lemma SameExecutions(cfg: Config, before: Bt, after: Bt, symbol: Symbol, c: Candle)
    requires cfg.Valid()
    ensures forall other: Bt :: other.desk.broker == after.desk.broker && BarExecutes(cfg, before, after, symbol, c) ==>
              BarExecutes(cfg, before, other, symbol, c)
  {
    hide Opened, Stopped;
  }

  // ----- One execution at a time -----

  /** An execution at a price that has reached a stop. */
  predicate StoppedOutAt(fraction: real, stop: Paise, price: Paise, f: Fill) {
    && PB.Slipped(fraction, f.side, price, f.price)
    && if f.side.SELL? then price <= stop else price >= stop
  }

  /** When a bar's execution happened and what it cost: the open, or the extreme that reached the stop. */
  ghost predicate FairExecution(fraction: real, after: PB.State, ahead: Option<OpenRisk>, c: Candle, f: Fill) {
    && f.timestamp == c.timestamp
    && f.orderId in after.completed
    && var request := after.completed[f.orderId].request;
       if request.strategyId != STOP_ID then PB.Slipped(fraction, f.side, c.open, f.price)
       else
         && ahead.Some?
         && (StoppedOutAt(fraction, ahead.value.stop, c.low, f) || StoppedOutAt(fraction, ahead.value.stop, c.high, f))
  }

  lemma AddsOne(fraction: real, before: PB.State, after: PB.State, executes: bool, request: OrderRequest, price: Paise)
    requires Adds(fraction, before, after, executes, request, price)
    ensures before.fills <= after.fills && |after.fills| == |before.fills| + if executes then 1 else 0
    ensures executes ==> FilledAt(fraction, before, after, request, price, after.fills[|before.fills|])
    ensures !executes ==> after == before
  {
    hide PB.Slipped;
  }

  /** What the two stages of a bar add, in order. */
  lemma StagesAdd(cfg: Config, before: Bt, symbol: Symbol, c: Candle, b: PB.State, after: PB.State)
    requires cfg.Valid() && Opened(cfg, before, c, b) && Stopped(cfg, before, symbol, c, b, after)
    ensures before.desk.broker.fills <= b.fills <= after.fills
    ensures |b.fills| == |before.desk.broker.fills| + if Opens(cfg, before) then 1 else 0
  {
    hide PB.Slipped, LotFloor, HeldAtOpen, StopAhead, Adds;
    var held, ahead := HeldAtOpen(cfg, before, symbol), StopAhead(before);
    if Opens(cfg, before) {
      AddsOne(cfg.broker.slippage, before.desk.broker.(clock := c.timestamp), b, true, PendingOrder(cfg,
          before.pending.value), c.open);
    }
    AddsOne(cfg.broker.slippage, b, after, Stops(held, ahead, c), StopOrder(symbol, held, c.timestamp), StopPrice(held,
        ahead, c));
  }

  lemma OpenedIsFair(cfg: Config, before: Bt, c: Candle, b: PB.State, ahead: Option<OpenRisk>)
    requires cfg.Valid() && Opened(cfg, before, c, b) && (before.pending.Some? ==> before.pending.value.strategyId != STOP_ID)
    ensures before.desk.broker.fills <= b.fills && b.clock == c.timestamp
    ensures forall i :: |before.desk.broker.fills| <= i < |b.fills| ==> FairExecution(cfg.broker.slippage, b, ahead, c,
        b.fills[i])
  {
    hide PB.Slipped, LotFloor, Adds;
    if Opens(cfg, before) {
      AddsOne(cfg.broker.slippage, before.desk.broker.(clock := c.timestamp), b, true, PendingOrder(cfg,
          before.pending.value), c.open);
    }
  }

  lemma StoppedIsFair(cfg: Config, before: Bt, symbol: Symbol, c: Candle, b: PB.State, after: PB.State)
    requires cfg.Valid() && Stopped(cfg, before, symbol, c, b, after) && b.clock == c.timestamp
    requires Guarded(HeldAtOpen(cfg, before, symbol), StopAhead(before))
    ensures b.fills <= after.fills
    ensures forall id :: id in b.completed ==> id in after.completed && after.completed[id] == b.completed[id]
    ensures forall i :: |b.fills| <= i < |after.fills| ==> FairExecution(cfg.broker.slippage, after, StopAhead(before),
        c, after.fills[i])
  {
    hide PB.Slipped, HeldAtOpen, StopAhead, Adds;
    var held, ahead := HeldAtOpen(cfg, before, symbol), StopAhead(before);
    AddsOne(cfg.broker.slippage, b, after, Stops(held, ahead, c), StopOrder(symbol, held, c.timestamp), StopPrice(held,
        ahead, c));
  }

  /** Every execution a bar adds is fair. */
  ghost predicate AddsFairly(fraction: real, before: PB.State, after: PB.State, ahead: Option<OpenRisk>, c: Candle) {
    && before.fills <= after.fills
    && forall i :: |before.fills| <= i < |after.fills| ==> FairExecution(fraction, after, ahead, c, after.fills[i])
  }

  lemma BothAreFair(fraction: real, start: PB.State, b: PB.State, after: PB.State, ahead: Option<OpenRisk>, c: Candle)
    requires AddsFairly(fraction, start, b, ahead, c) && AddsFairly(fraction, b, after, ahead, c)
    requires forall id :: id in b.completed ==> id in after.completed && after.completed[id] == b.completed[id]
    ensures AddsFairly(fraction, start, after, ahead, c)
  {
    hide StoppedOutAt, PB.Slipped;
    forall i | |start.fills| <= i < |after.fills|
      ensures FairExecution(fraction, after, ahead, c, after.fills[i])
    {
      if i < |b.fills| {
        assert after.fills[i] == b.fills[i];
        assert FairExecution(fraction, b, ahead, c, b.fills[i]);
      }
    }
  }

  /** What is held at the open has the stop ahead on its side. */
  lemma OpenIsGuarded(cfg: Config, bt: Bt, opening: Paise, symbol: Symbol, c: Candle, t: Timestamp)
    requires cfg.Valid() && Quotable(c) && Between(cfg, bt, opening, symbol, t)
    ensures Guarded(HeldAtOpen(cfg, bt, symbol), StopAhead(bt))
  {
    hide Inside, StopKeysUpTo, OpenBar, Bt.Valid, PendingFits, Opens, HeldAtOpen, StopAhead, Guarded;
    InsideIsValid(cfg, bt, opening, symbol);
    OpenStage(cfg, bt, opening, symbol, c, t);
    OpenHolds(cfg, bt, opening, symbol, c, t);
    InsideIsGuarded(cfg, OpenBar(cfg, bt, symbol, c), opening, symbol);
  }

  lemma NoStopIsPending(cfg: Config, bt: Bt, opening: Paise, symbol: Symbol, t: Timestamp)
    requires Between(cfg, bt, opening, symbol, t)
    ensures bt.pending.Some? ==> bt.pending.value.strategyId != STOP_ID
  {
    hide Inside, StopKeysUpTo;
  }

  lemma BarAddsFairly(cfg: Config, before: Bt, after: Bt, opening: Paise, symbol: Symbol, c: Candle, t: Timestamp)
    requires cfg.Valid() && Quotable(c) && Between(cfg, before, opening, symbol, t) && BarExecutes(cfg, before, after,
        symbol, c)
    ensures AddsFairly(cfg.broker.slippage, before.desk.broker, after.desk.broker, StopAhead(before), c)
  {
    hide Between, Opened, Stopped, Guarded, HeldAtOpen, StopAhead, FairExecution;
    var b :| Opened(cfg, before, c, b) && Stopped(cfg, before, symbol, c, b, after.desk.broker);
    NoStopIsPending(cfg, before, opening, symbol, t);
    OpenIsGuarded(cfg, before, opening, symbol, c, t);
    OpenedIsFair(cfg, before, c, b, StopAhead(before));
    StoppedIsFair(cfg, before, symbol, c, b, after.desk.broker);
    BothAreFair(cfg.broker.slippage, before.desk.broker, b, after.desk.broker, StopAhead(before), c);
  }

  /**
   * Every execution that a bar of a run adds carries the bar's own time. An order that is no stop is
   * executed at the bar's open; a stop order at the low or the high that reached the stop.
   */
  lemma EveryBarExecutesFairly<P(!new)>(cfg: Config, strategy: Strategy<P>, gate: Gate, candles: seq<Candle>, n: nat)
    requires cfg.Valid() && candles != [] && AllQuotable(candles) && n < |candles|
    requires Increasing(candles) && WellNamed(strategy)
    ensures var before, after := Run(cfg, strategy, gate, candles, n), Run(cfg, strategy, gate, candles, n + 1);
      after.Success? ==>
        && before.Success?
        && AddsFairly(cfg.broker.slippage, before.value.desk.broker, after.value.desk.broker, StopAhead(before.value),
            candles[n])
  {
    hide Between, Run, BarExecutes, AddsFairly, Bt.Valid, StopAhead;
    EveryBarIsGuarded(cfg, strategy, gate, candles, n);
    BarsExecuteWhatWasDecided(cfg, strategy, gate, candles, n);
    var before, after := Run(cfg, strategy, gate, candles, n), Run(cfg, strategy, gate, candles, n + 1);
    if after.Success? {
      BarAddsFairly(cfg, before.value, after.value, cfg.openingCash, candles[0].symbol, candles[n],
                    if n == 0 then candles[0].timestamp - 1 else candles[n - 1].timestamp);
    }
  }
}
