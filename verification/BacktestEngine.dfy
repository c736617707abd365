// The backtest as objects: one run owns its broker, order manager, portfolio and breaker.
module BacktestEngines {
  import opened Money
  import opened Domain
  import opened Averages
  import opened Portfolios
  import opened RiskEngines
  import opened Backtests
  import Risk
  import Sizing
  import Oms
  import Ledgers
  import Pipelines
  import PB = PaperBrokers

  /** What a finished run reports. */
  datatype Report = Report(
    curve: seq<Point>,
    trades: seq<ClosedTrade>,
    signals: seq<Signal>,
    refused: seq<Signal>,
    vetoed: seq<Signal>,
    barsInMarket: nat,
    finalPortfolio: Book)

  function ReportOf(bt: Bt): Report {
    Report(bt.curve, bt.desk.book.trades, bt.signals, bt.refused, bt.vetoed, bt.barsInMarket, bt.desk.book)
  }

  class BacktestRun {
    const cfg: Config
    const symbol: Symbol
    const portfolio: Portfolio
    const broker: PB.PaperBroker
    const oms: Oms.OrderManager
    const risk: RiskEngine
    const lossBreaker: LossStreakBreaker
    var pending: Option<Pending>
    var openRisk: Option<OpenRisk>
    var peakEquity: Paise
    var startOfDayEquity: Paise
    var currentDay: Option<int>
    var barsInMarket: nat
    var tradesSeen: nat
    var curve: seq<Point>
    var signals: seq<Signal>
    var refused: seq<Signal>
    var vetoed: seq<Signal>
    ghost var sent: seq<Sent>

    ghost function Desk(): Ledgers.Desk
      reads portfolio, broker, oms
    {
      Ledgers.Desk(broker.Model(), oms.Model(), portfolio.Model())
    }

    ghost function Model(): Bt
      reads this, portfolio, broker, oms, lossBreaker
    {
      Bt(Desk(), pending, openRisk, peakEquity, startOfDayEquity, currentDay, barsInMarket, tradesSeen,
         lossBreaker.State(), curve, signals, refused, vetoed, sent)
    }

    ghost predicate Wired()
      reads portfolio, broker, oms, lossBreaker, risk.killSwitch
    {
      && cfg.Valid() && broker.cfg == cfg.broker && oms.maxRetries == cfg.maxRetries
      && risk.limits == cfg.limits && risk.killSwitch.engagedAt.None?
      && lossBreaker.maxConsecutiveLosses == cfg.limits.maxConsecutiveLosses
      && lossBreaker.cooldownMs == cfg.limits.consecutiveLossCooldownMs
      && portfolio.Valid() && oms.Valid()
    }

    ghost predicate Valid()
      reads this, portfolio, broker, oms, lossBreaker, risk.killSwitch
    {
      Wired() && tradesSeen <= |portfolio.trades|
    }

    constructor (cfg: Config, symbol: Symbol)
      requires cfg.Valid()
      ensures this.cfg == cfg && this.symbol == symbol
      ensures fresh(portfolio) && fresh(broker) && fresh(oms) && fresh(lossBreaker) && fresh(risk.killSwitch)
      ensures Valid() && Model() == Start(cfg)
    {
      this.cfg, this.symbol := cfg, symbol;
      portfolio := new Portfolio(cfg.openingCash);
      broker := new PB.PaperBroker(cfg.broker, cfg.openingCash);
      oms := new Oms.OrderManager(cfg.maxRetries);
      var killSwitch := new KillSwitch();
      risk := new RiskEngine(cfg.limits, killSwitch);
      lossBreaker := new LossStreakBreaker(cfg.limits.maxConsecutiveLosses, cfg.limits.consecutiveLossCooldownMs);
      pending, openRisk, currentDay := None, None, None;
      peakEquity, startOfDayEquity := cfg.openingCash, cfg.openingCash;
      barsInMarket, tradesSeen := 0, 0;
      curve, signals, refused, vetoed, sent := [], [], [], [], [];
    }

    /** Publishes a price; every execution reaches the order manager and then the portfolio. */
    method PublishPrice(price: nat)
      requires Valid()
      modifies portfolio, broker, oms
      ensures Valid() && Model() == Publish(cfg, old(Model()), symbol, price)
    {
      hide PB.WorkQueue, Booked, Oms.Filled, PB.Archive, PB.CashFlows, Oms.State.Valid, Book.Valid;
      var quote := PB.Quote(symbol, price, None);
      ghost var before := Desk();
      BookAllKeepsValid(before.book, Ledgers.Produced(cfg.broker, before.broker, quote));
      var produced := broker.SetPrice(quote);
      for i := 0 to |produced|
        invariant Wired() && broker.Model() == PB.Publish(cfg.broker, before.broker, quote)
        invariant oms.Model() == Ledgers.Deliver(before.oms, produced[..i])
        invariant portfolio.Model() == Ledgers.BookAll(before.book, produced[..i])
      {
        assert produced[..i + 1][..i] == produced[..i];
        var _ := oms.ApplyFill(produced[i]);
        var _ := portfolio.ApplyFill(produced[i]);
      }
      assert produced[..|produced|] == produced;
    }

    method SendOrder(request: OrderRequest, now: Timestamp)
      requires Valid()
      modifies this`sent, broker, oms
      ensures Valid() && Model() == Send(cfg, old(Model()), request, now)
    {
      hide Oms.Submitted, Oms.State.Valid;
      sent := sent + [Sent(portfolio.Model().Quantity(request.symbol), request)];
      var _ := oms.Submit(broker, request, now);
    }

    method HeldQuantity() returns (held: int)
      ensures held == Model().Held(symbol)
    {
      var position := portfolio.GetPosition(symbol);
      held := if position.Some? then position.value.quantity else 0;
    }

    method CurrentPosition() returns (position: Option<Position>)
      ensures position == PositionOf(Model().desk.book, symbol)
    {
      position := portfolio.GetPosition(symbol);
    }

    method MakeReport() returns (r: Report)
      ensures r == ReportOf(Model())
    {
      r := Report(curve, portfolio.trades, signals, refused, vetoed, barsInMarket,
                  Book(portfolio.cashBalance, portfolio.commissionPaid, portfolio.symbols, portfolio.positions, portfolio.trades));
    }

    method BeginNextBar(now: Timestamp)
      requires Valid()
      modifies this`startOfDayEquity, this`currentDay, broker`clock
      ensures Valid() && Model() == BeginBar(old(Model()), now)
    {
      hide Equity, Oms.State.Valid;
      broker.SetClock(now);
      var day := UtcDay(now);
      if currentDay != Some(day) {
        currentDay := Some(day);
        startOfDayEquity := portfolio.GetEquity();
      }
    }

    method SubmitPendingOrder(p: Pending, now: Timestamp)
      requires Valid()
      modifies this`sent, broker, oms
      ensures Valid() && Model() == SubmitPending(cfg, old(Model()), p, now)
    {
      hide Send;
      var quantity := LotFloor(p.quantity, cfg.lotSize);
      if quantity <= 0 {
        return;
      }
      SendOrder(Pipelines.MarketOrder(p.strategyId, p.symbol, p.side, quantity, p.decisionBar), now);
    }

    method FillPending(c: Candle)
      requires Valid() && Quotable(c)
      modifies this`pending, this`openRisk, this`sent, portfolio, broker, oms
      ensures Valid() && Model() == OpenBar(cfg, old(Model()), symbol, c)
    {
      hide Publish, SubmitPending, BacktestRun.Desk, BacktestRun.Wired;
      PublishPrice(c.open);
      if pending.Some? {
        var p := pending.value;
        SubmitPendingOrder(p, c.timestamp);
        PublishPrice(c.open);
        ArmStop(p);
      }
    }

    /** An entry that was sent leaves its stop in force; nothing is pending any more. */
    method ArmStop(p: Pending)
      requires Valid()
      modifies this`pending, this`openRisk
      ensures Valid()
      ensures Model() == old(Model()).(
        pending := None,
        openRisk := if !p.direction.FLAT? && p.stop.Some? then Some(OpenRisk(p.stop.value, p.direction)) else old(openRisk))
    {
      if !p.direction.FLAT? && p.stop.Some? {
        openRisk := Some(OpenRisk(p.stop.value, p.direction));
      }
      pending := None;
    }

    method TouchPrice(price: nat)
      requires Valid()
      modifies portfolio, broker, oms
      ensures Valid() && Model() == Touch(cfg, old(Model()), symbol, price)
    {
      hide Publish, Mark;
      PublishPrice(price);
      portfolio.MarkPrice(symbol, price);
    }

    method EnforceStopAt(price: nat, now: Timestamp)
      requires Valid()
      modifies this`openRisk, this`sent, portfolio, broker, oms
      ensures Valid() && Model() == EnforceStop(cfg, old(Model()), symbol, price, now)
    {
      hide Publish, Send;
      if openRisk.None? {
        return;
      }
      var held := HeldQuantity();
      if held == 0 {
        openRisk := None;
        return;
      }
      if !Sizing.IsStopTriggered(price, openRisk.value.stop, openRisk.value.direction) {
        return;
      }
      SendOrder(Pipelines.MarketOrder(STOP_ID, symbol, if held > 0 then SELL else BUY, Abs(held), now), now);
      PublishPrice(price);
      openRisk := None;
    }

    method WalkExtremes(c: Candle)
      requires Valid() && Quotable(c)
      modifies this`openRisk, this`sent, portfolio, broker, oms
      ensures Valid() && Model() == Extremes(cfg, old(Model()), symbol, c)
    {
      hide Touch, EnforceStop;
      var held := HeldQuantity();
      var first, second := c.low, c.high;
      if held < 0 {
        first, second := c.high, c.low;
      }
      TouchPrice(first);
      EnforceStopAt(first, c.timestamp);
      TouchPrice(second);
      EnforceStopAt(second, c.timestamp);
    }

    /** Feeds trades closed since the last look to the losing-streak breaker. */
    method RecordNewTrades()
      requires Valid()
      modifies this`tradesSeen, lossBreaker
      ensures Valid()
      ensures var trades := old(Model()).desk.book.trades;
        Model() == old(Model()).(
          streak := RecordTrades(cfg.limits.maxConsecutiveLosses, old(Model()).streak, trades[old(tradesSeen)..]),
          tradesSeen := |trades|)
    {
      hide RecordTrades, Book.Valid, Oms.State.Valid;
      FeedBreaker(portfolio.trades);
    }

    method FeedBreaker(trades: seq<ClosedTrade>)
      requires tradesSeen <= |trades|
      modifies this`tradesSeen, lossBreaker
      ensures tradesSeen == |trades|
      ensures lossBreaker.State() == RecordTrades(lossBreaker.maxConsecutiveLosses, old(lossBreaker.State()), trades[old(tradesSeen)..])
    {
      hide Recorded;
      ghost var start := tradesSeen;
      ghost var before := lossBreaker.State();
      while tradesSeen < |trades|
        invariant start <= tradesSeen <= |trades|
        invariant lossBreaker.State() == RecordTrades(lossBreaker.maxConsecutiveLosses, before, trades[start..tradesSeen])
      {
        assert trades[start..tradesSeen + 1][..tradesSeen - start] == trades[start..tradesSeen];
        lossBreaker.Record(trades[tradesSeen].pnl, trades[tradesSeen].closedAt);
        tradesSeen := tradesSeen + 1;
      }
      assert trades[start..|trades|] == trades[start..];
    }

    method CloseThisBar(c: Candle)
      requires Valid() && Quotable(c)
      modifies this, portfolio, broker, oms, lossBreaker
      ensures Valid() && Model() == CloseBar(cfg, old(Model()), symbol, c)
    {
      hide Touch, Equity, RecordTrades, TrailedStop, BacktestRun.Desk, BacktestRun.Wired, Book.Valid;
      TouchPrice(c.close);
      RecordNewTrades();
      NoteEquity(c.timestamp);
      RatchetStop(c);
    }

    method NoteEquity(now: Timestamp)
      requires Valid()
      modifies this`peakEquity, this`curve
      ensures Valid()
      ensures var equity := Equity(old(Model()).desk.book);
        Model() == old(Model()).(peak := Max(old(peakEquity), equity), curve := old(curve) + [Point(now, equity)])
    {
      hide Equity;
      var equity := portfolio.GetEquity();
      if equity > peakEquity {
        peakEquity := equity;
      }
      curve := curve + [Point(now, equity)];
    }

    method RatchetStop(c: Candle)
      requires Valid()
      modifies this`barsInMarket, this`openRisk
      ensures Valid()
      ensures Model() == old(Model()).(
        barsInMarket := if old(Model()).Held(symbol) != 0 then old(barsInMarket) + 1 else old(barsInMarket),
        openRisk := if old(Model()).Held(symbol) == 0 then None
                    else if cfg.useTrailingStops && old(openRisk).Some? then Some(TrailedStop(cfg, old(openRisk).value, c))
                    else old(openRisk))
    {
      hide TrailedStop;
      var held := HeldQuantity();
      if held != 0 {
        barsInMarket := barsInMarket + 1;
        if cfg.useTrailingStops && openRisk.Some? {
          openRisk := Some(TrailedStop(cfg, openRisk.value, c));
        }
      } else {
        openRisk := None;
      }
    }

    method WalkOneBar(c: Candle)
      requires Valid() && Quotable(c)
      modifies this, portfolio, broker, oms, lossBreaker
      ensures Valid() && Model() == WalkBar(cfg, old(Model()), symbol, c)
    {
      hide BeginBar, OpenBar, Extremes, CloseBar;
      BeginNextBar(c.timestamp);
      FillPending(c);
      WalkExtremes(c);
      CloseThisBar(c);
    }

    /** Sizes and judges a signal; an entry that comes to nothing is noted as refused. */
    method PlanNext(signal: Signal, now: Timestamp) returns (plan: Result<Option<Pending>, Sizing.SizingError>)
      requires Valid()
      ensures plan == PlanOrder(cfg, Model(), symbol, signal, now)
    {
      hide Equity, Sizing.SizePosition, Risk.Evaluated, OpenPositions, AccountOf;
      var held := HeldQuantity();
      if signal.direction.FLAT? {
        if held == 0 {
          return Success(None);
        }
        return Success(Some(Pending(symbol, if held > 0 then SELL else BUY, Abs(held), signal.strategyId, signal.timestamp, None, FLAT)));
      }
      if held != 0 {
        return Success(None);
      }
      if signal.stopLoss.None? {
        return Success(None);
      }
      var input := SizeInput(signal);
      var sizing := Sizing.SizePosition(input);
      if sizing.Failure? {
        return Failure(sizing.error);
      }
      if sizing.value.quantity <= 0 {
        return Success(None);
      }
      var side := if signal.direction.LONG? then BUY else SELL;
      var request := Pipelines.MarketOrder(signal.strategyId, symbol, side, sizing.value.quantity, signal.timestamp);
      var account := ReadAccount();
      var decision := risk.Evaluate(
        Risk.Context(request, signal.referencePrice, signal.stopLoss, now, true, false), account);
      if !decision.approved {
        return Success(None);
      }
      return Success(Some(Pending(symbol, side, decision.approvedQuantity, signal.strategyId, signal.timestamp,
                                  signal.stopLoss, signal.direction)));
    }

    method SizeInput(signal: Signal) returns (input: Sizing.Input)
      requires Valid() && signal.stopLoss.Some?
      ensures input == SizingInput(cfg, Model(), signal)
    {
      hide Equity;
      var equity := portfolio.GetEquity();
      input := Sizing.Input(equity, signal.referencePrice, signal.stopLoss.value,
                            cfg.limits.riskPerTradeFraction * (if signal.strength > 0.25 then signal.strength else 0.25),
                            cfg.limits.maxPositionFraction, portfolio.cashBalance, cfg.lotSize, 1.0);
    }

    method ReadAccount() returns (account: Risk.Account)
      requires Valid()
      ensures account == AccountOf(Model())
    {
      hide Equity, OpenPositions;
      var equity := portfolio.GetEquity();
      var positions := portfolio.GetOpenPositions();
      account := Risk.Account(equity, portfolio.cashBalance, startOfDayEquity, peakEquity, positions,
                              equity - startOfDayEquity, lossBreaker.streak, oms.submissionTimestamps, map[], map[]);
    }

    method LookAtAccount(now: Timestamp)
      requires Valid()
      modifies oms`submissionTimestamps, lossBreaker
      ensures Valid() && Model() == Looked(cfg, old(Model()), now)
    {
      hide Oms.Recent, Book.Valid;
      var _ := lossBreaker.EffectiveStreak(now);
      var _ := oms.RecentSubmissions(now);
    }

    method TakePlan(signal: Signal, plan: Option<Pending>)
      requires Valid()
      modifies this`pending, this`refused
      ensures Valid()
      ensures Model() == old(Model()).(
        pending := plan,
        refused := if Backtests.Refused(old(Model()), symbol, signal, plan) then old(refused) + [signal] else old(refused))
    {
      var held := HeldQuantity();
      pending := plan;
      if plan.None? && !signal.direction.FLAT? && held == 0 && signal.stopLoss.Some? {
        refused := refused + [signal];
      }
    }

    /** Hears a signal, asks the model about it, and plans the next open. */
    method DecideNext(advice: Advice, now: Timestamp) returns (failed: Option<Sizing.SizingError>)
      requires Valid()
      modifies this, oms`submissionTimestamps, lossBreaker
      ensures var d := Decide(cfg, old(Model()), symbol, advice, now);
        if failed.None? then Valid() && d == Success(Model()) else d == Failure(failed.value)
    {
      hide PlanOrder, Looked, Backtests.Refused, BacktestRun.Desk, BacktestRun.Wired, Book.Valid;
      if advice.signal.None? {
        return None;
      }
      var signal := advice.signal.value;
      signals := signals + [signal];
      if !advice.allowed {
        vetoed := vetoed + [signal];
        return None;
      }
      LookAtAccount(now);
      var plan := PlanNext(signal, now);
      if plan.Failure? {
        return Some(plan.error);
      }
      TakePlan(signal, plan.value);
      return None;
    }

    /** One whole bar: walked to its close, then decided upon unless it is the last. */
    method RunBar<P>(strategy: Strategy<P>, gate: Gate, prepared: P, candles: seq<Candle>, index: nat)
      returns (failed: Option<Sizing.SizingError>)
      requires Valid() && index < |candles| && Quotable(candles[index]) && prepared == strategy.prepare(candles)
      modifies this, portfolio, broker, oms, lossBreaker
      ensures var r := Bar(cfg, old(Model()), symbol, candles[index], index == |candles| - 1,
                           Advisor(strategy, gate, candles, symbol, index));
        if failed.None? then Valid() && r == Success(Model()) else r == Failure(failed.value)
    {
      hide WalkBar, Decide, BacktestRun.Model, BacktestRun.Wired, BacktestRun.Desk, PositionOf, Bt.Valid;
      var c := candles[index];
      WalkOneBar(c);
      if index >= |candles| - 1 {
        return None;
      }
      var position := CurrentPosition();
      var signal := strategy.evaluate(Context(symbol, candles, index, position, c.timestamp, 0), prepared);
      var allowed := signal.Some? && gate(signal.value, candles, index);
      failed := DecideNext(Advice(signal, allowed), c.timestamp);
    }
  }

  /** Runs one strategy over one symbol's history, deciding on each close but the last. */
  method RunBacktest<P>(cfg: Config, strategy: Strategy<P>, gate: Gate, candles: seq<Candle>) returns (r: Result<Report, Sizing.SizingError>)
    requires cfg.Valid() && candles != [] && AllQuotable(candles)
    ensures var end := Run(cfg, strategy, gate, candles, |candles|);
      r == if end.Success? then Success(ReportOf(end.value)) else Failure(end.error)
  {
    hide Bar, BacktestRun.Model, BacktestRun.Wired, BacktestRun.Desk, BacktestRun.Valid, ReportOf, Advisor, Bt.Valid, Config.Valid;
    var symbol := candles[0].symbol;
    var run := new BacktestRun(cfg, symbol);
    var prepared := strategy.prepare(candles);
    for index := 0 to |candles|
      invariant fresh(run) && fresh(run.portfolio) && fresh(run.broker) && fresh(run.oms) && fresh(run.lossBreaker)
      invariant run.cfg == cfg && run.symbol == symbol && run.Valid()
      invariant Run(cfg, strategy, gate, candles, index) == Success(run.Model())
    {
      var failed := run.RunBar(strategy, gate, prepared, candles, index);
      if failed.Some? {
        FailuresEndTheRun(cfg, strategy, gate, candles, index + 1);
        return Failure(failed.value);
      }
    }
    var report := run.MakeReport();
    return Success(report);
  }

  lemma {:induction false} FailuresEndTheRun<P>(cfg: Config, strategy: Strategy<P>, gate: Gate, candles: seq<Candle>, n: nat)
    requires cfg.Valid() && candles != [] && AllQuotable(candles) && n <= |candles|
    requires Run(cfg, strategy, gate, candles, n).Failure?
    ensures Run(cfg, strategy, gate, candles, |candles|) == Run(cfg, strategy, gate, candles, n)
    decreases |candles| - n
  {
    hide Bar;
    if n < |candles| {
      FailuresEndTheRun(cfg, strategy, gate, candles, n + 1);
    }
  }
}
