// What a backtest decides at a close, in numbers: exits, the size of entries, and where stops are left.
module BacktestDecisions {
  import opened Money
  import opened Domain
  import opened Portfolios
  import opened RiskEngines
  import opened Backtests
  import opened BacktestRuns
  import opened BacktestExecutions
  import opened BacktestCurves
  import opened BacktestRates
  import Costs
  import Ledgers
  import Oms
  import Risk
  import Pipelines
  import Sizing
  import PB = PaperBrokers
  import Runs = PaperBrokerRuns

  // ----- Where the stop is left -----

  /** A stop followed the close at a distance, and did not back off. */
  predicate Follows(ahead: OpenRisk, close: Paise, distance: int, stop: Paise) {
    stop == if ahead.direction.LONG? then Max(ahead.stop, close - distance) else Min(ahead.stop, close + distance)
  }

  /** A stop stays where it is, or follows the close at a multiple of the bar's range, to the paisa. */
  ghost predicate Trails(cfg: Config, ahead: OpenRisk, c: Candle, left: OpenRisk) {
    && left.direction == ahead.direction
    && if !cfg.useTrailingStops then left.stop == ahead.stop
       else exists distance ::
         && Follows(ahead, c.close, distance, left.stop)
         && Costs.Rounds(distance, Max(1, c.high - c.low) as real * cfg.trailingAtrMultiple)
  }

  lemma TrailedStopTrails(cfg: Config, r: OpenRisk, c: Candle)
    requires cfg.useTrailingStops
    ensures Trails(cfg, r, c, TrailedStop(cfg, r, c))
  {
    var exact := Max(1, c.high - c.low) as real * cfg.trailingAtrMultiple;
    assert Costs.Rounds(RoundHalfUp(exact), exact);
    assert Follows(r, c.close, RoundHalfUp(exact), TrailedStop(cfg, r, c).stop);
  }

  lemma CloseTrails(cfg: Config, bt: Bt, opening: Paise, symbol: Symbol, c: Candle)
    requires cfg.Valid() && Quotable(c) && Inside(cfg, bt, opening, symbol)
    requires bt.Held(symbol) != 0 <==> bt.openRisk.Some?
    ensures bt.Valid()
    ensures var r := CloseBar(cfg, bt, symbol, c);
      r.openRisk.Some? <==> bt.openRisk.Some?
    ensures var r := CloseBar(cfg, bt, symbol, c);
      r.openRisk.Some? ==> Trails(cfg, bt.openRisk.value, c, r.openRisk.value)
  {
    hide Ledgers.Balanced, Oms.State.Valid, AllOpenOrFlatten, WholeLots, Touch, Equity, RecordTrades, TrailedStop, Quiet;
    TouchStage(cfg, bt, opening, symbol, c.close);
    if bt.openRisk.Some? && cfg.useTrailingStops {
      TrailedStopTrails(cfg, bt.openRisk.value, c);
    }
  }

  lemma WalkTrails(cfg: Config, bt: Bt, opening: Paise, symbol: Symbol, c: Candle, t: Timestamp)
    requires cfg.Valid() && Quotable(c) && Between(cfg, bt, opening, symbol, t) && t < c.timestamp
    ensures bt.Valid()
    ensures var r := WalkBar(cfg, bt, symbol, c);
      r.openRisk.Some? ==> StopAhead(bt).Some? && Trails(cfg, StopAhead(bt).value, c, r.openRisk.value)
  {
    hide Inside, StopKeysUpTo, BeginBar, OpenBar, Extremes, CloseBar, Bt.Valid, Survived, Trails, PendingFits;
    InsideIsValid(cfg, bt, opening, symbol);
    var begun := BeginBar(bt, c.timestamp);
    BeginStage(cfg, bt, opening, symbol, t, c.timestamp);
    InsideIsValid(cfg, begun, opening, symbol);
    var quoted := OpenBar(cfg, begun, symbol, c);
    OpenStage(cfg, begun, opening, symbol, c, t);
    InsideIsValid(cfg, quoted, opening, symbol);
    var passed := Extremes(cfg, quoted, symbol, c);
    ExtremesStage(cfg, quoted, opening, symbol, c, t);
    InsideIsValid(cfg, passed, opening, symbol);
    CloseTrails(cfg, passed, opening, symbol, c);
  }

  lemma DecideKeepsStop(cfg: Config, bt: Bt, symbol: Symbol, c: Candle, last: bool, advise: Option<Position> -> Advice)
    requires cfg.Valid() && bt.Valid() && Quotable(c)
    ensures var r := Bar(cfg, bt, symbol, c, last, advise);
      r.Success? ==> r.value.openRisk == WalkBar(cfg, bt, symbol, c).openRisk
  {
    hide WalkBar, PlanOrder, Bt.Valid;
  }

  /**
   * After any bar of any run, a stop that is set is the stop that was ahead, moved exactly as far as
   * the bar's close and range trail it.
   */
  lemma StopsTrailTheClose<P(!new)>(cfg: Config, strategy: Strategy<P>, gate: Gate, candles: seq<Candle>, n: nat)
    requires cfg.Valid() && candles != [] && AllQuotable(candles) && n < |candles|
    requires Increasing(candles) && WellNamed(strategy)
    ensures var before, after := Run(cfg, strategy, gate, candles, n), Run(cfg, strategy, gate, candles, n + 1);
      after.Success? && after.value.openRisk.Some? ==>
        && before.Success? && StopAhead(before.value).Some?
        && Trails(cfg, StopAhead(before.value).value, candles[n], after.value.openRisk.value)
  {
    hide Between, Bar, Trails, Bt.Valid, StopAhead;
    var symbol := candles[0].symbol;
    EveryBarIsGuarded(cfg, strategy, gate, candles, n);
    var before := Run(cfg, strategy, gate, candles, n);
    if before.Success? {
      WalkTrails(cfg, before.value, cfg.openingCash, symbol, candles[n],
          if n == 0 then candles[0].timestamp - 1 else candles[n - 1].timestamp);
      DecideKeepsStop(cfg, before.value, symbol, candles[n], n + 1 == |candles|, Advisor(strategy, gate, candles, symbol, n));
    }
  }

  // ----- What an entry may cost -----

  /** No limit on the account stands in the way of an entry. */
  predicate MayEnter(limits: Risk.Limits, equity: Paise, first: Paise, peak: Paise, losses: int, sent: seq<Timestamp>,
        now: Timestamp) {
    && !Risk.LossHalts(limits, equity, first, peak)
    && losses < limits.maxConsecutiveLosses
    && |Risk.LastMinute(sent, now)| < limits.maxOrdersPerMinute
    && limits.maxOpenPositions > 0
  }

  /** The share of the equity an entry may lose at its stop: the budget, less for a weak signal, but a quarter at least. */
  function RiskShare(limits: Risk.Limits, signal: Signal): real {
    limits.riskPerTradeFraction * (if signal.strength > 0.25 then signal.strength else 0.25)
  }

  /** A size in whole lots that the risk budget, the position limit and the cash all pay for. */
  predicate PaysFor(cfg: Config, signal: Signal, equity: Paise, cash: Paise, lots: nat)
    requires cfg.Valid() && signal.stopLoss.Some?
  {
    && lots * Abs(signal.referencePrice - signal.stopLoss.value) <= MulRate(equity, RiskShare(cfg.limits, signal))
    && lots * signal.referencePrice <= MulRate(equity, cfg.limits.maxPositionFraction)
    && lots * signal.referencePrice <= cash
  }

  /** A quantity no larger than some such size, and within every exposure limit of an account that holds nothing. */
  ghost predicate Affords(cfg: Config, signal: Signal, equity: Paise, cash: Paise, k: nat)
    requires cfg.Valid() && signal.stopLoss.Some?
  {
    && (exists lots: nat :: k <= lots && lots % cfg.lotSize == 0 && PaysFor(cfg, signal, equity, cash, lots))
    && k * signal.referencePrice <= MulRate(equity, cfg.limits.maxSymbolConcentrationFraction)
    && k * signal.referencePrice <= MulRate(equity, cfg.limits.maxGrossExposureFraction)
    && k * signal.referencePrice <= MulRate(equity, cfg.limits.maxNetExposureFraction)
  }

  lemma WholeAtUnitRate(amount: Paise)
    ensures MulRate(amount, 1.0) == amount
  {
    assert amount as real * 1.0 == amount as real;
  }

  /** A book with nothing open in it. */
  predicate AllFlat(book: Book) {
    forall s :: s in book.positions ==> book.positions[s].quantity == 0
  }

  lemma FlatAccount(cfg: Config, bt: Bt)
    requires bt.desk.book.Valid() && AllFlat(bt.desk.book)
    ensures AccountOf(bt).positions == []
  {
    hide Equity;
    NothingOpen(bt.desk.book, OpenPositions(bt.desk.book.symbols, bt.desk.book.positions));
  }

  lemma NothingOpen(book: Book, open: seq<Position>)
    requires book.Valid() && AllFlat(book)
    requires forall p :: p in open ==> p.quantity != 0 && p.symbol in book.symbols && book.positions[p.symbol] == p
    ensures open == []
  {
    EmptyOrNot(open);
  }

  lemma EmptyOrNot(open: seq<Position>)
    ensures open == [] || exists p :: p in open
  {
    if open != [] {
      assert open[0] in open;
    }
  }

  lemma SizeIsExact(cfg: Config, bt: Bt, signal: Signal, k: nat)
    requires cfg.Valid() && bt.desk.book.Valid() && signal.stopLoss.Some? && k > 0
    requires Sizing.Refusal(SizingInput(cfg, bt, signal)).None?
    ensures k <= Sizing.SizePosition(SizingInput(cfg, bt, signal)).value.quantity <==>
            exists lots: nat :: k <= lots && lots % cfg.lotSize == 0 && PaysFor(cfg, signal, Equity(bt.desk.book),
                bt.desk.book.cash, lots)
  {
    hide Sizing.SizePosition, Equity, MulRate, Sizing.Refusal, PaysFor;
    var input := SizingInput(cfg, bt, signal);
    var size := Sizing.SizePosition(input).value.quantity;
    if k <= size {
      Sizing.SizeIsGreatest(input, size);
      AdmittedIsPaidFor(cfg, bt, signal, size);
    }
    forall lots: nat | k <= lots && lots % cfg.lotSize == 0 && PaysFor(cfg, signal, Equity(bt.desk.book),
        bt.desk.book.cash, lots)
      ensures k <= size
    {
      AdmittedIsPaidFor(cfg, bt, signal, lots);
      Sizing.SizeIsGreatest(input, lots);
    }
  }

  lemma AdmittedIsPaidFor(cfg: Config, bt: Bt, signal: Signal, lots: nat)
    requires cfg.Valid() && bt.desk.book.Valid() && signal.stopLoss.Some?
    ensures (forall cap :: Sizing.Admits(SizingInput(cfg, bt, signal), cap, lots)) <==>
            PaysFor(cfg, signal, Equity(bt.desk.book), bt.desk.book.cash, lots)
  {
    hide Equity, MulRate;
    var input := SizingInput(cfg, bt, signal);
    WholeAtUnitRate(bt.desk.book.cash);
    assert input.riskFraction == RiskShare(cfg.limits, signal);
    assert Sizing.Budget(input, Sizing.Cash) == bt.desk.book.cash;
    hide RiskShare;
    assert PaysFor(cfg, signal, Equity(bt.desk.book), bt.desk.book.cash, lots) <==>
           Sizing.Admits(input, Sizing.Risk, lots) && Sizing.Admits(input, Sizing.PositionCap,
               lots) && Sizing.Admits(input, Sizing.Cash, lots);
  }

  /** What the risk engine is asked about an entry. */
  function EntryContext(symbol: Symbol, signal: Signal, size: nat, now: Timestamp): Risk.Context {
    Risk.Context(Pipelines.MarketOrder(signal.strategyId, symbol, if signal.direction.LONG? then BUY else SELL, size,
        signal.timestamp),
                 signal.referencePrice, signal.stopLoss, now, true, false)
  }

  lemma NothingObjects(cfg: Config, bt: Bt, symbol: Symbol, signal: Signal, size: nat, now: Timestamp)
    requires bt.desk.book.Valid() && AllFlat(bt.desk.book) && signal.stopLoss.Some?
    ensures Risk.StateRejections(cfg.limits, false, EntryContext(symbol, signal, size, now), AccountOf(bt)) == [] <==>
            MayEnter(cfg.limits, Equity(bt.desk.book), bt.startOfDay, bt.peak, bt.streak.losses, bt.desk.oms.submissions, now)
  {
    hide Equity, MulRate, Risk.StateRejections, Risk.LastMinute;
    FlatAccount(cfg, bt);
    var context, account := EntryContext(symbol, signal, size, now), AccountOf(bt);
    var rejections := Risk.StateRejections(cfg.limits, false, context, account);
    forall code
      ensures code in rejections <==> Risk.Objects(cfg.limits, false, context, account, code)
    {
      Risk.ControlsObjectExactly(cfg.limits, false, context, account, code);
    }
    if rejections != [] {
      assert rejections[0] in rejections;
    }
    assert Risk.DailyLossLimit in rejections <==> Risk.DayLost(cfg.limits, account);
    assert Risk.MaxDrawdown in rejections <==> Risk.DrawnDown(cfg.limits, account);
    assert Risk.ConsecutiveLossBreaker in rejections <==> bt.streak.losses >= cfg.limits.maxConsecutiveLosses;
    var sent := |Risk.LastMinute(bt.desk.oms.submissions, now)|;
    assert Risk.OrderRateBreaker in rejections <==> sent >= cfg.limits.maxOrdersPerMinute;
    assert Risk.MaxOpenPositions in rejections <==> 0 >= cfg.limits.maxOpenPositions;
  }

  lemma ExposureLimits(cfg: Config, bt: Bt, symbol: Symbol, signal: Signal, size: nat, now: Timestamp, k: nat)
    requires bt.desk.book.Valid() && AllFlat(bt.desk.book) && signal.stopLoss.Some? && signal.referencePrice > 0 && k > 0
    ensures var equity, value := Equity(bt.desk.book), k * signal.referencePrice;
      Risk.WithinCaps(k, Risk.SizeCaps(cfg.limits, EntryContext(symbol, signal, size, now), AccountOf(bt)),
          signal.referencePrice) <==>
        && value <= MulRate(equity, cfg.limits.maxPositionFraction)
        && value <= MulRate(equity, cfg.limits.maxSymbolConcentrationFraction)
        && value <= MulRate(equity, cfg.limits.maxGrossExposureFraction)
        && value <= MulRate(equity, cfg.limits.maxNetExposureFraction)
        && value <= bt.desk.book.cash
  {
    hide Equity, MulRate, Risk.WithinCaps, Risk.SizeCaps;
    FlatAccount(cfg, bt);
    Risk.CapsInMoney(cfg.limits, EntryContext(symbol, signal, size, now), AccountOf(bt), k, signal.referencePrice);
    StrictProduct(0, k, signal.referencePrice);
  }

  /** A larger whole-lot size being paid for, so is a smaller quantity. */
  lemma SmallerIsPaidFor(k: nat, lots: nat, price: Paise, most: Paise)
    requires k <= lots && price > 0 && lots * price <= most
    ensures k * price <= most
  {
    assert (lots - k) * price >= 0;
  }

  lemma ApprovalIsExact(cfg: Config, bt: Bt, symbol: Symbol, signal: Signal, now: Timestamp, size: nat, k: nat)
    requires cfg.Valid() && bt.desk.book.Valid() && AllFlat(bt.desk.book) && signal.stopLoss.Some? && signal.referencePrice > 0 && k > 0 && size > 0
    requires k <= size ==> k * signal.referencePrice <= MulRate(Equity(bt.desk.book), cfg.limits.maxPositionFraction)
    requires k <= size ==> k * signal.referencePrice <= bt.desk.book.cash
    ensures k <= Risk.Evaluated(cfg.limits, false, EntryContext(symbol, signal, size, now), AccountOf(bt)).approvedQuantity <==>
            && MayEnter(cfg.limits, Equity(bt.desk.book), bt.startOfDay, bt.peak, bt.streak.losses,
                bt.desk.oms.submissions, now)
            && k <= size
            && k * signal.referencePrice <= MulRate(Equity(bt.desk.book), cfg.limits.maxSymbolConcentrationFraction)
            && k * signal.referencePrice <= MulRate(Equity(bt.desk.book), cfg.limits.maxGrossExposureFraction)
            && k * signal.referencePrice <= MulRate(Equity(bt.desk.book), cfg.limits.maxNetExposureFraction)
  {
    hide Equity, MulRate, Risk.WithinCaps, Risk.SizeCaps, Risk.StateRejections, Risk.Evaluated, MayEnter;
    FlatAccount(cfg, bt);
    NothingObjects(cfg, bt, symbol, signal, size, now);
    ExposureLimits(cfg, bt, symbol, signal, size, now, k);
    Risk.ApprovalIsGreatest(cfg.limits, false, EntryContext(symbol, signal, size, now), AccountOf(bt), k);
  }

  /** Where a signal to enter leads from flat: to the greatest quantity that the limits admit and some whole-lot size covers. */
  lemma EntryIsGreatest(cfg: Config, bt: Bt, symbol: Symbol, signal: Signal, now: Timestamp, k: nat)
    requires cfg.Valid() && bt.desk.book.Valid() && AllFlat(bt.desk.book) && !signal.direction.FLAT? && signal.stopLoss.Some? && k > 0
    requires PlanOrder(cfg, bt, symbol, signal, now).Success?
    ensures var plan, equity := PlanOrder(cfg, bt, symbol, signal, now).value, Equity(bt.desk.book);
      plan.Some? && k <= plan.value.quantity <==>
        && MayEnter(cfg.limits, equity, bt.startOfDay, bt.peak, bt.streak.losses, bt.desk.oms.submissions, now)
        && Affords(cfg, signal, equity, bt.desk.book.cash, k)
  {
    hide Equity, MulRate, MayEnter, PaysFor, Risk.Evaluated, Sizing.SizePosition, AccountOf, RiskShare, SizingInput;
    assert bt.Held(symbol) == 0;
    var input, equity, price := SizingInput(cfg, bt, signal), Equity(bt.desk.book), signal.referencePrice;
    SizeIsExact(cfg, bt, signal, k);
    PriceIsPositive(cfg, bt, signal);
    var size := Sizing.SizePosition(input).value.quantity;
    if size > 0 {
      SizeIsExact(cfg, bt, signal, size);
      SizePays(cfg, bt, signal, k, size);
      ApprovalIsExact(cfg, bt, symbol, signal, now, size, k);
      Risk.ApprovedIsPositive(cfg.limits, false, EntryContext(symbol, signal, size, now), AccountOf(bt));
    }
  }

  lemma PriceIsPositive(cfg: Config, bt: Bt, signal: Signal)
    requires bt.desk.book.Valid() && signal.stopLoss.Some? && Sizing.Refusal(SizingInput(cfg, bt, signal)).None?
    ensures signal.referencePrice > 0
  {
    hide Equity, MulRate;
  }

  lemma SizePays(cfg: Config, bt: Bt, signal: Signal, k: nat, size: nat)
    requires cfg.Valid() && bt.desk.book.Valid() && signal.stopLoss.Some? && k > 0 && size > 0 && signal.referencePrice > 0
    requires exists lots: nat :: size <= lots && lots % cfg.lotSize == 0 && PaysFor(cfg, signal, Equity(bt.desk.book),
        bt.desk.book.cash, lots)
    ensures k <= size ==> k * signal.referencePrice <= MulRate(Equity(bt.desk.book), cfg.limits.maxPositionFraction)
    ensures k <= size ==> k * signal.referencePrice <= bt.desk.book.cash
  {
    hide Equity, MulRate, RiskShare;
    var equity, cash, price := Equity(bt.desk.book), bt.desk.book.cash, signal.referencePrice;
    var lots: nat :| size <= lots && lots % cfg.lotSize == 0 && PaysFor(cfg, signal, equity, cash, lots);
    if k <= size {
      SmallerIsPaidFor(k, lots, price, MulRate(equity, cfg.limits.maxPositionFraction));
      SmallerIsPaidFor(k, lots, price, cash);
    }
  }

  // ----- Whole runs -----

  /** What a signal to leave leads to: an order that flattens what is held, if anything is. */
  predicate Leaves(symbol: Symbol, signal: Signal, held: int, pending: Option<Pending>) {
    if held == 0 then pending.None?
    else
      && pending.Some?
      && var p := pending.value;
         && p.symbol == symbol && p.strategyId == signal.strategyId && p.decisionBar == signal.timestamp
         && p.direction.FLAT? && p.stop.None? && p.quantity > 0 && held + Signed(p.side, p.quantity) == 0
  }

  /** An order that enters as a signal says. */
  predicate Enters(symbol: Symbol, signal: Signal, p: Pending) {
    && p.symbol == symbol && p.strategyId == signal.strategyId && p.decisionBar == signal.timestamp
    && p.direction == signal.direction && p.stop == signal.stopLoss && p.quantity > 0
    && (p.side.BUY? <==> signal.direction.LONG?)
  }

  /** An account at a close: equity, cash, the day's first equity, the peak, the streak, and the orders sent. */
  datatype Standing = Standing(equity: Paise, cash: Paise, first: Paise, peak: Paise, losses: int, sent: seq<Timestamp>)

  /** What follows from a close: nothing without an allowed signal, an exit that flattens, or the greatest entry there is money for. */
  ghost predicate Follow(cfg: Config, symbol: Symbol, advice: Advice, held: int, s: Standing, now: Timestamp,
        pending: Option<Pending>)
    requires cfg.Valid()
  {
    if advice.signal.None? || !advice.allowed then pending.None?
    else
      var signal := advice.signal.value;
      if signal.direction.FLAT? then Leaves(symbol, signal, held, pending)
      else if held != 0 || signal.stopLoss.None? then pending.None?
      else
        && (pending.Some? ==> Enters(symbol, signal, pending.value))
        && forall k: nat :: k > 0 ==>
             (Reaching(pending, k) <==>
                MayEnter(cfg.limits, s.equity, s.first, s.peak, s.losses, s.sent, now) && Affords(cfg, signal,
                    s.equity, s.cash, k))
  }

  /** A pending order of at least a quantity. */
  predicate Reaching(pending: Option<Pending>, k: nat) {
    pending.Some? && k <= pending.value.quantity
  }

  ghost function StandingOf(bt: Bt): Standing
    requires bt.desk.book.Valid()
  {
    Standing(Equity(bt.desk.book), bt.desk.book.cash, bt.startOfDay, bt.peak, bt.streak.losses, bt.desk.oms.submissions)
  }

  lemma EntryAsSignalled(cfg: Config, bt: Bt, symbol: Symbol, signal: Signal, now: Timestamp)
    requires bt.desk.book.Valid() && !signal.direction.FLAT?
    ensures var plan := PlanOrder(cfg, bt, symbol, signal, now);
      && (plan.Success? && plan.value.Some? ==> Enters(symbol, signal, plan.value.value))
      && (bt.Held(symbol) != 0 || signal.stopLoss.None? ==> plan == Success(None))
  {
    hide Equity, Risk.Evaluated, Sizing.SizePosition, AccountOf, SizingInput;
    if bt.Held(symbol) == 0 && signal.stopLoss.Some? {
      var sizing := Sizing.SizePosition(SizingInput(cfg, bt, signal));
      if sizing.Success? && sizing.value.quantity > 0 {
        Risk.ApprovedIsPositive(cfg.limits, false, EntryContext(symbol, signal, sizing.value.quantity, now), AccountOf(bt));
      }
    }
  }

  lemma PlanFollows(cfg: Config, bt: Bt, symbol: Symbol, signal: Signal, now: Timestamp)
    requires cfg.Valid() && bt.desk.book.Valid() && (bt.Held(symbol) == 0 ==> AllFlat(bt.desk.book))
    requires PlanOrder(cfg, bt, symbol, signal, now).Success?
    ensures Follow(cfg, symbol, Advice(Some(signal), true), bt.Held(symbol), StandingOf(bt), now, PlanOrder(cfg, bt,
        symbol, signal, now).value)
  {
    hide Equity, MayEnter, Affords, AllFlat;
    if !signal.direction.FLAT? {
      hide PlanOrder;
      EntryAsSignalled(cfg, bt, symbol, signal, now);
      if bt.Held(symbol) == 0 && signal.stopLoss.Some? {
        forall k: nat | k > 0
          ensures Reaching(PlanOrder(cfg, bt, symbol, signal, now).value, k) <==>
                  && MayEnter(cfg.limits, Equity(bt.desk.book), bt.startOfDay, bt.peak, bt.streak.losses,
                      bt.desk.oms.submissions, now)
                  && Affords(cfg, signal, Equity(bt.desk.book), bt.desk.book.cash, k)
        {
          EntryIsGreatest(cfg, bt, symbol, signal, now, k);
        }
      }
    }
  }

  lemma DecideFollows(cfg: Config, bt: Bt, symbol: Symbol, advice: Advice, now: Timestamp)
    requires cfg.Valid() && bt.Valid() && bt.pending.None? && (bt.Held(symbol) == 0 ==> AllFlat(bt.desk.book))
    requires Decide(cfg, bt, symbol, advice, now).Success?
    ensures var r := Decide(cfg, bt, symbol, advice, now).value;
      && r.desk.book.Valid() && r.desk.book == bt.desk.book && r.startOfDay == bt.startOfDay && r.peak == bt.peak
      && Follow(cfg, symbol, advice, bt.Held(symbol), StandingOf(r), now, r.pending)
  {
    hide Equity, PlanOrder, Oms.Recent, Cooled, AllFlat, MayEnter, Affords, Oms.State.Valid;
    if advice.signal.Some? && advice.allowed {
      var looked := Looked(cfg, bt.(signals := bt.signals + [advice.signal.value]), now);
      hide Follow;
      PlanFollows(cfg, looked, symbol, advice.signal.value, now);
    }
  }

  lemma FlatWhereNothingIsHeld(d: Ledgers.Desk, opening: Paise, symbol: Symbol)
    requires d.book.Valid() && Quiet(d, opening) && AllIn(d.broker.fills, symbol) && d.book.Quantity(symbol) == 0
    ensures AllFlat(d.book)
  {
    hide Ledgers.Mirrors, Ledgers.SameRequests, Ledgers.NetBought, Runs.Sound, AllIn;
    forall s | s in d.book.positions
      ensures d.book.positions[s].quantity == 0
    {
      assert d.book.Quantity(s) == Ledgers.NetBought(d.broker.fills, s);
      if s != symbol {
        NoneOfOthers(d.broker.fills, symbol, s);
      }
    }
  }

  lemma MoneyOfDesk(d: Ledgers.Desk, opening: Paise, symbol: Symbol)
    requires Quiet(d, opening)
    ensures d.book.cash == opening + PB.CashFlows(d.broker.fills)
    ensures d.book.Quantity(symbol) == Ledgers.NetBought(d.broker.fills, symbol)
  {
    hide Ledgers.Mirrors, Ledgers.SameRequests, Ledgers.NetBought, PB.CashFlows, Runs.Rests, Runs.Done, Runs.Registered;
  }

  lemma InsideIsQuiet(cfg: Config, bt: Bt, opening: Paise, symbol: Symbol)
    requires Inside(cfg, bt, opening, symbol)
    ensures Quiet(bt.desk, opening) && bt.desk.book.Valid()
  {
    hide Quiet;
  }

  /** What a bar decides follows from where its walk left the account. */
  lemma BarFollows(cfg: Config, bt: Bt, opening: Paise, symbol: Symbol, c: Candle, advise: Option<Position> -> Advice,
        t: Timestamp)
    requires cfg.Valid() && Quotable(c) && Between(cfg, bt, opening, symbol, t) && t < c.timestamp
    ensures bt.Valid()
    ensures var walked, r := WalkBar(cfg, bt, symbol, c), Bar(cfg, bt, symbol, c, false, advise);
      r.Success? && AllIn(r.value.desk.broker.fills, symbol) ==>
        && r.value.desk.book.Valid()
        && Follow(cfg, symbol, advise(PositionOf(r.value.desk.book, symbol)), r.value.Held(symbol),
            StandingOf(r.value), c.timestamp, r.value.pending)
  {
    hide Inside, StopKeysUpTo, WalkBar, Decide, Bt.Valid, StopAhead, PendingFits, BarKeepsGuard, BarKeepsPosition,
        StandingOf, Follow, AllFlat, AllIn, Quiet;
    InsideIsValid(cfg, bt, opening, symbol);
    WalkStage(cfg, bt, opening, symbol, c, t);
    var walked := WalkBar(cfg, bt, symbol, c);
    InsideIsValid(cfg, walked, opening, symbol);
    InsideIsQuiet(cfg, walked, opening, symbol);
    var advice, r := advise(PositionOf(walked.desk.book, symbol)), Bar(cfg, bt, symbol, c, false, advise);
    DecideKeepsRecord(cfg, walked, symbol, advice, c.timestamp);
    if r.Success? && AllIn(r.value.desk.broker.fills, symbol) {
      if walked.Held(symbol) == 0 {
        FlatWhereNothingIsHeld(walked.desk, opening, symbol);
      }
      DecideFollows(cfg, walked, symbol, advice, c.timestamp);
    }
  }

  /**
   * After every bar but the last of any run: nothing is pending without an allowed signal, an exit
   * flattens exactly what the executions left, and an entry is the greatest quantity that the limits
   * admit, judged by the point just drawn, the cash the executions left, the last point before the day
   * began, the highest point, the streak and the orders of the last minute.
   */
  lemma DecisionsFollowSignals<P(!new)>(cfg: Config, strategy: Strategy<P>, gate: Gate, candles: seq<Candle>, n: nat)
    requires cfg.Valid() && candles != [] && AllQuotable(candles) && n + 1 < |candles|
    requires Increasing(candles) && WellNamed(strategy)
    requires Run(cfg, strategy, gate, candles, n + 1).Success?
    ensures var after, symbol := Run(cfg, strategy, gate, candles, n + 1).value, candles[0].symbol;
      var fills, advice := after.desk.broker.fills, AdviceAt(strategy, gate, candles, symbol, n,
          PositionOf(after.desk.book, symbol));
      && |after.curve| == n + 1 && IsHighest(after.peak, cfg.openingCash, after.curve)
      && Follow(cfg, symbol, advice, Ledgers.NetBought(fills, symbol),
                Standing(after.curve[n].equity, cfg.openingCash + PB.CashFlows(fills),
                         EquityBefore(cfg.openingCash, after.curve, FirstOfDay(candles, n + 1)),
                         after.peak, after.streak.losses, Times(fills)),
                candles[n].timestamp, after.pending)
  {
    hide Between, Bar, Bt.Valid, AllIn, Follow, Ledgers.NetBought, PB.CashFlows, HasHeard, IsHighest, Equity,
        FirstOfDay, UtcDay, Risk.LastMinute, Remembers, Times;
    var symbol := candles[0].symbol;
    var before, after := Run(cfg, strategy, gate, candles, n).value, Run(cfg, strategy, gate, candles, n + 1).value;
    EveryBarIsGuarded(cfg, strategy, gate, candles, n);
    EveryBarIsGuarded(cfg, strategy, gate, candles, n + 1);
    BetweenIsQuiet(cfg, after, cfg.openingCash, symbol, candles[n].timestamp);
    RunsStayIn(cfg, strategy, gate, candles, n + 1);
    RunsKeepRecords(cfg, strategy, gate, candles, n + 1);
    MoneyOfDesk(after.desk, cfg.openingCash, symbol);
    BarFollows(cfg, before, cfg.openingCash, symbol, candles[n], Advisor(strategy, gate, candles, symbol, n),
               if n == 0 then candles[0].timestamp - 1 else candles[n - 1].timestamp);
    OrdersAreExecutions(cfg, strategy, gate, candles, n + 1);
    SameLastMinute(after.desk.oms.submissions, Times(after.desk.broker.fills), candles[n].timestamp);
    FollowSeesTheLastMinute(cfg, symbol, AdviceAt(strategy, gate, candles, symbol, n, PositionOf(after.desk.book,
        symbol)), after.Held(symbol),
                            StandingOf(after), Times(after.desk.broker.fills), candles[n].timestamp, after.pending);
  }

  /** Only the last minute of what was sent matters. */
  lemma FollowSeesTheLastMinute(cfg: Config, symbol: Symbol, advice: Advice, held: int, s: Standing,
        sent: seq<Timestamp>, now: Timestamp, pending: Option<Pending>)
    requires cfg.Valid() && Risk.LastMinute(s.sent, now) == Risk.LastMinute(sent, now)
    ensures Follow(cfg, symbol, advice, held, s, now, pending) == Follow(cfg, symbol, advice, held, s.(sent := sent),
        now, pending)
  {
    hide Risk.LastMinute, Affords, Leaves, Enters, Risk.LossHalts;
    assert MayEnter(cfg.limits, s.equity, s.first, s.peak, s.losses, s.sent, now) == MayEnter(cfg.limits, s.equity,
        s.first, s.peak, s.losses, sent, now);
    hide MayEnter;
  }

  lemma BetweenIsQuiet(cfg: Config, bt: Bt, opening: Paise, symbol: Symbol, t: Timestamp)
    requires Between(cfg, bt, opening, symbol, t)
    ensures Quiet(bt.desk, opening) && bt.desk.book.Valid()
  {
    hide Quiet;
  }
}
