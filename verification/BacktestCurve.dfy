// What a backtest records at every close, in terms of what was executed: equity, peak, the day's baseline, the losing streak.
module BacktestCurves {
  import opened Money
  import opened Domain
  import opened Portfolios
  import opened RiskEngines
  import opened Backtests
  import opened BacktestRuns
  import opened BacktestExecutions
  import Ledgers
  import Oms
  import Risk
  import Pipelines
  import Sizing
  import PB = PaperBrokers
  import Runs = PaperBrokerRuns

  // ----- One symbol -----

  /** Every execution was in one symbol. */
  predicate AllIn(fills: seq<Fill>, symbol: Symbol) {
    forall f :: f in fills ==> f.symbol == symbol
  }

  lemma {:induction false} NoneOfOthers(fills: seq<Fill>, symbol: Symbol, other: Symbol)
    requires AllIn(fills, symbol) && other != symbol
    ensures Ledgers.NetBought(fills, other) == 0
  {
    if fills != [] {
      NoneOfOthers(fills[..|fills| - 1], symbol, other);
    }
  }

  lemma {:induction false} OneHolding(symbols: seq<Symbol>, positions: map<Symbol, Position>, symbol: Symbol)
    requires Distinct(symbols) && forall s :: s in symbols ==> s in positions && (s != symbol ==> positions[s].quantity == 0)
    ensures Total(Market, symbols,
        positions) == if symbol in symbols then positions[symbol].quantity * positions[symbol].lastPrice else 0
  {
    if symbols != [] {
      var last := |symbols| - 1;
      OneHolding(symbols[..last], positions, symbol);
      FlatIsWorthless(positions[symbols[last]]);
      assert symbols[last] == symbol ==> symbol !in symbols[..last];
    }
  }

  lemma FlatIsWorthless(p: Position)
    ensures p.quantity == 0 ==> Value(Market, p) == 0
  {
  }

  /** The opening cash, what the executions moved, and what they left in hand at a price. */
  function Worth(opening: Paise, fills: seq<Fill>, symbol: Symbol, price: Paise): int {
    opening + PB.CashFlows(fills) + Ledgers.NetBought(fills, symbol) * price
  }

  predicate MarkedAt(book: Book, symbol: Symbol, price: Paise) {
    symbol in book.positions ==> book.positions[symbol].lastPrice == price
  }

  lemma EquityIsWorth(d: Ledgers.Desk, opening: Paise, symbol: Symbol, price: Paise)
    requires d.book.Valid() && Quiet(d, opening) && AllIn(d.broker.fills, symbol) && MarkedAt(d.book, symbol, price)
    ensures Equity(d.book) == Worth(opening, d.broker.fills, symbol, price)
  {
    hide Ledgers.Mirrors, Ledgers.SameRequests, Ledgers.NetBought, PB.CashFlows, Runs.Rests, Runs.Done,
        Runs.Registered, AllIn, Total;
    forall s | s in d.book.symbols && s != symbol
      ensures d.book.positions[s].quantity == 0
    {
      NoneOfOthers(d.broker.fills, symbol, s);
      assert d.book.Quantity(s) == Ledgers.NetBought(d.broker.fills, s);
    }
    OneHolding(d.book.symbols, d.book.positions, symbol);
    assert d.book.Quantity(symbol) == Ledgers.NetBought(d.broker.fills, symbol);
  }

  lemma AddsStaysIn(fraction: real, before: PB.State, after: PB.State, executes: bool, request: OrderRequest,
        price: Paise, symbol: Symbol)
    requires Adds(fraction, before, after, executes, request, price) && AllIn(before.fills, symbol)
    requires executes ==> request.symbol == symbol
    ensures AllIn(after.fills, symbol)
  {
    hide PB.Slipped;
  }

  lemma BarStaysIn(cfg: Config, before: Bt, after: Bt, opening: Paise, symbol: Symbol, c: Candle, t: Timestamp)
    requires cfg.Valid() && Between(cfg, before, opening, symbol, t) && BarExecutes(cfg, before, after, symbol, c)
    requires AllIn(before.desk.broker.fills, symbol)
    ensures AllIn(after.desk.broker.fills, symbol)
  {
    hide Inside, StopKeysUpTo, Adds, HeldAtOpen, StopAhead, AllIn, LotFloor, Stops, StopPrice;
    var b :| Opened(cfg, before, c, b) && Stopped(cfg, before, symbol, c, b, after.desk.broker);
    var held, ahead := HeldAtOpen(cfg, before, symbol), StopAhead(before);
    if Opens(cfg, before) {
      AddsStaysIn(cfg.broker.slippage, before.desk.broker.(clock := c.timestamp), b, true, PendingOrder(cfg,
          before.pending.value), c.open, symbol);
    }
    AddsStaysIn(cfg.broker.slippage, b, after.desk.broker, Stops(held, ahead, c), StopOrder(symbol, held, c.timestamp),
                StopPrice(held, ahead, c), symbol);
  }

  // ----- What the stages of a bar leave alone -----

  /** A bar's open and its extremes touch the ledgers, the orders and the stop, and grow the list of closed trades. */
  ghost predicate OnlyTrades(before: Bt, after: Bt) {
    && after == before.(desk := after.desk, pending := after.pending, openRisk := after.openRisk, sent := after.sent)
    && before.desk.book.trades <= after.desk.book.trades
  }

  lemma {:induction false} TradesGrow(book: Book, fills: seq<Fill>)
    ensures book.trades <= Ledgers.BookAll(book, fills).trades
  {
    hide Settle, CashFlow;
    if fills != [] {
      TradesGrow(book, fills[..|fills| - 1]);
    }
  }

  lemma PublishOnlyTrades(cfg: Config, bt: Bt, symbol: Symbol, price: nat)
    requires cfg.Valid() && bt.Valid()
    ensures OnlyTrades(bt, Publish(cfg, bt, symbol, price))
  {
    hide Oms.State.Valid, Ledgers.BookAll;
    TradesGrow(bt.desk.book, Ledgers.Produced(cfg.broker, bt.desk.broker, PB.Quote(symbol, price, None)));
  }

  lemma SendOnlyTrades(cfg: Config, bt: Bt, request: OrderRequest, now: Timestamp)
    requires cfg.Valid() && bt.Valid()
    ensures OnlyTrades(bt, Send(cfg, bt, request, now))
  {
    hide Oms.State.Valid, Ledgers.Step;
    SubmitKeepsValid(cfg, bt.desk, request, now);
  }

  lemma TouchOnlyTrades(cfg: Config, bt: Bt, symbol: Symbol, price: nat)
    requires cfg.Valid() && bt.Valid()
    ensures OnlyTrades(bt, Touch(cfg, bt, symbol, price))
    ensures MarkedAt(Touch(cfg, bt, symbol, price).desk.book, symbol, price)
  {
    hide Publish, Bt.Valid;
    PublishOnlyTrades(cfg, bt, symbol, price);
  }

  lemma OpenOnlyTrades(cfg: Config, bt: Bt, symbol: Symbol, c: Candle)
    requires cfg.Valid() && bt.Valid() && Quotable(c)
    ensures OnlyTrades(bt, OpenBar(cfg, bt, symbol, c))
  {
    hide Publish, Send, Bt.Valid, LotFloor;
    PublishOnlyTrades(cfg, bt, symbol, c.open);
    if bt.pending.Some? {
      var p, quoted := bt.pending.value, Publish(cfg, bt, symbol, c.open);
      if LotFloor(p.quantity, cfg.lotSize) > 0 {
        SendOnlyTrades(cfg, quoted, PendingOrder(cfg, p), c.timestamp);
      }
      PublishOnlyTrades(cfg, SubmitPending(cfg, quoted, p, c.timestamp), symbol, c.open);
    }
  }

  lemma ExtremeOnlyTrades(cfg: Config, bt: Bt, symbol: Symbol, price: nat, now: Timestamp)
    requires cfg.Valid() && bt.Valid()
    ensures OnlyTrades(bt, Extreme(cfg, bt, symbol, price, now))
  {
    hide Publish, Send, Touch, Bt.Valid, Sizing.IsStopTriggered;
    TouchOnlyTrades(cfg, bt, symbol, price);
    var touched := Touch(cfg, bt, symbol, price);
    var held := touched.Held(symbol);
    if touched.openRisk.Some? && held != 0 && Sizing.IsStopTriggered(price, touched.openRisk.value.stop,
        touched.openRisk.value.direction) {
      var request := Pipelines.MarketOrder(STOP_ID, symbol, if held > 0 then SELL else BUY, Abs(held), now);
      SendOnlyTrades(cfg, touched, request, now);
      PublishOnlyTrades(cfg, Send(cfg, touched, request, now), symbol, price);
    }
  }

  lemma ExtremesOnlyTrades(cfg: Config, bt: Bt, symbol: Symbol, c: Candle)
    requires cfg.Valid() && bt.Valid() && Quotable(c)
    ensures OnlyTrades(bt, Extremes(cfg, bt, symbol, c))
  {
    hide Extreme, Bt.Valid;
    var isShort := bt.Held(symbol) < 0;
    var first := Extreme(cfg, bt, symbol, if isShort then c.high else c.low, c.timestamp);
    ExtremeOnlyTrades(cfg, bt, symbol, if isShort then c.high else c.low, c.timestamp);
    ExtremeOnlyTrades(cfg, first, symbol, if isShort then c.low else c.high, c.timestamp);
  }

  // ----- What a bar records -----

  /** The losing streak heard of some more trades. */
  ghost predicate Heard(limit: int, before: Streak, after: Streak, trades: seq<ClosedTrade>) {
    after == RecordTrades(limit, before, trades)
  }

  /** What a finished walk has put on record. */
  ghost predicate OnRecord(cfg: Config, before: Bt, after: Bt, symbol: Symbol, c: Candle)
    requires after.desk.book.Valid() && before.desk.book.Valid()
  {
    var equity := Equity(after.desk.book);
    && after.curve == before.curve + [Point(c.timestamp, equity)]
    && after.peak == Max(before.peak, equity)
    && after.barsInMarket == before.barsInMarket + (if after.Held(symbol) != 0 then 1 else 0)
    && after.day == Some(UtcDay(c.timestamp))
    && after.startOfDay == (if before.day == Some(UtcDay(c.timestamp)) then before.startOfDay else Equity(before.desk.book))
    && MarkedAt(after.desk.book, symbol, c.close)
    && before.tradesSeen <= |after.desk.book.trades| == after.tradesSeen
    && before.desk.book.trades <= after.desk.book.trades
    && Heard(cfg.limits.maxConsecutiveLosses, before.streak, after.streak, after.desk.book.trades[before.tradesSeen..])
  }

  lemma WalkRecords(cfg: Config, bt: Bt, symbol: Symbol, c: Candle)
    requires cfg.Valid() && bt.Valid() && Quotable(c)
    ensures OnRecord(cfg, bt, WalkBar(cfg, bt, symbol, c), symbol, c)
  {
    hide OpenBar, Extremes, Touch, Equity, RecordTrades, TrailedStop, Oms.State.Valid, Book.Valid;
    var begun := BeginBar(bt, c.timestamp);
    OpenOnlyTrades(cfg, begun, symbol, c);
    var quoted := OpenBar(cfg, begun, symbol, c);
    ExtremesOnlyTrades(cfg, quoted, symbol, c);
    TouchOnlyTrades(cfg, Extremes(cfg, quoted, symbol, c), symbol, c.close);
  }

  lemma DecideKeepsRecord(cfg: Config, bt: Bt, symbol: Symbol, advice: Advice, now: Timestamp)
    requires bt.Valid()
    ensures var r := Decide(cfg, bt, symbol, advice, now);
      r.Success? ==>
        && r.value.desk.book == bt.desk.book && r.value.desk.broker == bt.desk.broker && r.value.curve == bt.curve
        && r.value.peak == bt.peak && r.value.barsInMarket == bt.barsInMarket
        && r.value.day == bt.day && r.value.startOfDay == bt.startOfDay && r.value.tradesSeen == bt.tradesSeen
        && (r.value.streak == bt.streak || r.value.streak == Cooled(cfg.limits.consecutiveLossCooldownMs, bt.streak, now))
  {
    hide PlanOrder, Bt.Valid, Cooled, Oms.Recent;
  }

  // ----- The first bar of a day -----

  /** A day of the backtest turns at midnight of universal time, not of India. */
  lemma DayTurnsAtUniversalMidnight(now: Timestamp)
    ensures UtcDay(now) != UtcDay(now - 1) <==> now % 86_400_000 == 0
  {
  }

  /** The first bar of the day that the last of some bars belongs to. */
  function FirstOfDay(candles: seq<Candle>, n: nat): (k: nat)
    requires 1 <= n <= |candles|
    ensures k < n
    ensures forall i :: k <= i < n ==> UtcDay(candles[i].timestamp) == UtcDay(candles[n - 1].timestamp)
    ensures k > 0 ==> UtcDay(candles[k - 1].timestamp) != UtcDay(candles[n - 1].timestamp)
  {
    if n == 1 || UtcDay(candles[n - 2].timestamp) != UtcDay(candles[n - 1].timestamp) then n - 1
    else FirstOfDay(candles, n - 1)
  }

  /** The equity before a bar: the last point drawn, or the opening cash. */
  function EquityBefore(opening: Paise, curve: seq<Point>, k: nat): Paise
    requires k <= |curve|
  {
    if k == 0 then opening else curve[k - 1].equity
  }

  predicate IsHighest(peak: Paise, opening: Paise, curve: seq<Point>) {
    && peak >= opening && (forall i :: 0 <= i < |curve| ==> curve[i].equity <= peak)
    && (peak == opening || exists i :: 0 <= i < |curve| && curve[i].equity == peak)
  }

  lemma HighestSoFar(peak: Paise, opening: Paise, curve: seq<Point>, p: Point)
    requires IsHighest(peak, opening, curve)
    ensures IsHighest(Max(peak, p.equity), opening, curve + [p])
  {
    var longer := curve + [p];
    assert longer[|curve|] == p;
    if peak != opening && peak >= p.equity {
      var i :| 0 <= i < |curve| && curve[i].equity == peak;
      assert longer[i] == curve[i];
    }
  }

  // ----- The losing streak -----

  /** The trades among what a breaker was told. */
  function TradesIn(events: seq<StreakEvent>): seq<StreakEvent> {
    if events == [] then []
    else
      var n := |events| - 1;
      TradesIn(events[..n]) + if events[n].Trade? then [events[n]] else []
  }

  function Outcomes(trades: seq<ClosedTrade>): seq<StreakEvent> {
    seq(|trades|, i requires 0 <= i < |trades| => Trade(trades[i].pnl, trades[i].closedAt))
  }

  /** A breaker that was told of some closed trades, once each and in order, and looked at in between. */
  ghost predicate HasHeard(limit: int, cooldown: int, streak: Streak, trades: seq<ClosedTrade>) {
    exists events :: Tells(limit, cooldown, streak, trades, events)
  }

  predicate Tells(limit: int, cooldown: int, streak: Streak, trades: seq<ClosedTrade>, events: seq<StreakEvent>) {
    StreakRun(limit, cooldown, events) == streak && TradesIn(events) == Outcomes(trades)
  }

  lemma TellOneMore(limit: int, cooldown: int, streak: Streak, trades: seq<ClosedTrade>, trade: ClosedTrade)
    requires HasHeard(limit, cooldown, streak, trades)
    ensures HasHeard(limit, cooldown, RiskEngines.Recorded(limit, streak, trade.pnl, trade.closedAt), trades + [trade])
  {
    var events :| Tells(limit, cooldown, streak, trades, events);
    var e := Trade(trade.pnl, trade.closedAt);
    assert (events + [e])[..|events|] == events;
    assert Outcomes(trades + [trade]) == Outcomes(trades) + [e];
    assert Tells(limit, cooldown, RiskEngines.Recorded(limit, streak, trade.pnl, trade.closedAt), trades + [trade],
        events + [e]);
  }

  lemma LookOnceMore(limit: int, cooldown: int, streak: Streak, trades: seq<ClosedTrade>, now: Timestamp)
    requires HasHeard(limit, cooldown, streak, trades)
    ensures HasHeard(limit, cooldown, Cooled(cooldown, streak, now), trades)
  {
    hide Outcomes;
    var events :| Tells(limit, cooldown, streak, trades, events);
    assert (events + [Look(now)])[..|events|] == events;
    assert TradesIn(events + [Look(now)]) == TradesIn(events);
    assert Tells(limit, cooldown, Cooled(cooldown, streak, now), trades, events + [Look(now)]);
  }

  lemma {:induction false} TellTheRest(limit: int, cooldown: int, streak: Streak, heard: seq<ClosedTrade>,
        news: seq<ClosedTrade>)
    requires HasHeard(limit, cooldown, streak, heard)
    ensures HasHeard(limit, cooldown, RecordTrades(limit, streak, news), heard + news)
  {
    hide HasHeard;
    if news == [] {
      assert heard + news == heard;
    } else {
      var n := |news| - 1;
      TellTheRest(limit, cooldown, streak, heard, news[..n]);
      TellOneMore(limit, cooldown, RecordTrades(limit, streak, news[..n]), heard + news[..n], news[n]);
      assert heard + news[..n] + [news[n]] == heard + news;
    }
  }

  lemma NothingHeardYet(limit: int, cooldown: int)
    ensures HasHeard(limit, cooldown, NO_LOSSES, [])
  {
    assert Tells(limit, cooldown, NO_LOSSES, [], []);
  }

  // ----- Whole runs -----

  /** What a run's records say after some bars. */
  ghost predicate Records(cfg: Config, bt: Bt, candles: seq<Candle>, n: nat)
    requires n <= |candles|
  {
    && |bt.curve| == n
    && IsHighest(bt.peak, cfg.openingCash, bt.curve)
    && (if n == 0 then bt.day.None?
        else bt.day == Some(UtcDay(candles[n - 1].timestamp))
             && bt.startOfDay == EquityBefore(cfg.openingCash, bt.curve, FirstOfDay(candles, n)))
    && bt.desk.book.Valid() && Equity(bt.desk.book) == EquityBefore(cfg.openingCash, bt.curve, n)
    && bt.tradesSeen == |bt.desk.book.trades|
    && HasHeard(cfg.limits.maxConsecutiveLosses, cfg.limits.consecutiveLossCooldownMs, bt.streak, bt.desk.book.trades)
  }

  lemma StartRecords(cfg: Config, candles: seq<Candle>)
    requires cfg.Valid()
    ensures Records(cfg, Start(cfg), candles, 0)
  {
    hide HasHeard;
    NothingHeardYet(cfg.limits.maxConsecutiveLosses, cfg.limits.consecutiveLossCooldownMs);
  }

  lemma WalkKeepsRecords(cfg: Config, before: Bt, after: Bt, symbol: Symbol, candles: seq<Candle>, n: nat)
    requires n < |candles| && Records(cfg, before, candles, n) && after.desk.book.Valid()
    requires OnRecord(cfg, before, after, symbol, candles[n])
    ensures Records(cfg, after, candles, n + 1)
  {
    hide HasHeard, IsHighest, Equity, UtcDay, RecordTrades, Book.Valid;
    var c := candles[n];
    HighestSoFar(before.peak, cfg.openingCash, before.curve, Point(c.timestamp, Equity(after.desk.book)));
    var heard, news := before.desk.book.trades, after.desk.book.trades[before.tradesSeen..];
    TellTheRest(cfg.limits.maxConsecutiveLosses, cfg.limits.consecutiveLossCooldownMs, before.streak, heard, news);
    assert heard + news == after.desk.book.trades;
  }

  lemma DecideKeepsRecords(cfg: Config, bt: Bt, symbol: Symbol, advice: Advice, now: Timestamp, candles: seq<Candle>, n: nat)
    requires bt.Valid() && n <= |candles| && Records(cfg, bt, candles, n)
    ensures var r := Decide(cfg, bt, symbol, advice, now); r.Success? ==> Records(cfg, r.value, candles, n)
  {
    hide HasHeard, IsHighest, Equity, UtcDay, Decide, Cooled, Oms.State.Valid;
    DecideKeepsRecord(cfg, bt, symbol, advice, now);
    LookOnceMore(cfg.limits.maxConsecutiveLosses, cfg.limits.consecutiveLossCooldownMs, bt.streak, bt.desk.book.trades, now);
  }

  /**
   * After any number of bars of any run: the peak is the highest of the opening cash and the points
   * drawn; the day's baseline is the last point drawn before the day's first bar; and the breaker has
   * been told of every closed trade, once and in order.
   */
  lemma {:induction false} RunsKeepRecords<P(!new)>(cfg: Config, strategy: Strategy<P>, gate: Gate,
        candles: seq<Candle>, n: nat)
    requires cfg.Valid() && candles != [] && AllQuotable(candles) && n <= |candles|
    ensures var r := Run(cfg, strategy, gate, candles, n); r.Success? ==> Records(cfg, r.value, candles, n)
  {
    hide Records, OnRecord, WalkBar, Decide, Bt.Valid;
    if n == 0 {
      StartRecords(cfg, candles);
    } else {
      RunsKeepRecords(cfg, strategy, gate, candles, n - 1);
      var r, symbol, c := Run(cfg, strategy, gate, candles, n - 1), candles[0].symbol, candles[n - 1];
      if r.Success? {
        var walked := WalkBar(cfg, r.value, symbol, c);
        WalkRecords(cfg, r.value, symbol, c);
        BookIsValid(walked);
        WalkKeepsRecords(cfg, r.value, walked, symbol, candles, n - 1);
        DecideKeepsRecords(cfg, walked, symbol,
                           Advisor(strategy, gate, candles, symbol, n - 1)(PositionOf(walked.desk.book, symbol)),
                               c.timestamp, candles, n);
      }
    }
  }

  lemma BookIsValid(bt: Bt)
    requires bt.Valid()
    ensures bt.desk.book.Valid()
  {
  }

  // ----- The equity curve -----

  lemma {:induction false} RunsStayIn<P(!new)>(cfg: Config, strategy: Strategy<P>, gate: Gate, candles: seq<Candle>, n: nat)
    requires cfg.Valid() && candles != [] && AllQuotable(candles) && n <= |candles|
    requires Increasing(candles) && WellNamed(strategy)
    ensures var r := Run(cfg, strategy, gate, candles, n); r.Success? ==> AllIn(r.value.desk.broker.fills, candles[0].symbol)
  {
    hide Between, Run, BarExecutes, Bt.Valid;
    var symbol := candles[0].symbol;
    var r := Run(cfg, strategy, gate, candles, n);
    if n == 0 {
      NothingExecutedYet(cfg, strategy, gate, candles);
    } else if r.Success? {
      RunsStayIn(cfg, strategy, gate, candles, n - 1);
      EveryBarIsGuarded(cfg, strategy, gate, candles, n - 1);
      BarsExecuteWhatWasDecided(cfg, strategy, gate, candles, n - 1);
      BarStaysIn(cfg, Run(cfg, strategy, gate, candles, n - 1).value, r.value, cfg.openingCash, symbol, candles[n - 1],
                 if n == 1 then candles[0].timestamp - 1 else candles[n - 2].timestamp);
    }
  }

  lemma NothingExecutedYet<P(!new)>(cfg: Config, strategy: Strategy<P>, gate: Gate, candles: seq<Candle>)
    requires cfg.Valid() && candles != [] && AllQuotable(candles)
    ensures Run(cfg, strategy, gate, candles, 0) == Success(Start(cfg)) && Start(cfg).desk.broker.fills == []
  {
  }

  /** A bar leaves its walk's book and adds its walk's point, whatever it decides. */
  lemma BarDraws<P(!new)>(cfg: Config, strategy: Strategy<P>, gate: Gate, candles: seq<Candle>, n: nat)
    requires cfg.Valid() && candles != [] && AllQuotable(candles) && n < |candles|
    requires Run(cfg, strategy, gate, candles, n).Success? && Run(cfg, strategy, gate, candles, n + 1).Success?
    ensures var before, after := Run(cfg, strategy, gate, candles, n).value, Run(cfg, strategy, gate, candles, n + 1).value;
      && after.desk.book.Valid() && MarkedAt(after.desk.book, candles[0].symbol, candles[n].close)
      && after.curve == before.curve + [Point(candles[n].timestamp, Equity(after.desk.book))]
      && after.barsInMarket == before.barsInMarket + if after.Held(candles[0].symbol) != 0 then 1 else 0
  {
    hide WalkBar, Decide, Bt.Valid, Equity, MarkedAt, Heard;
    var before, symbol, c := Run(cfg, strategy, gate, candles, n).value, candles[0].symbol, candles[n];
    var walked := WalkBar(cfg, before, symbol, c);
    WalkRecords(cfg, before, symbol, c);
    BookIsValid(walked);
    DecideKeepsRecord(cfg, walked, symbol, Advisor(strategy, gate, candles, symbol, n)(PositionOf(walked.desk.book,
        symbol)), c.timestamp);
  }

  /**
   * The point of every bar of every run is what the account is worth at that bar's close: the opening
   * cash, what the executions so far moved, and what they left in hand at the close.
   */
  lemma PointsAreWorth<P(!new)>(cfg: Config, strategy: Strategy<P>, gate: Gate, candles: seq<Candle>, n: nat)
    requires cfg.Valid() && candles != [] && AllQuotable(candles) && n < |candles|
    requires Increasing(candles) && WellNamed(strategy)
    ensures var before, after, symbol := Run(cfg, strategy, gate, candles, n), Run(cfg, strategy, gate, candles,
        n + 1), candles[0].symbol;
      after.Success? ==>
        && before.Success?
        && after.value.curve == before.value.curve +
             [Point(candles[n].timestamp, Worth(cfg.openingCash, after.value.desk.broker.fills, symbol, candles[n].close))]
        && after.value.barsInMarket == before.value.barsInMarket +
             if Ledgers.NetBought(after.value.desk.broker.fills, symbol) != 0 then 1 else 0
  {
    hide StopKeysUpTo, Run, Bt.Valid, Worth, Equity, Ledgers.Mirrors, Ledgers.SameRequests, Ledgers.NetBought,
        Runs.Sound, AllIn, MarkedAt;
    BarsExecuteWhatWasDecided(cfg, strategy, gate, candles, n);
    EveryBarIsGuarded(cfg, strategy, gate, candles, n + 1);
    RunsStayIn(cfg, strategy, gate, candles, n + 1);
    var after, symbol := Run(cfg, strategy, gate, candles, n + 1), candles[0].symbol;
    if after.Success? {
      BarDraws(cfg, strategy, gate, candles, n);
      EquityIsWorth(after.value.desk, cfg.openingCash, symbol, candles[n].close);
      assert after.value.Held(symbol) == Ledgers.NetBought(after.value.desk.broker.fills, symbol);
    }
  }
}
