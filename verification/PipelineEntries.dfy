// Which entries the pipeline places, and how large, in money: every limit and every budget spelled out.
module PipelineEntries {
  import opened Money
  import opened Domain
  import opened Portfolios
  import opened Risk
  import opened RiskEngines
  import opened Pipelines
  import opened PipelineSafety
  import Oms
  import Sizing

  /** How many positions are open. */
  function OpenCount(b: Book): nat
    requires b.Valid()
  {
    |OpenPositions(b.symbols, b.positions)|
  }

  /** The value held in a symbol, on either side. */
  function HeldValue(b: Book, symbol: Symbol): Paise {
    if symbol in b.positions then Abs(b.positions[symbol].quantity * b.positions[symbol].lastPrice) else 0
  }

  /** Nothing about the session or the account stands in the way of an entry in a symbol that is not held. */
  predicate MayEnter(limits: Limits, q: Pipe, marketOpen: bool, stale: bool, now: Timestamp)
    requires q.book.Valid()
  {
    && q.engagedAt.None? && marketOpen && !stale
    && !LossHalts(limits, Equity(q.book), q.startOfDay, q.peak)
    && q.streak.losses < limits.maxConsecutiveLosses
    && |LastMinute(q.submissions, now)| < limits.maxOrdersPerMinute
    && OpenCount(q.book) < limits.maxOpenPositions
  }

  /** The share of the equity an entry may lose at its stop: the budget, less for a weak signal, but a quarter at least. */
  function RiskShare(limits: Limits, signal: Signal): real {
    limits.riskPerTradeFraction * (if signal.strength > 0.25 then signal.strength else 0.25)
  }

  function LotSize(cfg: Config, symbol: Symbol): int {
    if symbol in cfg.lotSizes then cfg.lotSizes[symbol] else 1
  }

  /** A size that the risk budget, the position limit and the cash all pay for. */
  predicate PaysFor(cfg: Config, signal: Signal, equity: Paise, cash: Paise, lots: nat)
    requires signal.stopLoss.Some?
  {
    && lots * Abs(signal.referencePrice - signal.stopLoss.value) <= MulRate(equity, RiskShare(cfg.limits, signal))
    && lots * signal.referencePrice <= MulRate(equity, cfg.limits.maxPositionFraction)
    && lots * signal.referencePrice <= cash
  }

  /** A quantity no larger than some such size in whole lots, for which every exposure limit has room beside what is held. */
  ghost predicate Affords(cfg: Config, b: Book, symbol: Symbol, signal: Signal, k: nat)
    requires b.Valid() && signal.stopLoss.Some? && LotSize(cfg, symbol) >= 1
  {
    var equity, value := Equity(b), k * signal.referencePrice;
    && (exists lots: nat :: k <= lots && lots % LotSize(cfg, symbol) == 0 && PaysFor(cfg, signal, equity, b.cash, lots))
    && HeldValue(b, symbol) + value <= MulRate(equity, cfg.limits.maxSymbolConcentrationFraction)
    && Sum(Gross, b) + value <= MulRate(equity, cfg.limits.maxGrossExposureFraction)
    && (if signal.direction.LONG? then Sum(Market, b) else -Sum(Market, b)) + value <= MulRate(equity,
        cfg.limits.maxNetExposureFraction)
  }

  lemma {:induction false} CountsOpen(open: seq<Position>)
    requires forall p :: p in open ==> p.quantity != 0
    ensures ComputeExposure(open).openPositions == |open|
  {
    if open != [] {
      CountsOpen(open[..|open| - 1]);
    }
  }

  /** The exposure the risk engine sees is the book's. */
  lemma AccountExposure(q: Pipe, symbol: Symbol)
    requires q.book.Valid()
    ensures var e := ComputeExposure(AccountOf(q).positions);
      && e.gross == Sum(Gross, q.book) && e.net == Sum(Market, q.book)
      && e.Of(symbol) == HeldValue(q.book, symbol) && e.openPositions == OpenCount(q.book)
  {
    hide Equity, OpenPositions, ComputeExposure, Total;
    ExposureOfBook(q.book.symbols, q.book.positions);
    CountsOpen(OpenPositions(q.book.symbols, q.book.positions));
  }

  function EntryContext(symbol: Symbol, signal: Signal, size: nat, now: Timestamp, marketOpen: bool, stale: bool): Context {
    Context(MarketOrder(signal.strategyId, symbol, if signal.direction.LONG? then BUY else SELL, size, signal.timestamp),
            signal.referencePrice, signal.stopLoss, now, marketOpen, stale)
  }

  lemma NothingObjects(cfg: Config, q: Pipe, symbol: Symbol, signal: Signal, size: nat, now: Timestamp,
        marketOpen: bool, stale: bool)
    requires q.book.Valid() && signal.stopLoss.Some? && HeldValue(q.book, symbol) == 0
    ensures StateRejections(cfg.limits, q.engagedAt.Some?, EntryContext(symbol, signal, size, now, marketOpen, stale),
        AccountOf(q)) == [] <==>
            MayEnter(cfg.limits, q, marketOpen, stale, now)
  {
    hide Equity, MulRate, StateRejections, LastMinute, ComputeExposure, OpenCount, OpenPositions;
    AccountExposure(q, symbol);
    var engaged, context, account := q.engagedAt.Some?, EntryContext(symbol, signal, size, now, marketOpen, stale),
        AccountOf(q);
    var rejections := StateRejections(cfg.limits, engaged, context, account);
    forall code
      ensures code in rejections <==> Objects(cfg.limits, engaged, context, account, code)
    {
      ControlsObjectExactly(cfg.limits, engaged, context, account, code);
    }
    if rejections != [] {
      assert rejections[0] in rejections;
    }
    assert KillSwitchEngaged in rejections <==> engaged;
    assert MarketClosed in rejections <==> !marketOpen;
    assert StaleMarketData in rejections <==> stale;
    assert DailyLossLimit in rejections <==> DayLost(cfg.limits, account);
    assert MaxDrawdown in rejections <==> DrawnDown(cfg.limits, account);
    assert ConsecutiveLossBreaker in rejections <==> q.streak.losses >= cfg.limits.maxConsecutiveLosses;
    assert OrderRateBreaker in rejections <==> |LastMinute(q.submissions, now)| >= cfg.limits.maxOrdersPerMinute;
    assert MaxOpenPositions in rejections <==> OpenCount(q.book) >= cfg.limits.maxOpenPositions;
  }

  lemma ExposureLimits(cfg: Config, q: Pipe, symbol: Symbol, signal: Signal, size: nat, now: Timestamp,
        marketOpen: bool, stale: bool, k: nat)
    requires q.book.Valid() && signal.stopLoss.Some? && signal.referencePrice > 0 && k > 0
    ensures var equity, value := Equity(q.book), k * signal.referencePrice;
      WithinCaps(k, SizeCaps(cfg.limits, EntryContext(symbol, signal, size, now, marketOpen, stale), AccountOf(q)),
          signal.referencePrice) <==>
        && value <= MulRate(equity, cfg.limits.maxPositionFraction)
        && HeldValue(q.book, symbol) + value <= MulRate(equity, cfg.limits.maxSymbolConcentrationFraction)
        && Sum(Gross, q.book) + value <= MulRate(equity, cfg.limits.maxGrossExposureFraction)
        && (if signal.direction.LONG? then Sum(Market, q.book) else -Sum(Market, q.book)) + value
           <= MulRate(equity, cfg.limits.maxNetExposureFraction)
        && value <= q.book.cash
  {
    hide Equity, MulRate, WithinCaps, SizeCaps, ComputeExposure, OpenPositions, Sum;
    AccountExposure(q, symbol);
    CapsInMoney(cfg.limits, EntryContext(symbol, signal, size, now, marketOpen, stale), AccountOf(q), k, signal.referencePrice);
    StrictProduct(0, k, signal.referencePrice);
  }

  lemma WholeAtUnitRate(amount: Paise)
    ensures MulRate(amount, 1.0) == amount
  {
    assert amount as real * 1.0 == amount as real;
  }

  lemma AdmittedIsPaidFor(cfg: Config, q: Pipe, signal: Signal, symbol: Symbol, lots: nat)
    requires q.book.Valid() && signal.stopLoss.Some?
    ensures (forall cap :: Sizing.Admits(SizingInput(cfg, q, signal, symbol), cap, lots)) <==>
            PaysFor(cfg, signal, Equity(q.book), q.book.cash, lots)
  {
    hide Equity, MulRate;
    var input := SizingInput(cfg, q, signal, symbol);
    WholeAtUnitRate(q.book.cash);
    assert input.riskFraction == RiskShare(cfg.limits, signal);
    assert Sizing.Budget(input, Sizing.Cash) == q.book.cash;
    hide RiskShare;
    assert PaysFor(cfg, signal, Equity(q.book), q.book.cash, lots) <==>
           Sizing.Admits(input, Sizing.Risk, lots) && Sizing.Admits(input, Sizing.PositionCap,
               lots) && Sizing.Admits(input, Sizing.Cash, lots);
  }

  lemma SizeIsExact(cfg: Config, q: Pipe, signal: Signal, symbol: Symbol, k: nat)
    requires q.book.Valid() && signal.stopLoss.Some? && k > 0 && LotSize(cfg, symbol) >= 1
    requires Sizing.Refusal(SizingInput(cfg, q, signal, symbol)).None?
    ensures k <= Sizing.SizePosition(SizingInput(cfg, q, signal, symbol)).value.quantity <==>
            exists lots: nat :: k <= lots && lots % LotSize(cfg, symbol) == 0 && PaysFor(cfg, signal, Equity(q.book),
                q.book.cash, lots)
  {
    hide Sizing.SizePosition, Equity, MulRate, Sizing.Refusal, PaysFor;
    var input := SizingInput(cfg, q, signal, symbol);
    var size := Sizing.SizePosition(input).value.quantity;
    if k <= size {
      Sizing.SizeIsGreatest(input, size);
      AdmittedIsPaidFor(cfg, q, signal, symbol, size);
    }
    forall lots: nat | k <= lots && lots % LotSize(cfg, symbol) == 0 && PaysFor(cfg, signal, Equity(q.book), q.book.cash, lots)
      ensures k <= size
    {
      AdmittedIsPaidFor(cfg, q, signal, symbol, lots);
      Sizing.SizeIsGreatest(input, lots);
    }
  }

  lemma SmallerIsPaidFor(k: nat, lots: nat, price: Paise, most: Paise)
    requires k <= lots && price > 0 && lots * price <= most
    ensures k * price <= most
  {
    assert (lots - k) * price >= 0;
  }

  lemma SizePays(cfg: Config, q: Pipe, signal: Signal, symbol: Symbol, k: nat, size: nat)
    requires q.book.Valid() && signal.stopLoss.Some? && k > 0 && size > 0 && signal.referencePrice > 0 && LotSize(cfg,
        symbol) >= 1
    requires exists lots: nat :: size <= lots && lots % LotSize(cfg, symbol) == 0 && PaysFor(cfg, signal,
        Equity(q.book), q.book.cash, lots)
    ensures k <= size ==> k * signal.referencePrice <= MulRate(Equity(q.book), cfg.limits.maxPositionFraction)
    ensures k <= size ==> k * signal.referencePrice <= q.book.cash
  {
    hide Equity, MulRate, RiskShare;
    var equity, cash, price := Equity(q.book), q.book.cash, signal.referencePrice;
    var lots: nat :| size <= lots && lots % LotSize(cfg, symbol) == 0 && PaysFor(cfg, signal, equity, cash, lots);
    if k <= size {
      SmallerIsPaidFor(k, lots, price, MulRate(equity, cfg.limits.maxPositionFraction));
      SmallerIsPaidFor(k, lots, price, cash);
    }
  }

  lemma ApprovalIsExact(cfg: Config, q: Pipe, symbol: Symbol, signal: Signal, size: nat, now: Timestamp,
        marketOpen: bool, stale: bool, k: nat)
    requires q.book.Valid() && q.book.Quantity(symbol) == 0 && signal.stopLoss.Some? && signal.referencePrice > 0 && k > 0 && size > 0
    requires LotSize(cfg, symbol) >= 1
    requires k <= size ==> k * signal.referencePrice <= MulRate(Equity(q.book), cfg.limits.maxPositionFraction)
    requires k <= size ==> k * signal.referencePrice <= q.book.cash
    requires k <= size <==>
             exists lots: nat :: k <= lots && lots % LotSize(cfg, symbol) == 0 && PaysFor(cfg, signal, Equity(q.book),
                 q.book.cash, lots)
    ensures k <= Evaluated(cfg.limits, q.engagedAt.Some?, EntryContext(symbol, signal, size, now, marketOpen, stale),
        AccountOf(q)).approvedQuantity <==>
            MayEnter(cfg.limits, q, marketOpen, stale, now) && Affords(cfg, q.book, symbol, signal, k)
  {
    hide Equity, MulRate, WithinCaps, SizeCaps, StateRejections, Evaluated, MayEnter, PaysFor, Sum, AccountOf, Held;
    AccountHolds(q, symbol);
    NotHeldIsWorthless(q.book, symbol);
    NothingObjects(cfg, q, symbol, signal, size, now, marketOpen, stale);
    ExposureLimits(cfg, q, symbol, signal, size, now, marketOpen, stale, k);
    ApprovalIsGreatest(cfg.limits, q.engagedAt.Some?, EntryContext(symbol, signal, size, now, marketOpen, stale),
        AccountOf(q), k);
  }

  lemma NotHeldIsWorthless(b: Book, symbol: Symbol)
    requires b.Quantity(symbol) == 0
    ensures HeldValue(b, symbol) == 0
  {
  }

  /** What was placed covers a quantity. */
  predicate Reaches(placed: Option<OrderRequest>, k: nat) {
    placed.Some? && k <= placed.value.quantity
  }

  /** The lot size was usable, or the sizing failed on it. */
  lemma UsableLots(cfg: Config, q: Pipe, signal: Signal, symbol: Symbol)
    requires q.book.Valid() && signal.stopLoss.Some? && Sizing.Refusal(SizingInput(cfg, q, signal, symbol)).None?
    ensures LotSize(cfg, symbol) >= 1 && signal.referencePrice > 0
  {
    hide Equity, MulRate;
  }

  /**
   * A signal to enter on an observed account places the greatest quantity that every limit and every
   * budget admits, and nothing where they admit nothing or the symbol is held already.
   */
  lemma DecidedEntryIsGreatest(cfg: Config, q: Pipe, symbol: Symbol, signal: Signal, now: Timestamp, marketOpen: bool,
        stale: bool, k: nat)
    requires q.book.Valid() && !signal.direction.FLAT? && k > 0
    requires !Decided(cfg, q, symbol, signal, now, marketOpen, stale).1.SizingFailed?
    ensures q.book.Quantity(symbol) == 0 && signal.stopLoss.Some? ==> LotSize(cfg, symbol) >= 1
    ensures Reaches(Placed(Decided(cfg, q, symbol, signal, now, marketOpen, stale).1), k) <==>
            && q.book.Quantity(symbol) == 0 && signal.stopLoss.Some?
            && MayEnter(cfg.limits, q, marketOpen, stale, now) && Affords(cfg, q.book, symbol, signal, k)
  {
    hide Equity, MulRate, MayEnter, Affords, PaysFor, Evaluated, Sizing.SizePosition, AccountOf, RiskShare,
        SizingInput, LotSize;
    JudgedIsPlaced(cfg, q, symbol, signal, now, marketOpen, stale);
    if q.book.Quantity(symbol) == 0 && signal.stopLoss.Some? {
      var input := SizingInput(cfg, q, signal, symbol);
      UsableLots(cfg, q, signal, symbol);
      SizeIsExact(cfg, q, signal, symbol, k);
      var size := Sizing.SizePosition(input).value.quantity;
      if size > 0 {
        SizeIsExact(cfg, q, signal, symbol, size);
        SizePays(cfg, q, signal, symbol, k, size);
        ApprovalIsExact(cfg, q, symbol, signal, size, now, marketOpen, stale, k);
        ApprovedIsPositive(cfg.limits, q.engagedAt.Some?, EntryContext(symbol, signal, size, now, marketOpen, stale),
            AccountOf(q));
      } else {
        NoSizeNoEntry(cfg, q, symbol, signal, k);
      }
    }
  }

  lemma NoSizeNoEntry(cfg: Config, q: Pipe, symbol: Symbol, signal: Signal, k: nat)
    requires q.book.Valid() && signal.stopLoss.Some? && LotSize(cfg, symbol) >= 1
    requires !exists lots: nat :: k <= lots && lots % LotSize(cfg, symbol) == 0 && PaysFor(cfg, signal, Equity(q.book),
        q.book.cash, lots)
    ensures !Affords(cfg, q.book, symbol, signal, k)
  {
    hide Equity, MulRate, PaysFor, Sum, LotSize;
  }

  /** What observing a bar does to the streak and to the orders of the last minute: an elapsed pause ends, and nothing else. */
  lemma ObservationKeepsTheMinute(cfg: Config, p: Pipe, symbol: Symbol, candle: Candle)
    requires p.book.Valid()
    ensures var q := Observed(cfg, p, symbol, candle);
      && LastMinute(q.submissions, candle.timestamp) == LastMinute(p.submissions, candle.timestamp)
      && q.streak == Cooled(cfg.limits.consecutiveLossCooldownMs, p.streak, candle.timestamp)
  {
    hide Equity, Mark, AccountOf, Breaches, Oms.Recent, LastMinute, Cooled;
    var now := candle.timestamp;
    MarkKeepsCost(p.book, symbol, candle.close);
    LastMinuteIsRecent(p.submissions, now);
    LastMinuteIsRecent(Oms.Recent(p.submissions, now), now);
    Oms.ForgettingIsUnseen(p.submissions, now, now);
  }

  /** The account a bar is judged on: marked to the bar, its pause ended if it is over, and every order it sent still counted. */
  function JudgedOn(cfg: Config, p: Pipe, symbol: Symbol, candle: Candle): (q: Pipe)
    requires p.book.Valid()
    ensures q.book == Mark(p.book, symbol, candle.close) && q.book.Valid()
  {
    Observed(cfg, p, symbol, candle).(submissions := p.submissions,
        streak := Cooled(cfg.limits.consecutiveLossCooldownMs, p.streak, candle.timestamp))
  }

  /** A bar's entry, judged on the account marked to that bar. */
  lemma EntryIsGreatest(cfg: Config, p: Pipe, symbol: Symbol, candles: seq<Candle>, answers: Answers, k: nat)
    requires p.book.Valid() && candles != [] && answers.signal.Some? && !answers.signal.value.direction.FLAT? && k > 0
    requires !OnBar(cfg, p, symbol, candles, answers).1.SizingFailed?
    ensures var candle, signal := candles[|candles| - 1], answers.signal.value;
      var q := JudgedOn(cfg, p, symbol, candle);
      && (answers.allowed && q.book.Quantity(symbol) == 0 && signal.stopLoss.Some? ==> LotSize(cfg, symbol) >= 1)
      && (Reaches(Placed(OnBar(cfg, p, symbol, candles, answers).1), k) <==>
            && answers.allowed && q.book.Quantity(symbol) == 0 && signal.stopLoss.Some?
            && MayEnter(cfg.limits, q, answers.marketOpen, answers.dataIsStale, candle.timestamp)
            && Affords(cfg, q.book, symbol, signal, k))
  {
    hide Equity, MulRate, Affords, Observed, Decided, LotSize, Book.Quantity, LastMinute, LossHalts, OpenCount, Cooled;
    if answers.allowed {
      var candle := candles[|candles| - 1];
      DecidedEntryIsGreatest(cfg, Observed(cfg, p, symbol, candle), symbol, answers.signal.value, candle.timestamp,
                             answers.marketOpen, answers.dataIsStale, k);
      ObservationKeepsTheMinute(cfg, p, symbol, candle);
    }
  }

  /** An approval sends exactly what was staged under its key, if it is judged fit again, and unstages it either way. */
  lemma ApprovedAsStaged(cfg: Config, p: Pipe, key: Key, now: Timestamp, marketOpen: bool, stale: bool)
    requires p.book.Valid()
    ensures var (q, o) := OnApprove(cfg, p, key, now, marketOpen, stale);
      && q.book == p.book && q.engagedAt == p.engagedAt
      && ((forall a :: a in p.approvals ==> KeyOf(a) != key) ==> q == p && o.NoSignal?)
      && (o.Handed? ==> exists a :: a in p.approvals && KeyOf(a) == key && o.request == a.request
                                    && Judged(cfg, Looked(cfg, p, now), a.request, a.signal, now, marketOpen, stale).approved)
      && (o.RiskRejected? ==> exists a :: a in p.approvals && KeyOf(a) == key
                                    && !Judged(cfg, Looked(cfg, p, now), a.request, a.signal, now, marketOpen, stale).approved)
      && (o.NoSignal? || o.Handed? || o.RiskRejected?)
      && (DistinctKeys(p.approvals) ==> forall a :: a in q.approvals <==> a in p.approvals && KeyOf(a) != key)
  {
    hide Judged, Looked, KeyOf;
    LookingKeepsTheRest(cfg, p, now);
    var i := Find(p.approvals, key);
    if i < |p.approvals| {
      assert p.approvals[i] in p.approvals;
      if DistinctKeys(p.approvals) {
        DropTakesOne(p.approvals, key);
      }
    }
  }

  lemma LookingKeepsTheRest(cfg: Config, p: Pipe, now: Timestamp)
    ensures var q := Looked(cfg, p, now); q.book == p.book && q.engagedAt == p.engagedAt && q.approvals == p.approvals
  {
  }

  lemma DropTakesOne(approvals: seq<PendingApproval>, key: Key)
    requires DistinctKeys(approvals)
    ensures forall a :: a in Drop(approvals, key) <==> a in approvals && KeyOf(a) != key
  {
    hide KeyOf;
    var i := Find(approvals, key);
    var dropped := Drop(approvals, key);
    forall a
      ensures a in dropped <==> a in approvals && KeyOf(a) != key
    {
      if a in approvals {
        var j :| 0 <= j < |approvals| && approvals[j] == a;
        if j < i {
          assert dropped[j] == a;
        } else if j > i {
          assert dropped[j - 1] == a;
          assert KeyOf(approvals[i]) != KeyOf(approvals[j]);
        }
      }
    }
  }

  /** What is placed is signed and keyed as signalled, on the side of the signal, and staged instead of sent where approval is asked for. */
  lemma PlacedAsSignalled(cfg: Config, p: Pipe, symbol: Symbol, candles: seq<Candle>, answers: Answers)
    requires p.book.Valid() && candles != [] && answers.signal.Some?
    requires Placed(OnBar(cfg, p, symbol, candles, answers).1).Some?
    ensures var r, signal := Placed(OnBar(cfg, p, symbol, candles, answers).1).value, answers.signal.value;
      var (q, o) := OnBar(cfg, p, symbol, candles, answers);
      && answers.allowed && r.quantity > 0
      && r == MarketOrder(signal.strategyId, symbol, r.side, r.quantity, signal.timestamp)
      && (!signal.direction.FLAT? ==> (r.side.BUY? <==> signal.direction.LONG?))
      && (p.mode.AUTOMATIC? <==> o.Handed?)
      && (if p.mode.AUTOMATIC? then q.approvals == p.approvals
          else q.approvals == Put(p.approvals, PendingApproval(r, signal, candles[|candles| - 1].timestamp)))
  {
    hide Observed, BuildRequest, Put, Evaluated, AccountOf;
    var candle, signal := candles[|candles| - 1], answers.signal.value;
    var q := Observed(cfg, p, symbol, candle);
    PlannedOrders(cfg, q, signal, symbol);
    var request := BuildRequest(cfg, q, signal, symbol).value.value;
    ApprovedIsPositive(cfg.limits, q.engagedAt.Some?,
      Context(request, signal.referencePrice, signal.stopLoss, candle.timestamp, answers.marketOpen,
          answers.dataIsStale), AccountOf(q));
  }
}
