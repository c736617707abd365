// The last checkpoint before an order reaches a broker: state controls reject, size controls scale.
module Risk {
  import opened Money
  import opened Domain
  import opened Portfolios

  datatype Code =
    | KillSwitchEngaged | MarketClosed | DailyLossLimit | MaxDrawdown | MaxGrossExposure
    | MaxNetExposure | MaxPositionValue | MaxSymbolConcentration | StrategyAllocationExceeded
    | InsufficientCapital | MaxOpenPositions | ConsecutiveLossBreaker | OrderRateBreaker
    | StaleMarketData | InvalidQuantity | MissingStopLoss

  /** What reduced an approved order, or let it through untouched. */
  datatype Adjustment =
    | PositionValue | SymbolConcentration | GrossExposure | NetExposure | StrategyAllocation | AvailableCash
    | Bypassed

  datatype Limits = Limits(
    riskPerTradeFraction: real,
    maxPositionFraction: real,
    maxGrossExposureFraction: real,
    maxNetExposureFraction: real,
    maxSymbolConcentrationFraction: real,
    dailyLossLimitFraction: real,
    maxDrawdownFraction: real,
    maxOpenPositions: int,
    maxConsecutiveLosses: int,
    consecutiveLossCooldownMs: int,
    maxOrdersPerMinute: int,
    requireStopLoss: bool)

  datatype Account = Account(
    equity: Paise,
    availableCash: Paise,
    startOfDayEquity: Paise,
    peakEquity: Paise,
    positions: seq<Position>,
    dayPnl: Paise,
    consecutiveLosses: int,
    recentOrderTimestamps: seq<Timestamp>,
    strategyAllocations: map<string, Paise>,
    strategyExposure: map<string, Paise>)

  datatype Context = Context(
    request: OrderRequest,
    referencePrice: Paise,
    stopLoss: Option<Paise>,
    now: Timestamp,
    marketOpen: bool,
    dataIsStale: bool)

  datatype Decision = Decision(
    approved: bool,
    approvedQuantity: int,
    rejections: seq<Code>,
    adjustments: seq<Adjustment>)

  function Reject(rejections: seq<Code>): Decision {
    Decision(false, 0, rejections, [])
  }

  // ----- Exposure -----

  datatype Exposure = Exposure(gross: Paise, net: Paise, bySymbol: map<Symbol, Paise>, openPositions: nat)
  {
    function Of(symbol: Symbol): Paise {
      if symbol in bySymbol then bySymbol[symbol] else 0
    }

    function Add(p: Position): Exposure {
      if p.quantity == 0 then this
      else
        var signed := p.quantity * p.lastPrice;
        Exposure(gross + Abs(signed), net + signed,
                 bySymbol[p.symbol := Of(p.symbol) + Abs(signed)], openPositions + 1)
    }
  }

  function ComputeExposure(positions: seq<Position>): Exposure {
    if positions == [] then Exposure(0, 0, map[], 0)
    else ComputeExposure(positions[..|positions| - 1]).Add(positions[|positions| - 1])
  }

  function Held(symbol: Symbol, positions: seq<Position>): int {
    if positions == [] then 0
    else if positions[0].symbol == symbol then positions[0].quantity
    else Held(symbol, positions[1..])
  }

  /** The part of an order that moves its position toward flat. */
  function ReducingQuantity(request: OrderRequest, held: int): int {
    if (held > 0 && request.side.SELL?) || (held < 0 && request.side.BUY?)
    then Min(request.quantity, Abs(held))
    else 0
  }

  predicate IsPureReduction(request: OrderRequest, held: int) {
    ReducingQuantity(request, held) >= request.quantity
  }

  /** A pure reduction leaves the position on its own side, no larger, never reversed. */
  lemma PureReductionShrinks(request: OrderRequest, held: int)
    requires request.quantity > 0
    ensures IsPureReduction(request, held) <==>
            var after := held + Signed(request.side, request.quantity);
            Abs(after) < Abs(held) && (after == 0 || Sign(after) == Sign(held))
  {
  }

  // ----- State controls -----

  function Drawdown(equity: Paise, peak: Paise): real
    requires peak > 0
  {
    1.0 - equity as real / peak as real
  }

  /** The loss limits breached by an account, which also halt the session. */
  function Breaches(limits: Limits, account: Account): seq<Code> {
    (if account.dayPnl < 0 && Abs(account.dayPnl) >= MulRate(account.startOfDayEquity, limits.dailyLossLimitFraction)
     then [DailyLossLimit] else [])
    + (if account.peakEquity > 0 && Drawdown(account.equity, account.peakEquity) >= limits.maxDrawdownFraction
       then [MaxDrawdown] else [])
  }

  /** The account lost the daily limit or more since the day began. */
  predicate DayLost(limits: Limits, account: Account) {
    account.dayPnl < 0 && -account.dayPnl >= MulRate(account.startOfDayEquity, limits.dailyLossLimitFraction)
  }

  /** The account is the drawdown limit or more below a positive peak. */
  predicate DrawnDown(limits: Limits, account: Account) {
    account.peakEquity > 0 && account.equity as real <= (1.0 - limits.maxDrawdownFraction) * account.peakEquity as real
  }

  /** What counts against the limits: the equity, the day's first equity, and the peak. */
  predicate LossHalts(limits: Limits, equity: Paise, first: Paise, peak: Paise) {
    || (equity < first && first - equity >= MulRate(first, limits.dailyLossLimitFraction))
    || (peak > 0 && equity as real <= (1.0 - limits.maxDrawdownFraction) * peak as real)
  }

  lemma DrawdownInMoney(equity: Paise, peak: Paise, fraction: real)
    requires peak > 0
    ensures Drawdown(equity, peak) >= fraction <==> equity as real <= (1.0 - fraction) * peak as real
  {
    var share, whole := equity as real / peak as real, peak as real;
    assert share * whole == equity as real;
    ScalesBothWays(share, 1.0 - fraction, whole);
  }

  lemma ScalesBothWays(a: real, b: real, k: real)
    requires k > 0.0
    ensures a <= b <==> a * k <= b * k
  {
    if a <= b {
      assert (b - a) * k >= 0.0;
    } else {
      assert (a - b) * k > 0.0;
    }
  }

  /** The limits reported as breached are those the account breached, in money. */
  lemma BreachesInMoney(limits: Limits, account: Account)
    ensures Breaches(limits, account) ==
            (if DayLost(limits, account) then [DailyLossLimit] else []) + (if DrawnDown(limits, account) then [MaxDrawdown] else [])
    ensures Breaches(limits, account) != [] <==> DayLost(limits, account) || DrawnDown(limits, account)
  {
    hide MulRate, Drawdown;
    if account.peakEquity > 0 {
      DrawdownInMoney(account.equity, account.peakEquity, limits.maxDrawdownFraction);
    }
  }

  function RecentCount(timestamps: seq<Timestamp>, now: Timestamp): nat {
    if timestamps == [] then 0
    else
      var last := |timestamps| - 1;
      RecentCount(timestamps[..last], now) + if now - timestamps[last] < 60_000 then 1 else 0
  }

  function Noted(rejections: seq<Code>, objects: bool, code: Code): (r: seq<Code>)
    ensures r == [] <==> rejections == [] && !objects
  {
    if objects then rejections + [code] else rejections
  }

  /** The market, the data and the switch. */
  function SessionRejections(limits: Limits, engaged: bool, context: Context): seq<Code> {
    Noted(Noted(Noted(Noted([],
      engaged, KillSwitchEngaged),
      !context.marketOpen, MarketClosed),
      context.dataIsStale, StaleMarketData),
      limits.requireStopLoss && context.stopLoss.None?, MissingStopLoss)
  }

  /** Losses, streaks, order rate and open positions. */
  function AccountRejections(limits: Limits, context: Context, account: Account): seq<Code> {
    var exposure := ComputeExposure(account.positions);
    Noted(Noted(Noted(Breaches(limits, account),
      account.consecutiveLosses >= limits.maxConsecutiveLosses, ConsecutiveLossBreaker),
      RecentCount(account.recentOrderTimestamps, context.now) >= limits.maxOrdersPerMinute, OrderRateBreaker),
      exposure.Of(context.request.symbol) == 0 && exposure.openPositions >= limits.maxOpenPositions, MaxOpenPositions)
  }

  function StateRejections(limits: Limits, engaged: bool, context: Context, account: Account): seq<Code> {
    SessionRejections(limits, engaged, context) + AccountRejections(limits, context, account)
  }

  /** How many orders were sent less than a minute ago. */
  function LastMinute(timestamps: seq<Timestamp>, now: Timestamp): multiset<Timestamp> {
    if timestamps == [] then multiset{}
    else
      var last := timestamps[|timestamps| - 1];
      LastMinute(timestamps[..|timestamps| - 1], now) + if last > now - 60_000 then multiset{last} else multiset{}
  }

  lemma {:induction false} RecentIsLastMinute(timestamps: seq<Timestamp>, now: Timestamp)
    ensures RecentCount(timestamps, now) == |LastMinute(timestamps, now)|
  {
    if timestamps != [] {
      RecentIsLastMinute(timestamps[..|timestamps| - 1], now);
    }
  }

  /** What makes a state control object. */
  predicate Objects(limits: Limits, engaged: bool, context: Context, account: Account, code: Code) {
    match code
    case KillSwitchEngaged => engaged
    case MarketClosed => !context.marketOpen
    case StaleMarketData => context.dataIsStale
    case MissingStopLoss => limits.requireStopLoss && context.stopLoss.None?
    case DailyLossLimit => DayLost(limits, account)
    case MaxDrawdown => DrawnDown(limits, account)
    case ConsecutiveLossBreaker => account.consecutiveLosses >= limits.maxConsecutiveLosses
    case OrderRateBreaker => |LastMinute(account.recentOrderTimestamps, context.now)| >= limits.maxOrdersPerMinute
    case MaxOpenPositions =>
      && ComputeExposure(account.positions).Of(context.request.symbol) == 0
      && ComputeExposure(account.positions).openPositions >= limits.maxOpenPositions
    case _ => false
  }

  lemma NotedHas(rejections: seq<Code>, objects: bool, code: Code, c: Code)
    ensures c in Noted(rejections, objects, code) <==> c in rejections || (objects && c == code)
  {
  }

  lemma SessionHas(limits: Limits, engaged: bool, context: Context, c: Code)
    ensures c in SessionRejections(limits, engaged, context) <==>
            || (c.KillSwitchEngaged? && engaged) || (c.MarketClosed? && !context.marketOpen)
            || (c.StaleMarketData? && context.dataIsStale) || (c.MissingStopLoss? && limits.requireStopLoss && context.stopLoss.None?)
  {
    hide Noted;
    var a := Noted([], engaged, KillSwitchEngaged);
    var b := Noted(a, !context.marketOpen, MarketClosed);
    var d := Noted(b, context.dataIsStale, StaleMarketData);
    NotedHas([], engaged, KillSwitchEngaged, c);
    NotedHas(a, !context.marketOpen, MarketClosed, c);
    NotedHas(b, context.dataIsStale, StaleMarketData, c);
    NotedHas(d, limits.requireStopLoss && context.stopLoss.None?, MissingStopLoss, c);
  }

  lemma AccountHas(limits: Limits, context: Context, account: Account, c: Code)
    ensures var exposure := ComputeExposure(account.positions);
      c in AccountRejections(limits, context, account) <==>
        || c in Breaches(limits, account)
        || (c.ConsecutiveLossBreaker? && account.consecutiveLosses >= limits.maxConsecutiveLosses)
        || (c.OrderRateBreaker? && RecentCount(account.recentOrderTimestamps, context.now) >= limits.maxOrdersPerMinute)
        || (c.MaxOpenPositions? && exposure.Of(context.request.symbol) == 0 && exposure.openPositions >= limits.maxOpenPositions)
  {
    hide Noted, Breaches, RecentCount, ComputeExposure;
    var exposure := ComputeExposure(account.positions);
    var a := Breaches(limits, account);
    var b := Noted(a, account.consecutiveLosses >= limits.maxConsecutiveLosses, ConsecutiveLossBreaker);
    var d := Noted(b, RecentCount(account.recentOrderTimestamps, context.now) >= limits.maxOrdersPerMinute, OrderRateBreaker);
    NotedHas(a, account.consecutiveLosses >= limits.maxConsecutiveLosses, ConsecutiveLossBreaker, c);
    NotedHas(b, RecentCount(account.recentOrderTimestamps, context.now) >= limits.maxOrdersPerMinute, OrderRateBreaker, c);
    NotedHas(d, exposure.Of(context.request.symbol) == 0 && exposure.openPositions >= limits.maxOpenPositions, MaxOpenPositions, c);
  }

  /** A code is reported exactly when its control objects, so nothing objects exactly when no limit is reached. */
  lemma ControlsObjectExactly(limits: Limits, engaged: bool, context: Context, account: Account, code: Code)
    ensures code in StateRejections(limits, engaged, context, account) <==> Objects(limits, engaged, context, account, code)
  {
    hide Breaches, RecentCount, ComputeExposure, DayLost, DrawnDown, LastMinute, SessionRejections, AccountRejections;
    BreachesInMoney(limits, account);
    RecentIsLastMinute(account.recentOrderTimestamps, context.now);
    SessionHas(limits, engaged, context, code);
    AccountHas(limits, context, account, code);
  }

  // ----- Size controls -----

  datatype SizeCap = SizeCap(control: Adjustment, amount: Paise)

  function Headroom(cap: int, used: int): nat {
    Max(0, cap - used)
  }

  function SizeCaps(limits: Limits, context: Context, account: Account): seq<SizeCap> {
    var exposure := ComputeExposure(account.positions);
    var symbol, strategy := context.request.symbol, context.request.strategyId;
    var netCap := MulRate(account.equity, limits.maxNetExposureFraction);
    [SizeCap(PositionValue, MulRate(account.equity, limits.maxPositionFraction)),
     SizeCap(SymbolConcentration,
             Headroom(MulRate(account.equity, limits.maxSymbolConcentrationFraction), exposure.Of(symbol))),
     SizeCap(GrossExposure, Headroom(MulRate(account.equity, limits.maxGrossExposureFraction), exposure.gross)),
     SizeCap(NetExposure, Headroom(netCap, if context.request.side.BUY? then exposure.net else -exposure.net))]
    + (if strategy in account.strategyAllocations
       then [SizeCap(StrategyAllocation,
                     Headroom(account.strategyAllocations[strategy],
                              if strategy in account.strategyExposure then account.strategyExposure[strategy] else 0))]
       else [])
    + [SizeCap(AvailableCash, account.availableCash)]
  }

  datatype Scaled = Scaled(quantity: int, adjustments: seq<Adjustment>)

  function CapOnce(s: Scaled, cap: SizeCap, price: Paise): Scaled
    requires price > 0
  {
    var most := cap.amount / price;
    if most < s.quantity then Scaled(Max(0, most), s.adjustments + [cap.control]) else s
  }

  function Shrink(quantity: int, caps: seq<SizeCap>, price: Paise): Scaled
    requires price > 0
  {
    if caps == [] then Scaled(quantity, [])
    else CapOnce(Shrink(quantity, caps[..|caps| - 1], price), caps[|caps| - 1], price)
  }

  function PickBindingCode(adjustments: seq<Adjustment>): Code {
    if adjustments == [] then MaxPositionValue
    else
      match adjustments[|adjustments| - 1]
      case AvailableCash => InsufficientCapital
      case StrategyAllocation => StrategyAllocationExceeded
      case NetExposure => MaxNetExposure
      case GrossExposure => MaxGrossExposure
      case SymbolConcentration => MaxSymbolConcentration
      case PositionValue => MaxPositionValue
      case Bypassed => MaxPositionValue
  }

  function Evaluated(limits: Limits, engaged: bool, context: Context, account: Account): Decision {
    if context.request.quantity <= 0 || context.referencePrice <= 0 then Reject([InvalidQuantity])
    else if IsPureReduction(context.request, Held(context.request.symbol, account.positions)) then
      if context.dataIsStale then Reject([StaleMarketData])
      else Decision(true, context.request.quantity, [], [Bypassed])
    else
      var rejections := StateRejections(limits, engaged, context, account);
      if rejections != [] then Reject(rejections)
      else
        var scaled := Shrink(context.request.quantity, SizeCaps(limits, context, account), context.referencePrice);
        if scaled.quantity <= 0 then Reject([PickBindingCode(scaled.adjustments)])
        else Decision(true, scaled.quantity, [], scaled.adjustments)
  }

  // ----- Approval is the greatest admissible quantity -----

  predicate WithinCaps(q: int, caps: seq<SizeCap>, price: Paise) {
    forall cap :: cap in caps ==> q * price <= cap.amount
  }

  lemma FloorCounts(q: int, amount: Paise, price: Paise)
    requires price > 0
    ensures q <= amount / price <==> q * price <= amount
  {
    DivisionBounds(amount, price);
    var most := amount / price;
    if q <= most {
      if q < most { StrictProduct(q, most, price); }
    } else {
      StrictProduct(most, q, price);
    }
  }

  lemma {:induction false} ShrinkIsGreatest(quantity: int, caps: seq<SizeCap>, price: Paise, q: int)
    requires price > 0 && q > 0
    ensures q <= Shrink(quantity, caps, price).quantity <==> q <= quantity && WithinCaps(q, caps, price)
  {
    if caps != [] {
      var before, last := caps[..|caps| - 1], caps[|caps| - 1];
      assert caps == before + [last];
      ShrinkIsGreatest(quantity, before, price, q);
      FloorCounts(q, last.amount, price);
    }
  }

  /** A value that keeps an exposure within a fraction of equity; an exposure already beyond it leaves room for nothing. */
  predicate Room(value: Paise, equity: Paise, fraction: real, used: Paise) {
    value <= 0 || used + value <= MulRate(equity, fraction)
  }

  /** What the size caps admit, in money: every fraction of equity with what is used of it, the allocation, and the cash. */
  lemma CapsInMoney(limits: Limits, context: Context, account: Account, q: nat, price: Paise)
    requires price > 0 && q > 0
    ensures var value := q * price;
      var exposure := ComputeExposure(account.positions);
      var strategy := context.request.strategyId;
      WithinCaps(q, SizeCaps(limits, context, account), price) <==>
        && value <= MulRate(account.equity, limits.maxPositionFraction)
        && Room(value, account.equity, limits.maxSymbolConcentrationFraction, exposure.Of(context.request.symbol))
        && Room(value, account.equity, limits.maxGrossExposureFraction, exposure.gross)
        && Room(value, account.equity, limits.maxNetExposureFraction,
                if context.request.side.BUY? then exposure.net else -exposure.net)
        && (strategy in account.strategyAllocations ==>
              (if strategy in account.strategyExposure then account.strategyExposure[strategy] else 0) + value
              <= account.strategyAllocations[strategy])
        && value <= account.availableCash
  {
    hide MulRate, ComputeExposure;
    var value := q * price;
    assert value > 0 by { StrictProduct(0, q, price); }
    var caps := SizeCaps(limits, context, account);
    assert WithinCaps(q, caps, price) <==> forall i :: 0 <= i < |caps| ==> value <= caps[i].amount;
  }

  /** The most that every size cap pays for at a price. */
  function Affordable(caps: seq<SizeCap>, price: Paise): int
    requires caps != [] && price > 0
  {
    var last := caps[|caps| - 1].amount / price;
    if |caps| == 1 then last else Min(Affordable(caps[..|caps| - 1], price), last)
  }

  /** Scaling an order through every cap takes the least of what was asked for and what they pay for. */
  lemma {:induction false} ShrinkIsLeast(quantity: int, caps: seq<SizeCap>, price: Paise)
    requires caps != [] && price > 0 && quantity > 0
    ensures Shrink(quantity, caps, price).quantity == Max(0, Min(quantity, Affordable(caps, price)))
  {
    var before := caps[..|caps| - 1];
    if before == [] {
      assert Shrink(quantity, before, price) == Scaled(quantity, []);
    } else {
      ShrinkIsLeast(quantity, before, price);
    }
  }

  predicate Increases(context: Context, account: Account) {
    && context.request.quantity > 0 && context.referencePrice > 0
    && !IsPureReduction(context.request, Held(context.request.symbol, account.positions))
  }

  /**
   * For an order that opens or adds risk, a positive quantity is within the approved one exactly
   * when it is within the requested one, no state control objects, and every size cap can pay for
   * it at the reference price. A refusal approves no quantity at all.
   */
  lemma ApprovalIsGreatest(limits: Limits, engaged: bool, context: Context, account: Account, q: int)
    requires Increases(context, account) && q > 0
    ensures q <= Evaluated(limits, engaged, context, account).approvedQuantity <==>
              && StateRejections(limits, engaged, context, account) == []
              && q <= context.request.quantity
              && WithinCaps(q, SizeCaps(limits, context, account), context.referencePrice)
  {
    hide StateRejections, SizeCaps, WithinCaps, IsPureReduction, Shrink, PickBindingCode;
    ShrinkIsGreatest(context.request.quantity, SizeCaps(limits, context, account), context.referencePrice, q);
  }

  /** The code that stands for a size control. */
  predicate Names(code: Code, control: Adjustment) {
    match control
    case AvailableCash => code.InsufficientCapital?
    case StrategyAllocation => code.StrategyAllocationExceeded?
    case NetExposure => code.MaxNetExposure?
    case GrossExposure => code.MaxGrossExposure?
    case SymbolConcentration => code.MaxSymbolConcentration?
    case _ => code.MaxPositionValue?
  }

  lemma {:induction false} ShrunkToNothing(quantity: int, caps: seq<SizeCap>, price: Paise)
    requires price > 0 && quantity > 0
    ensures var s := Shrink(quantity, caps, price);
      s.quantity <= 0 ==>
        && s.adjustments != []
        && exists cap :: cap in caps && cap.amount < price && cap.control == s.adjustments[|s.adjustments| - 1]
    ensures Shrink(quantity, caps, price).quantity >= 0
  {
    if caps != [] {
      var before, last := caps[..|caps| - 1], caps[|caps| - 1];
      ShrunkToNothing(quantity, before, price);
      DivisionBounds(last.amount, price);
      assert last in caps;
    }
  }

  /** A refusal for size names a control whose cap does not pay for a single share. */
  lemma RefusalNamesTheCap(limits: Limits, engaged: bool, context: Context, account: Account)
    requires Increases(context, account) && StateRejections(limits, engaged, context, account) == []
    requires !Evaluated(limits, engaged, context, account).approved
    ensures var d := Evaluated(limits, engaged, context, account);
      && |d.rejections| == 1
      && exists cap :: cap in SizeCaps(limits, context, account) && cap.amount < context.referencePrice && Names(d.rejections[0], cap.control)
  {
    hide StateRejections, SizeCaps, IsPureReduction, Shrink;
    ShrunkToNothing(context.request.quantity, SizeCaps(limits, context, account), context.referencePrice);
  }

  lemma ApprovedIsPositive(limits: Limits, engaged: bool, context: Context, account: Account)
    ensures var d := Evaluated(limits, engaged, context, account);
      && (d.approved <==> d.approvedQuantity > 0)
      && (d.approved <==> d.rejections == [])
      && (d.approved ==> d.approvedQuantity <= context.request.quantity)
  {
    hide StateRejections, SizeCaps, IsPureReduction, PickBindingCode, Shrink;
    if context.referencePrice > 0 {
      var n := Shrink(context.request.quantity, SizeCaps(limits, context, account), context.referencePrice).quantity;
      if n > 0 {
        ShrinkIsGreatest(context.request.quantity, SizeCaps(limits, context, account), context.referencePrice, n);
      }
    }
  }

  function WithQuantity(context: Context, quantity: int): Context {
    context.(request := context.request.(quantity := quantity))
  }

  /** The caps and the state controls do not look at the quantity. */
  lemma ControlsIgnoreQuantity(limits: Limits, engaged: bool, context: Context, account: Account, q: int)
    ensures SizeCaps(limits, WithQuantity(context, q), account) == SizeCaps(limits, context, account)
    ensures StateRejections(limits, engaged, WithQuantity(context, q), account)
            == StateRejections(limits, engaged, context, account)
  {
    hide MulRate, ComputeExposure, Breaches, RecentCount, Headroom;
  }

  lemma ApprovedIsFresh(limits: Limits, engaged: bool, context: Context, account: Account)
    requires Evaluated(limits, engaged, context, account).approved
    ensures !context.dataIsStale
  {
    hide SizeCaps, IsPureReduction, Breaches, RecentCount, ComputeExposure, Shrink;
  }

  /** Judging the approved quantity again approves exactly it. */
  lemma ApprovalIsStable(limits: Limits, engaged: bool, context: Context, account: Account)
    requires Evaluated(limits, engaged, context, account).approved
    ensures var q := Evaluated(limits, engaged, context, account).approvedQuantity;
      var again := Evaluated(limits, engaged, WithQuantity(context, q), account);
      again.approved && again.approvedQuantity == q
  {
    hide StateRejections, SizeCaps, Shrink, IsPureReduction, WithinCaps;
    var q := Evaluated(limits, engaged, context, account).approvedQuantity;
    var again := WithQuantity(context, q);
    ApprovedIsPositive(limits, engaged, context, account);
    ApprovedIsFresh(limits, engaged, context, account);
    ApprovedIsPositive(limits, engaged, again, account);
    if Increases(again, account) {
      if Increases(context, account) {
        ControlsIgnoreQuantity(limits, engaged, context, account, q);
        ApprovalIsGreatest(limits, engaged, context, account, q);
        ApprovalIsGreatest(limits, engaged, again, account, q);
      }
    }
  }

  /** No state or size control can trap a position: only unusable data refuses a pure reduction. */
  lemma ReductionsAreNeverTrapped(limits: Limits, engaged: bool, context: Context, account: Account)
    requires context.request.quantity > 0
    requires IsPureReduction(context.request, Held(context.request.symbol, account.positions))
    ensures var d := Evaluated(limits, engaged, context, account);
      && (d.approved <==> context.referencePrice > 0 && !context.dataIsStale)
      && (d.approved ==> d.approvedQuantity == context.request.quantity)
  {
    hide StateRejections, SizeCaps, Shrink;
  }

  /** While the switch is engaged, whatever is approved only reduces. */
  lemma EngagedApprovesOnlyReductions(limits: Limits, context: Context, account: Account)
    requires Evaluated(limits, true, context, account).approved
    ensures IsPureReduction(context.request, Held(context.request.symbol, account.positions))
    ensures Evaluated(limits, true, context, account).approvedQuantity == context.request.quantity
  {
    hide SizeCaps, Shrink, Breaches, RecentCount, ComputeExposure;
  }

  // ----- An approved fill stays within the caps -----

  lemma ExposureAdd(positions: seq<Position>, p: Position)
    ensures ComputeExposure(positions + [p]) == ComputeExposure(positions).Add(p)
  {
    assert (positions + [p])[..|positions|] == positions;
  }

  lemma AddByValue(e: Exposure, p: Position)
    ensures e.Add(p).gross == e.gross + Value(Gross, p)
    ensures e.Add(p).net == e.net + Value(Market, p)
    ensures e.Add(p).Of(p.symbol) == e.Of(p.symbol) + Value(Gross, p)
    ensures forall s :: s != p.symbol ==> e.Add(p).Of(s) == e.Of(s)
    ensures p.quantity == 0 ==> e.Add(p) == e
  {
  }

  lemma NoExposure(positions: map<Symbol, Position>)
    requires forall s :: s in positions ==> positions[s].symbol == s
    ensures ComputeExposure(OpenPositions([], positions)) == Exposure(0, 0, map[], 0)
    ensures forall s :: Exposure(0, 0, map[], 0).Of(s) == 0
  {
  }

  lemma OpenExposureSnoc(before: seq<Symbol>, last: Symbol, positions: map<Symbol, Position>)
    requires last in positions && forall s :: s in before ==> s in positions
    requires forall s :: s in positions ==> positions[s].symbol == s
    ensures ComputeExposure(OpenPositions(before + [last], positions))
            == ComputeExposure(OpenPositions(before, positions)).Add(positions[last])
  {
    hide ComputeExposure;
    assert (before + [last])[..|before|] == before;
    ExposureAdd(OpenPositions(before, positions), positions[last]);
  }

  /** What the exposure of a book's open positions adds up to, whole and by symbol. */
  lemma {:induction false} ExposureOfBook(symbols: seq<Symbol>, positions: map<Symbol, Position>)
    requires forall s :: s in symbols ==> s in positions
    requires forall s :: s in positions ==> positions[s].symbol == s
    requires Distinct(symbols)
    ensures var e := ComputeExposure(OpenPositions(symbols, positions));
      && e.gross == Total(Gross, symbols, positions)
      && e.net == Total(Market, symbols, positions)
      && (forall s :: s in symbols ==> e.Of(s) == Value(Gross, positions[s]))
      && (forall s :: s !in symbols ==> e.Of(s) == 0)
  {
    hide Value, OpenPositions, ComputeExposure, Exposure.Add, Exposure.Of;
    if symbols == [] {
      NoExposure(positions);
    } else {
      var before, last := symbols[..|symbols| - 1], symbols[|symbols| - 1];
      assert symbols == before + [last];
      ExposureOfBook(before, positions);
      OpenExposureSnoc(before, last, positions);
      AddByValue(ComputeExposure(OpenPositions(before, positions)), positions[last]);
      assert last !in before;
    }
  }

  lemma {:induction false} HeldInBook(symbols: seq<Symbol>, positions: map<Symbol, Position>, s: Symbol)
    requires forall t :: t in symbols ==> t in positions
    requires forall t :: t in positions ==> positions[t].symbol == t
    requires Distinct(symbols)
    ensures Held(s, OpenPositions(symbols, positions)) == if s in symbols then positions[s].quantity else 0
  {
    var open := OpenPositions(symbols, positions);
    HeldIsFound(open, s);
  }

  lemma {:induction false} HeldIsFound(open: seq<Position>, s: Symbol)
    requires forall i, j :: 0 <= i < j < |open| ==> open[i].symbol != open[j].symbol
    ensures forall p :: p in open && p.symbol == s ==> Held(s, open) == p.quantity
    ensures (forall p :: p in open ==> p.symbol != s) ==> Held(s, open) == 0
  {
    if open != [] && open[0].symbol != s {
      HeldIsFound(open[1..], s);
      assert open == [open[0]] + open[1..];
    }
  }

  /** The book an account was built from, marked at the reference price for the order's symbol. */
  ghost predicate Describes(account: Account, b: Book, symbol: Symbol, price: Paise) {
    && b.Valid()
    && account.positions == OpenPositions(b.symbols, b.positions)
    && (symbol in b.positions ==> b.positions[symbol].lastPrice == price)
  }

  function After(b: Book): Exposure
    requires forall s :: s in b.symbols ==> s in b.positions
    requires forall s :: s in b.positions ==> b.positions[s].symbol == s
  {
    ComputeExposure(OpenPositions(b.symbols, b.positions))
  }

  predicate FillsAt(fill: Fill, context: Context, quantity: int) {
    && fill.symbol == context.request.symbol && fill.side == context.request.side
    && fill.quantity == quantity && fill.price == context.referencePrice
  }

  /** A trade of `q` at the mark moves net by its signed value and gross by at most its value. */
  lemma TradeMovesExposure(b: Book, fill: Fill)
    requires b.Valid() && fill.quantity > 0 && fill.price > 0
    requires fill.symbol in b.positions ==> b.positions[fill.symbol].lastPrice == fill.price
    ensures Booked(b, fill).Valid()
    ensures After(Booked(b, fill)).net == After(b).net + Signed(fill.side, fill.quantity) * fill.price
    ensures After(Booked(b, fill)).gross <= After(b).gross + fill.quantity * fill.price
    ensures After(Booked(b, fill)).Of(fill.symbol) <= After(b).Of(fill.symbol) + fill.quantity * fill.price
  {
    var p := PositionOrFlat(b, fill);
    var next := Settle(p, fill).0;
    FillMovesOnePosition(Gross, b, fill);
    FillMovesOnePosition(Market, b, fill);
    ExposureOfBook(b.symbols, b.positions);
    ExposureOfBook(Booked(b, fill).symbols, Booked(b, fill).positions);
    SettledValue(p, fill);
  }

  lemma SettledValue(p: Position, fill: Fill)
    requires fill.quantity > 0 && fill.price > 0 && p.lastPrice == fill.price
    ensures var next := Settle(p, fill).0;
      && Value(Market, next) == Value(Market, p) + Signed(fill.side, fill.quantity) * fill.price
      && Value(Gross, next) <= Value(Gross, p) + fill.quantity * fill.price
  {
    var signed := Signed(fill.side, fill.quantity);
    assert (p.quantity + signed) * fill.price == p.quantity * fill.price + signed * fill.price;
    assert signed * fill.price == if fill.side.BUY? then fill.quantity * fill.price else -(fill.quantity * fill.price);
    assert fill.quantity * fill.price > 0;
  }

  lemma CapsByName(limits: Limits, context: Context, account: Account, q: int)
    requires WithinCaps(q, SizeCaps(limits, context, account), context.referencePrice)
    ensures var e := ComputeExposure(account.positions);
      var value := q * context.referencePrice;
      && value <= MulRate(account.equity, limits.maxPositionFraction)
      && value <= account.availableCash
      && value <= Headroom(MulRate(account.equity, limits.maxSymbolConcentrationFraction), e.Of(context.request.symbol))
      && value <= Headroom(MulRate(account.equity, limits.maxGrossExposureFraction), e.gross)
      && value <= Headroom(MulRate(account.equity, limits.maxNetExposureFraction),
                           if context.request.side.BUY? then e.net else -e.net)
  {
    hide MulRate, ComputeExposure, Headroom;
    var caps := SizeCaps(limits, context, account);
    assert caps[0] in caps && caps[1] in caps && caps[2] in caps && caps[3] in caps && caps[|caps| - 1] in caps;
  }

  /**
   * Executing an approved, risk-increasing order at its reference price leaves gross, symbol and
   * net exposure of the account's book within their caps.
   */
  lemma ApprovedFillKeepsCaps(limits: Limits, engaged: bool, context: Context, account: Account, b: Book, fill: Fill)
    requires Increases(context, account) && Describes(account, b, context.request.symbol, context.referencePrice)
    requires Evaluated(limits, engaged, context, account).approved
    requires FillsAt(fill, context, Evaluated(limits, engaged, context, account).approvedQuantity)
    ensures Booked(b, fill).Valid()
    ensures var e, netCap := After(Booked(b, fill)), MulRate(account.equity, limits.maxNetExposureFraction);
      && e.gross <= MulRate(account.equity, limits.maxGrossExposureFraction)
      && e.Of(fill.symbol) <= MulRate(account.equity, limits.maxSymbolConcentrationFraction)
      && (if fill.side.BUY? then e.net <= netCap else e.net >= -netCap)
      && (Abs(After(b).net) <= netCap ==> Abs(e.net) <= netCap)
    ensures fill.quantity * fill.price <= account.availableCash
  {
    hide StateRejections, SizeCaps, WithinCaps, MulRate, Shrink, ComputeExposure, IsPureReduction, OpenPositions, Booked;
    var q := Evaluated(limits, engaged, context, account).approvedQuantity;
    ApprovedIsPositive(limits, engaged, context, account);
    ApprovalIsGreatest(limits, engaged, context, account, q);
    CapsByName(limits, context, account, q);
    TradeMovesExposure(b, fill);
    assert q * context.referencePrice > 0;
    assert Signed(fill.side, q) * fill.price == if fill.side.BUY? then q * fill.price else -(q * fill.price);
  }
}
