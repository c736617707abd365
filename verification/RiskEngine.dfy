// The objects of the risk layer: kill switch, losing-streak breaker, and the engine that consults them.
module RiskEngines {
  import opened Money
  import opened Domain
  import opened Risk

  // ----- Kill switch -----

  /** Engaging keeps the first moment; only `Release` clears it. */
  class KillSwitch {
    var engagedAt: Option<Timestamp>

    constructor ()
      ensures engagedAt == None
    {
      engagedAt := None;
    }

    method Engage(at: Timestamp)
      modifies this
      ensures engagedAt == if old(engagedAt).Some? then old(engagedAt) else Some(at)
    {
      if engagedAt.Some? {
        return;
      }
      engagedAt := Some(at);
    }

    method Release()
      modifies this
      ensures engagedAt == None
    {
      engagedAt := None;
    }
  }

  // ----- Losing-streak breaker -----

  datatype Streak = Streak(losses: int, trippedAt: Option<Timestamp>)

  const NO_LOSSES := Streak(0, None)

  function Recorded(limit: int, s: Streak, pnl: int, now: Timestamp): Streak {
    if pnl < 0 then
      Streak(s.losses + 1, if s.losses + 1 >= limit && s.trippedAt.None? then Some(now) else s.trippedAt)
    else NO_LOSSES
  }

  predicate CooledOff(cooldown: int, s: Streak, now: Timestamp) {
    s.trippedAt.Some? && now - s.trippedAt.value >= cooldown
  }

  /** The streak as the risk engine sees it: an elapsed cooling-off period clears it. */
  function Cooled(cooldown: int, s: Streak, now: Timestamp): Streak {
    if CooledOff(cooldown, s, now) then NO_LOSSES else s
  }

  function RestoredStreak(s: Streak): Streak {
    Streak(Max(0, s.losses), s.trippedAt)
  }

  datatype StreakEvent = Trade(pnl: int, at: Timestamp) | Look(at: Timestamp) | Restart

  function StreakStep(limit: int, cooldown: int, s: Streak, e: StreakEvent): Streak {
    match e
    case Trade(pnl, at) => Recorded(limit, s, pnl, at)
    case Look(at) => Cooled(cooldown, s, at)
    case Restart => RestoredStreak(s)
  }

  function StreakRun(limit: int, cooldown: int, events: seq<StreakEvent>): Streak {
    if events == [] then NO_LOSSES
    else StreakStep(limit, cooldown, StreakRun(limit, cooldown, events[..|events| - 1]), events[|events| - 1])
  }

  /**
   * The breaker pauses and never latches: after any history of trades, looks and restarts it
   * refuses entries at a moment exactly when it tripped less than the cooling-off period ago.
   */
  lemma {:induction false} BreakerIsAPause(limit: int, cooldown: int, events: seq<StreakEvent>, now: Timestamp)
    requires limit >= 1
    ensures var s := StreakRun(limit, cooldown, events);
      && s.losses >= 0
      && (s.losses >= limit <==> s.trippedAt.Some?)
      && (Cooled(cooldown, s, now).losses >= limit <==> s.trippedAt.Some? && now - s.trippedAt.value < cooldown)
  {
    if events != [] {
      BreakerIsAPause(limit, cooldown, events[..|events| - 1], now);
    }
  }

  class LossStreakBreaker {
    const maxConsecutiveLosses: int
    const cooldownMs: int
    var streak: int
    var trippedAt: Option<Timestamp>

    function State(): Streak
      reads this
    {
      Streak(streak, trippedAt)
    }

    constructor (maxConsecutiveLosses: int, cooldownMs: int)
      ensures this.maxConsecutiveLosses == maxConsecutiveLosses && this.cooldownMs == cooldownMs
      ensures State() == NO_LOSSES
    {
      this.maxConsecutiveLosses, this.cooldownMs := maxConsecutiveLosses, cooldownMs;
      streak, trippedAt := 0, None;
    }

    method Record(pnl: int, now: Timestamp)
      modifies this
      ensures State() == Recorded(maxConsecutiveLosses, old(State()), pnl, now)
    {
      if pnl < 0 {
        streak := streak + 1;
        if streak >= maxConsecutiveLosses && trippedAt.None? {
          trippedAt := Some(now);
        }
        return;
      }
      streak := 0;
      trippedAt := None;
    }

    method EffectiveStreak(now: Timestamp) returns (losses: int)
      modifies this
      ensures State() == Cooled(cooldownMs, old(State()), now) && losses == streak
    {
      if trippedAt.Some? && now - trippedAt.value >= cooldownMs {
        streak := 0;
        trippedAt := None;
      }
      return streak;
    }

    method Restore(saved: Streak)
      modifies this
      ensures State() == RestoredStreak(saved)
    {
      streak := Max(0, saved.losses);
      trippedAt := saved.trippedAt;
    }
  }

  // ----- Engine -----

  class RiskEngine {
    const limits: Limits
    const killSwitch: KillSwitch

    constructor (limits: Limits, killSwitch: KillSwitch)
      ensures this.limits == limits && this.killSwitch == killSwitch
    {
      this.limits, this.killSwitch := limits, killSwitch;
    }

    static method MeasureExposure(positions: seq<Position>) returns (e: Exposure)
      ensures e == ComputeExposure(positions)
    {
      var gross, net, open := 0, 0, 0;
      var bySymbol: map<Symbol, Paise> := map[];
      for i := 0 to |positions|
        invariant open >= 0 && Exposure(gross, net, bySymbol, open) == ComputeExposure(positions[..i])
      {
        assert positions[..i + 1][..i] == positions[..i];
        var p := positions[i];
        if p.quantity != 0 {
          open := open + 1;
          var signed := p.quantity * p.lastPrice;
          gross := gross + Abs(signed);
          net := net + signed;
          var existing := 0;
          if p.symbol in bySymbol {
            existing := bySymbol[p.symbol];
          }
          bySymbol := bySymbol[p.symbol := existing + Abs(signed)];
        }
      }
      assert positions[..|positions|] == positions;
      return Exposure(gross, net, bySymbol, open);
    }

    static method HeldQuantity(symbol: Symbol, positions: seq<Position>) returns (held: int)
      ensures held == Held(symbol, positions)
    {
      for i := 0 to |positions|
        invariant Held(symbol, positions) == Held(symbol, positions[i..])
      {
        if positions[i].symbol == symbol {
          return positions[i].quantity;
        }
      }
      return 0;
    }

    static method CountRecent(timestamps: seq<Timestamp>, now: Timestamp) returns (count: nat)
      ensures count == RecentCount(timestamps, now)
    {
      count := 0;
      for i := 0 to |timestamps|
        invariant count == RecentCount(timestamps[..i], now)
      {
        assert timestamps[..i + 1][..i] == timestamps[..i];
        if now - timestamps[i] < 60_000 {
          count := count + 1;
        }
      }
      assert timestamps[..|timestamps|] == timestamps;
    }

    method CheckLosses(account: Account) returns (breaches: seq<Code>)
      ensures breaches == Breaches(limits, account)
    {
      breaches := [];
      var dailyLossLimit := MulRate(account.startOfDayEquity, limits.dailyLossLimitFraction);
      if account.dayPnl < 0 && Abs(account.dayPnl) >= dailyLossLimit {
        breaches := breaches + [DailyLossLimit];
      }
      if account.peakEquity > 0 {
        var drawdown := Drawdown(account.equity, account.peakEquity);
        if drawdown >= limits.maxDrawdownFraction {
          breaches := breaches + [MaxDrawdown];
        }
      }
    }

    /** The session-level check of every equity update: any breach engages the switch. */
    method CheckHaltConditions(account: Account, now: Timestamp) returns (breaches: seq<Code>)
      modifies killSwitch
      ensures breaches == Breaches(limits, account)
      ensures killSwitch.engagedAt ==
              if breaches != [] && old(killSwitch.engagedAt).None? then Some(now) else old(killSwitch.engagedAt)
    {
      breaches := CheckLosses(account);
      if |breaches| > 0 && killSwitch.engagedAt.None? {
        killSwitch.Engage(now);
      }
    }

    /** Every state control is consulted, so that a refusal lists all its reasons. */
    method CheckState(context: Context, account: Account, exposure: Exposure) returns (rejections: seq<Code>)
      requires exposure == ComputeExposure(account.positions)
      ensures rejections == StateRejections(limits, killSwitch.engagedAt.Some?, context, account)
    {
      var session := CheckSession(context);
      var losses := CheckLosses(account);
      var recent := CountRecent(account.recentOrderTimestamps, context.now);
      rejections := Noted(losses, account.consecutiveLosses >= limits.maxConsecutiveLosses, ConsecutiveLossBreaker);
      rejections := Noted(rejections, recent >= limits.maxOrdersPerMinute, OrderRateBreaker);
      rejections := Noted(rejections,
        exposure.Of(context.request.symbol) == 0 && exposure.openPositions >= limits.maxOpenPositions, MaxOpenPositions);
      rejections := session + rejections;
    }

    method CheckSession(context: Context) returns (rejections: seq<Code>)
      ensures rejections == SessionRejections(limits, killSwitch.engagedAt.Some?, context)
    {
      rejections := [];
      if killSwitch.engagedAt.Some? {
        rejections := rejections + [KillSwitchEngaged];
      }
      if !context.marketOpen {
        rejections := rejections + [MarketClosed];
      }
      if context.dataIsStale {
        rejections := rejections + [StaleMarketData];
      }
      if limits.requireStopLoss && context.stopLoss.None? {
        rejections := rejections + [MissingStopLoss];
      }
    }

    /** Runs the size controls one after the other, each able to shrink what the last one left. */
    method ScaleDown(context: Context, account: Account, exposure: Exposure) returns (s: Scaled)
      requires context.referencePrice > 0
      requires exposure == ComputeExposure(account.positions)
      ensures s == Shrink(context.request.quantity, SizeCaps(limits, context, account), context.referencePrice)
    {
      hide ComputeExposure, MulRate, CapOnce, Headroom;
      var price := context.referencePrice;
      ghost var caps: seq<SizeCap> := [];
      s := Scaled(context.request.quantity, []);
      var symbolHeadroom := Headroom(MulRate(account.equity, limits.maxSymbolConcentrationFraction), exposure.Of(context.request.symbol));
      var grossHeadroom := Headroom(MulRate(account.equity, limits.maxGrossExposureFraction), exposure.gross);
      var netCap := MulRate(account.equity, limits.maxNetExposureFraction);
      var netHeadroom := Headroom(netCap, if context.request.side.BUY? then exposure.net else -exposure.net);

      s, caps := CapBySymbolValue(MulRate(account.equity, limits.maxPositionFraction), PositionValue, price, context.request.quantity, s, caps);
      s, caps := CapBySymbolValue(symbolHeadroom, SymbolConcentration, price, context.request.quantity, s, caps);
      s, caps := CapBySymbolValue(grossHeadroom, GrossExposure, price, context.request.quantity, s, caps);
      s, caps := CapBySymbolValue(netHeadroom, NetExposure, price, context.request.quantity, s, caps);
      var strategy := context.request.strategyId;
      if strategy in account.strategyAllocations {
        var used := 0;
        if strategy in account.strategyExposure {
          used := account.strategyExposure[strategy];
        }
        s, caps := CapBySymbolValue(Headroom(account.strategyAllocations[strategy], used), StrategyAllocation, price, context.request.quantity, s, caps);
      }
      s, caps := CapBySymbolValue(account.availableCash, AvailableCash, price, context.request.quantity, s, caps);
      assert caps == SizeCaps(limits, context, account);
    }

    static method CapBySymbolValue(cap: Paise, control: Adjustment, price: Paise, requested: int, s: Scaled, ghost caps: seq<SizeCap>)
      returns (r: Scaled, ghost caps': seq<SizeCap>)
      requires price > 0 && s == Shrink(requested, caps, price)
      ensures caps' == caps + [SizeCap(control, cap)] && r == Shrink(requested, caps', price)
    {
      caps' := caps + [SizeCap(control, cap)];
      assert caps'[..|caps|] == caps;
      r := s;
      var maxQuantity := cap / price;
      if maxQuantity < r.quantity {
        r := Scaled(Max(0, maxQuantity), r.adjustments + [control]);
      }
    }

    method Evaluate(context: Context, account: Account) returns (decision: Decision)
      ensures decision == Evaluated(limits, killSwitch.engagedAt.Some?, context, account)
    {
      hide StateRejections, SizeCaps, Shrink, PickBindingCode, ComputeExposure, Held;
      var request := context.request;
      if request.quantity <= 0 {
        return Reject([InvalidQuantity]);
      }
      if context.referencePrice <= 0 {
        return Reject([InvalidQuantity]);
      }
      var held := HeldQuantity(request.symbol, account.positions);
      var reducing := ReducingQuantity(request, held);
      if reducing >= request.quantity {
        if context.dataIsStale {
          return Reject([StaleMarketData]);
        }
        return Decision(true, request.quantity, [], [Bypassed]);
      }
      var exposure := MeasureExposure(account.positions);
      var rejections := CheckState(context, account, exposure);
      if |rejections| > 0 {
        return Reject(rejections);
      }
      var scaled := ScaleDown(context, account, exposure);
      if scaled.quantity <= 0 {
        return Reject([PickBindingCode(scaled.adjustments)]);
      }
      return Decision(true, scaled.quantity, [], scaled.adjustments);
    }
  }
}
