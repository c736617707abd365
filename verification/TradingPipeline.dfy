// The pipeline object: it owns the day's baselines and the staged orders, and shares the rest.
module TradingPipelines {
  import opened Money
  import opened Domain
  import opened Portfolios
  import opened Risk
  import opened RiskEngines
  import opened Pipelines
  import Sizing
  import Oms

  lemma {:induction false} RecentIsSettled(submissions: seq<Timestamp>, now: Timestamp)
    ensures Oms.Recent(Oms.Recent(submissions, now), now) == Oms.Recent(submissions, now)
  {
    if submissions != [] {
      var last := |submissions| - 1;
      var before := Oms.Recent(submissions[..last], now);
      RecentIsSettled(submissions[..last], now);
      if now - submissions[last] < 60_000 {
        assert (before + [submissions[last]])[..|before|] == before;
      } else {
        assert before + [] == before;
      }
    }
  }

  class TradingPipeline {
    const cfg: Config
    const portfolio: Portfolio
    const oms: Oms.OrderManager
    const risk: RiskEngine
    const lossBreaker: LossStreakBreaker
    var mode: Mode
    var approvals: seq<PendingApproval>
    var startOfDayEquity: Paise
    var peakEquity: Paise
    var currentDay: Option<int>

    ghost function Model(): Pipe
      reads this, portfolio, oms, risk.killSwitch, lossBreaker
    {
      Pipe(mode, approvals, startOfDayEquity, peakEquity, currentDay, lossBreaker.State(),
           risk.killSwitch.engagedAt, portfolio.Model(), oms.submissionTimestamps)
    }

    ghost predicate Valid()
      reads this, portfolio, oms, risk.killSwitch, lossBreaker
    {
      && portfolio.Valid()
      && risk.limits == cfg.limits
      && lossBreaker.maxConsecutiveLosses == cfg.limits.maxConsecutiveLosses
      && lossBreaker.cooldownMs == cfg.limits.consecutiveLossCooldownMs
    }

    constructor (cfg: Config, mode: Mode, portfolio: Portfolio, oms: Oms.OrderManager, risk: RiskEngine)
      requires portfolio.Valid() && risk.limits == cfg.limits
      ensures this.cfg == cfg && this.portfolio == portfolio && this.oms == oms && this.risk == risk
      ensures fresh(lossBreaker)
      ensures Valid()
      ensures var equity := Equity(portfolio.Model());
        Model() == Pipe(mode, [], equity, equity, None, NO_LOSSES, risk.killSwitch.engagedAt,
                        portfolio.Model(), oms.submissionTimestamps)
    {
      this.cfg, this.portfolio, this.oms, this.risk := cfg, portfolio, oms, risk;
      this.mode := mode;
      approvals := [];
      currentDay := None;
      var equity := portfolio.GetEquity();
      startOfDayEquity, peakEquity := equity, equity;
      lossBreaker := new LossStreakBreaker(cfg.limits.maxConsecutiveLosses, cfg.limits.consecutiveLossCooldownMs);
    }

    method RollDay(now: Timestamp)
      requires Valid()
      modifies this`currentDay, this`startOfDayEquity
      ensures Valid() && Model() == RolledDay(old(Model()), now)
    {
      var day := IstDay(now);
      if currentDay == Some(day) {
        return;
      }
      currentDay := Some(day);
      startOfDayEquity := portfolio.GetEquity();
    }

    method BuildAccountState(now: Timestamp) returns (account: Account)
      requires Valid()
      modifies oms`submissionTimestamps, lossBreaker
      ensures Valid() && Model() == Looked(cfg, old(Model()), now)
      ensures account == AccountOf(Model())
    {
      hide Equity, Oms.Recent;
      var equity := portfolio.GetEquity();
      var positions := portfolio.GetOpenPositions();
      var losses := lossBreaker.EffectiveStreak(now);
      var recent := oms.RecentSubmissions(now);
      account := Account(equity, portfolio.cashBalance, startOfDayEquity, peakEquity, positions,
                         equity - startOfDayEquity, losses, recent, map[], map[]);
    }

    method ObserveBar(symbol: Symbol, candle: Candle)
      requires Valid()
      modifies this`currentDay, this`startOfDayEquity, this`peakEquity, portfolio`positions,
        oms`submissionTimestamps, lossBreaker, risk.killSwitch
      ensures Valid() && Model() == Observed(cfg, old(Model()), symbol, candle)
    {
      hide Equity, Looked, AccountOf, Breaches, RolledDay, Mark;
      var now := candle.timestamp;
      RollDay(now);
      assert Model() == RolledDay(old(Model()), now);
      label Rolled:
      portfolio.MarkPrice(symbol, candle.close);
      var equity := portfolio.GetEquity();
      if equity > peakEquity {
        peakEquity := equity;
      }
      assert Model() == Seen(old@Rolled(Model()), symbol, candle.close);
      label Marked:
      var account := BuildAccountState(now);
      assert Model() == Looked(cfg, old@Marked(Model()), now);
      var breaches := risk.CheckHaltConditions(account, now);
    }

    method PlanOrder(signal: Signal, symbol: Symbol) returns (r: Result<Option<OrderRequest>, Sizing.SizingError>)
      requires Valid()
      ensures r == BuildRequest(cfg, Model(), signal, symbol)
    {
      hide Equity, Sizing.SizePosition;
      var position := portfolio.GetPosition(symbol);
      var heldQuantity := if position.Some? then position.value.quantity else 0;
      if signal.direction.FLAT? {
        if heldQuantity == 0 {
          return Success(None);
        }
        var side := if heldQuantity > 0 then SELL else BUY;
        return Success(Some(MarketOrder(signal.strategyId, symbol, side, Abs(heldQuantity), signal.timestamp)));
      }
      if heldQuantity != 0 {
        return Success(None);
      }
      if signal.stopLoss.None? {
        return Success(None);
      }
      var equity := portfolio.GetEquity();
      var conviction := if signal.strength > 0.25 then signal.strength else 0.25;
      var lotSize := if symbol in cfg.lotSizes then cfg.lotSizes[symbol] else 1;
      var input := Sizing.Input(
        equity, signal.referencePrice, signal.stopLoss.value, cfg.limits.riskPerTradeFraction * conviction,
        cfg.limits.maxPositionFraction, portfolio.cashBalance, lotSize, 1.0);
      assert input == SizingInput(cfg, Model(), signal, symbol);
      var sizing := Sizing.SizePosition(input);
      if sizing.Failure? {
        return Failure(sizing.error);
      }
      if sizing.value.quantity <= 0 {
        return Success(None);
      }
      var side := if signal.direction.LONG? then BUY else SELL;
      return Success(Some(MarketOrder(signal.strategyId, symbol, side, sizing.value.quantity, signal.timestamp)));
    }

    /** The judgement, staging and hand-over of one signal on an account just looked at. */
    method Decide(symbol: Symbol, signal: Signal, now: Timestamp, marketOpen: bool, stale: bool) returns (outcome: Outcome)
      requires Valid() && Looked(cfg, Model(), now) == Model()
      modifies this`approvals, oms`submissionTimestamps, lossBreaker
      ensures Valid() && (Model(), outcome) == Decided(cfg, old(Model()), symbol, signal, now, marketOpen, stale)
    {
      hide BuildRequest, Looked, AccountOf, Evaluated;
      var plan := PlanOrder(signal, symbol);
      if plan.Failure? {
        return SizingFailed(plan.error);
      }
      if plan.value.None? {
        return SizedToZero;
      }
      var request := plan.value.value;
      var account := BuildAccountState(now);
      var decision := risk.Evaluate(
        Context(request, signal.referencePrice, signal.stopLoss, now, marketOpen, stale), account);
      if !decision.approved {
        return RiskRejected(decision.rejections);
      }
      var approved := MarketOrder(request.strategyId, symbol, request.side, decision.approvedQuantity, signal.timestamp);
      if !mode.AUTOMATIC? {
        approvals := Put(approvals, PendingApproval(approved, signal, now));
        return AwaitingApproval(approved);
      }
      return Handed(approved);
    }

    method OnBar(symbol: Symbol, candles: seq<Candle>, answers: Answers) returns (outcome: Outcome)
      requires Valid()
      modifies this, portfolio`positions, oms`submissionTimestamps, lossBreaker, risk.killSwitch
      ensures Valid() && (Model(), outcome) == Pipelines.OnBar(cfg, old(Model()), symbol, candles, answers)
    {
      hide Observed, Looked, Decided;
      if candles == [] {
        return NoSignal;
      }
      var candle := candles[|candles| - 1];
      ObserveBar(symbol, candle);
      ObservedIsSettled(cfg, old(Model()), symbol, candle);
      if answers.signal.None? {
        return NoSignal;
      }
      if !answers.allowed {
        return ModelVetoed;
      }
      outcome := Decide(symbol, answers.signal.value, candle.timestamp, answers.marketOpen, answers.dataIsStale);
    }

    /** Releases a staged order after judging it again. */
    method ReleaseStaged(key: Key, now: Timestamp, marketOpen: bool, stale: bool) returns (outcome: Outcome)
      requires Valid()
      modifies this`approvals, oms`submissionTimestamps, lossBreaker
      ensures Valid() && (Model(), outcome) == OnApprove(cfg, old(Model()), key, now, marketOpen, stale)
    {
      hide Looked, AccountOf, Evaluated;
      var i := Find(approvals, key);
      if i == |approvals| {
        return NoSignal;
      }
      var staged := approvals[i];
      LookedKeepsApprovals(cfg, Model(), now);
      var account := BuildAccountState(now);
      var decision := risk.Evaluate(
        Context(staged.request, staged.signal.referencePrice, staged.signal.stopLoss, now, marketOpen, stale), account);
      approvals := Drop(approvals, key);
      if !decision.approved {
        return RiskRejected(decision.rejections);
      }
      return Handed(staged.request);
    }

    method CaptureState() returns (saved: Saved)
      ensures saved == Captured(Model())
    {
      saved := Saved(currentDay, startOfDayEquity, peakEquity, lossBreaker.State(), approvals);
    }

    method RestoreState(saved: Saved)
      requires Valid()
      modifies this`currentDay, this`startOfDayEquity, this`peakEquity, this`approvals, lossBreaker
      ensures Valid() && Model() == Restored(old(Model()), saved)
    {
      hide Equity, PutAll;
      currentDay := saved.day;
      startOfDayEquity := saved.startOfDay;
      var equity := portfolio.GetEquity();
      peakEquity := Max(saved.peak, equity);
      lossBreaker.Restore(saved.streak);
      RestoreApprovals(saved.approvals);
    }

    method RestoreApprovals(saved: seq<PendingApproval>)
      modifies this`approvals
      ensures approvals == PutAll(saved)
    {
      hide Put;
      approvals := [];
      for i := 0 to |saved|
        invariant approvals == PutAll(saved[..i])
      {
        assert saved[..i + 1][..i] == saved[..i];
        approvals := Put(approvals, saved[i]);
      }
      assert saved[..|saved|] == saved;
    }

    method EmergencyStop(at: Timestamp)
      modifies risk.killSwitch
      ensures risk.killSwitch.engagedAt == if old(risk.killSwitch.engagedAt).Some? then old(risk.killSwitch.engagedAt) else Some(at)
    {
      risk.killSwitch.Engage(at);
    }

    method ReleaseEmergencyStop()
      modifies risk.killSwitch
      ensures risk.killSwitch.engagedAt == None
    {
      risk.killSwitch.Release();
    }

    method RecordTradeOutcome(pnl: int, at: Timestamp)
      requires Valid()
      modifies lossBreaker
      ensures Valid() && Model() == old(Model()).(streak := Recorded(cfg.limits.maxConsecutiveLosses, old(Model()).streak, pnl, at))
    {
      lossBreaker.Record(pnl, at);
    }
  }

  lemma LookedKeepsApprovals(cfg: Config, p: Pipe, now: Timestamp)
    ensures Looked(cfg, p, now).approvals == p.approvals
  {
  }

  lemma ObservedIsSettled(cfg: Config, p: Pipe, symbol: Symbol, candle: Candle)
    requires p.book.Valid()
    ensures var q := Observed(cfg, p, symbol, candle); Looked(cfg, q, candle.timestamp) == q
  {
    hide Equity, Breaches, AccountOf, RolledDay, Mark, Oms.Recent;
    RecentIsSettled(RolledDay(p, candle.timestamp).submissions, candle.timestamp);
  }
}
