// No lookahead over whole runs: what a backtest has recorded by a bar cannot depend on the bars after it.
module NoLookahead {
  import opened Money
  import opened Domain
  import opened Portfolios
  import Ledgers
  import Pipelines
  import opened Backtests
  import opened BacktestRuns
  import E = BacktestExecutions
  import opened Indicators
  import S = Strategies
  import M = MomentumStrategies
  import V = VolatilityStrategies

  // ----- Causality -----

  ghost predicate SameSignals<P(!new)>(strategy: Strategy<P>, a: seq<Candle>, b: seq<Candle>, i: nat) {
    forall symbol, position, now ::
      strategy.evaluate(Context(symbol, a, i, position, now, 0), strategy.prepare(a)) ==
      strategy.evaluate(Context(symbol, b, i, position, now, 0), strategy.prepare(b))
  }

  /** A strategy whose signal at a bar depends on the bars up to it alone, although it prepares over the whole series. */
  ghost predicate Causal<P(!new)>(strategy: Strategy<P>) {
    forall a, b, i: nat :: Agree(a, b, i + 1) ==> SameSignals(strategy, a, b, i)
  }

  ghost predicate SameVerdicts(gate: Gate, a: seq<Candle>, b: seq<Candle>, i: nat) {
    forall signal :: gate(signal, a, i) == gate(signal, b, i)
  }

  ghost predicate CausalGate(gate: Gate) {
    forall a, b, i: nat :: Agree(a, b, i + 1) ==> SameVerdicts(gate, a, b, i)
  }

  lemma AdviceLooksBack<P(!new)>(strategy: Strategy<P>, gate: Gate, a: seq<Candle>, b: seq<Candle>, symbol: Symbol,
        i: nat, position: Option<Position>)
    requires Causal(strategy) && CausalGate(gate) && Agree(a, b, i + 1)
    ensures AdviceAt(strategy, gate, a, symbol, i, position) == AdviceAt(strategy, gate, b, symbol, i, position)
  {
    S.AgreeAt(a, b, i + 1, i);
    assert SameSignals(strategy, a, b, i) && SameVerdicts(gate, a, b, i);
  }

  // ----- What a bar appends -----

  lemma SendKeepsCurve(cfg: Config, bt: Bt, request: OrderRequest, now: Timestamp)
    requires cfg.Valid() && bt.Valid()
    ensures Send(cfg, bt, request, now).curve == bt.curve
  {
    hide Ledgers.Step;
  }

  lemma OpenKeepsCurve(cfg: Config, bt: Bt, symbol: Symbol, c: Candle)
    requires cfg.Valid() && bt.Valid() && Quotable(c)
    ensures OpenBar(cfg, bt, symbol, c).curve == bt.curve
  {
    hide Publish, Send, Bt.Valid;
    var quoted := Publish(cfg, bt, symbol, c.open);
    if bt.pending.Some? {
      var p := bt.pending.value;
      var quantity := LotFloor(p.quantity, cfg.lotSize);
      if quantity > 0 {
        SendKeepsCurve(cfg, quoted, Pipelines.MarketOrder(p.strategyId, p.symbol, p.side, quantity, p.decisionBar),
            c.timestamp);
      }
    }
  }

  lemma EnforceKeepsCurve(cfg: Config, bt: Bt, symbol: Symbol, price: nat, now: Timestamp)
    requires cfg.Valid() && bt.Valid()
    ensures EnforceStop(cfg, bt, symbol, price, now).curve == bt.curve
  {
    hide Publish, Send, Bt.Valid;
    var held := bt.Held(symbol);
    if bt.openRisk.Some? && held != 0 {
      SendKeepsCurve(cfg, bt, Pipelines.MarketOrder(STOP_ID, symbol, if held > 0 then SELL else BUY, Abs(held), now), now);
    }
  }

  lemma ExtremesKeepCurve(cfg: Config, bt: Bt, symbol: Symbol, c: Candle)
    requires cfg.Valid() && bt.Valid() && Quotable(c)
    ensures Extremes(cfg, bt, symbol, c).curve == bt.curve
  {
    hide Touch, EnforceStop, Bt.Valid;
    var isShort := bt.Held(symbol) < 0;
    var nearer, farther := if isShort then c.high else c.low, if isShort then c.low else c.high;
    EnforceKeepsCurve(cfg, Touch(cfg, bt, symbol, nearer), symbol, nearer, c.timestamp);
    var first := Extreme(cfg, bt, symbol, nearer, c.timestamp);
    EnforceKeepsCurve(cfg, Touch(cfg, first, symbol, farther), symbol, farther, c.timestamp);
  }

  /** Walking a bar appends one point to the curve. */
  lemma WalkAppendsOnePoint(cfg: Config, bt: Bt, symbol: Symbol, c: Candle)
    requires cfg.Valid() && bt.Valid() && Quotable(c)
    ensures |WalkBar(cfg, bt, symbol, c).curve| == |bt.curve| + 1
    ensures WalkBar(cfg, bt, symbol, c).curve[..|bt.curve|] == bt.curve
  {
    hide OpenBar, Extremes, Touch, Bt.Valid, Equity, RecordTrades, TrailedStop;
    var begun := BeginBar(bt, c.timestamp);
    OpenKeepsCurve(cfg, begun, symbol, c);
    ExtremesKeepCurve(cfg, OpenBar(cfg, begun, symbol, c), symbol, c);
  }

  lemma DecideKeepsCurve(cfg: Config, bt: Bt, symbol: Symbol, advice: Advice, now: Timestamp)
    requires bt.Valid()
    ensures var r := Decide(cfg, bt, symbol, advice, now); r.Success? ==> r.value.curve == bt.curve
  {
    hide PlanOrder, Bt.Valid;
  }

  /** A finished bar leaves the walked bar's curve, whatever was decided. */
  lemma BarKeepsWalkedCurve(cfg: Config, bt: Bt, symbol: Symbol, c: Candle, last: bool, advise: Option<Position> -> Advice)
    requires cfg.Valid() && bt.Valid() && Quotable(c)
    ensures var r := Bar(cfg, bt, symbol, c, last, advise); r.Success? ==> r.value.curve == WalkBar(cfg, bt, symbol, c).curve
  {
    hide WalkBar, Decide, Bt.Valid;
    var walked := WalkBar(cfg, bt, symbol, c);
    if !last {
      DecideKeepsCurve(cfg, walked, symbol, advise(PositionOf(walked.desk.book, symbol)), c.timestamp);
    }
  }

  lemma BarHearsOnlyAdvice(cfg: Config, bt: Bt, symbol: Symbol, c: Candle, advise: Option<Position> -> Advice,
        other: Option<Position> -> Advice)
    requires cfg.Valid() && bt.Valid() && Quotable(c) && forall position :: advise(position) == other(position)
    ensures Bar(cfg, bt, symbol, c, false, advise) == Bar(cfg, bt, symbol, c, false, other)
  {
    hide WalkBar, Decide, Bt.Valid;
  }

  // ----- Runs -----

  ghost predicate Comparable<P(!new)>(cfg: Config, strategy: Strategy<P>, gate: Gate, a: seq<Candle>, b: seq<Candle>, p: nat) {
    && cfg.Valid() && Causal(strategy) && CausalGate(gate)
    && AllQuotable(a) && AllQuotable(b) && 1 <= p && Agree(a, b, p)
  }

  /**
   * After as many bars as two histories share, when neither ends there, and before that in any case,
   * the two runs are in the same state, orders and all, or failed alike.
   */
  lemma {:induction false} RunsAgree<P(!new)>(cfg: Config, strategy: Strategy<P>, gate: Gate, a: seq<Candle>,
        b: seq<Candle>, p: nat, n: nat)
    requires Comparable(cfg, strategy, gate, a, b, p) && n <= p && n < |a| && n < |b|
    ensures a != [] && b != [] && Run(cfg, strategy, gate, a, n) == Run(cfg, strategy, gate, b, n)
    decreases n
  {
    hide Bar, Causal, CausalGate, Bt.Valid;
    S.AgreeAt(a, b, p, 0);
    if n > 0 {
      RunsAgree(cfg, strategy, gate, a, b, p, n - 1);
      var before := Run(cfg, strategy, gate, a, n - 1);
      if before.Success? {
        S.AgreeAt(a, b, p, n - 1);
        var symbol := a[0].symbol;
        AgreeSooner(a, b, p, n);
        var advise, other := Advisor(strategy, gate, a, symbol, n - 1), Advisor(strategy, gate, b, symbol, n - 1);
        forall position
          ensures advise(position) == other(position)
        {
          AdviceLooksBack(strategy, gate, a, b, symbol, n - 1, position);
        }
        BarHearsOnlyAdvice(cfg, before.value, symbol, a[n - 1], advise, other);
      }
    }
  }

  /** One more bar appends one more point, the one its walk computes. */
  lemma BarAppends<P(!new)>(cfg: Config, strategy: Strategy<P>, gate: Gate, a: seq<Candle>, n: nat)
    requires cfg.Valid() && a != [] && AllQuotable(a) && n < |a| && Run(cfg, strategy, gate, a, n + 1).Success?
    ensures var before := Run(cfg, strategy, gate, a, n);
      && before.Success?
      && var after := Run(cfg, strategy, gate, a, n + 1).value.curve;
         after == WalkBar(cfg, before.value, a[0].symbol, a[n]).curve
         && |after| == |before.value.curve| + 1 && after[..|before.value.curve|] == before.value.curve
  {
    hide Bar, WalkBar, Bt.Valid, Advisor;
    var before := Run(cfg, strategy, gate, a, n);
    WalkAppendsOnePoint(cfg, before.value, a[0].symbol, a[n]);
    BarKeepsWalkedCurve(cfg, before.value, a[0].symbol, a[n], n + 1 == |a|, Advisor(strategy, gate, a, a[0].symbol, n));
  }

  lemma {:induction false} OnePointABar<P(!new)>(cfg: Config, strategy: Strategy<P>, gate: Gate, a: seq<Candle>, n: nat)
    requires cfg.Valid() && a != [] && AllQuotable(a) && n <= |a| && Run(cfg, strategy, gate, a, n).Success?
    ensures |Run(cfg, strategy, gate, a, n).value.curve| == n
    decreases n
  {
    hide Bar, WalkBar, Bt.Valid;
    if n > 0 {
      BarAppends(cfg, strategy, gate, a, n - 1);
      OnePointABar(cfg, strategy, gate, a, n - 1);
    } else {
      assert Run(cfg, strategy, gate, a, 0) == Success(Start(cfg));
    }
  }

  /** A recorded point is never revised. */
  lemma {:induction false} PointsAreFinal<P(!new)>(cfg: Config, strategy: Strategy<P>, gate: Gate, a: seq<Candle>,
        n: nat, m: nat)
    requires cfg.Valid() && a != [] && AllQuotable(a) && n <= m <= |a| && Run(cfg, strategy, gate, a, m).Success?
    ensures Run(cfg, strategy, gate, a, n).Success?
    ensures |Run(cfg, strategy, gate, a, m).value.curve| == m
    ensures Run(cfg, strategy, gate, a, m).value.curve[..n] == Run(cfg, strategy, gate, a, n).value.curve
    decreases m
  {
    hide Run, Bt.Valid, WalkBar;
    OnePointABar(cfg, strategy, gate, a, m);
    var curve := Run(cfg, strategy, gate, a, m).value.curve;
    if n == m {
      assert curve[..m] == curve;
    } else {
      BarAppends(cfg, strategy, gate, a, m - 1);
      PointsAreFinal(cfg, strategy, gate, a, n, m - 1);
      assert curve[..m - 1][..n] == curve[..n];
    }
  }

  /** The point of a shared bar is the same in both runs, even when that bar is the last of one of them. */
  lemma SharedPoint<P(!new)>(cfg: Config, strategy: Strategy<P>, gate: Gate, a: seq<Candle>, b: seq<Candle>, p: nat, n: nat)
    requires Comparable(cfg, strategy, gate, a, b, p) && n < p && a != [] && b != []
    requires Run(cfg, strategy, gate, a, n + 1).Success? && Run(cfg, strategy, gate, b, n + 1).Success?
    ensures Run(cfg, strategy, gate, a, n + 1).value.curve == Run(cfg, strategy, gate, b, n + 1).value.curve
  {
    hide Run, WalkBar, Bt.Valid, Causal, CausalGate;
    RunsAgree(cfg, strategy, gate, a, b, p, n);
    BarAppends(cfg, strategy, gate, a, n);
    BarAppends(cfg, strategy, gate, b, n);
    S.AgreeAt(a, b, p, 0);
    S.AgreeAt(a, b, p, n);
  }

  /** Two histories that share their first `p` bars have equity curves that share their first `p` points. */
  lemma CurvesShareThePrefix<P(!new)>(cfg: Config, strategy: Strategy<P>, gate: Gate, a: seq<Candle>, b: seq<Candle>, p: nat)
    requires Comparable(cfg, strategy, gate, a, b, p) && a != [] && b != []
    requires Run(cfg, strategy, gate, a, |a|).Success? && Run(cfg, strategy, gate, b, |b|).Success?
    ensures Agree(Run(cfg, strategy, gate, a, |a|).value.curve, Run(cfg, strategy, gate, b, |b|).value.curve, p)
  {
    hide Run, Bt.Valid, Causal, CausalGate, AllQuotable;
    PointsAreFinal(cfg, strategy, gate, a, p, |a|);
    PointsAreFinal(cfg, strategy, gate, b, p, |b|);
    SharedPoint(cfg, strategy, gate, a, b, p, p - 1);
  }

  /** Cutting the history short only cuts the curve short: no point was drawn with what came later. */
  lemma TruncationOnlyTruncates<P(!new)>(cfg: Config, strategy: Strategy<P>, gate: Gate, a: seq<Candle>, b: seq<Candle>, p: nat)
    requires Comparable(cfg, strategy, gate, a, b, p) && a != [] && b != [] && b == a[..p]
    requires Run(cfg, strategy, gate, a, |a|).Success?
    ensures Run(cfg, strategy, gate, b, |b|).Success?
    ensures |Run(cfg, strategy, gate, b, |b|).value.curve| == p
    ensures Run(cfg, strategy, gate, b, |b|).value.curve <= Run(cfg, strategy, gate, a, |a|).value.curve
  {
    hide Run, WalkBar, Bt.Valid, Causal, CausalGate, AllQuotable;
    PointsAreFinal(cfg, strategy, gate, a, p, |a|);
    BarAppends(cfg, strategy, gate, a, p - 1);
    RunsAgree(cfg, strategy, gate, a, b, p, p - 1);
    LastBarAlwaysFinishes(cfg, strategy, gate, b);
    OnePointABar(cfg, strategy, gate, b, p);
    SharedPoint(cfg, strategy, gate, a, b, p, p - 1);
  }

  /** The last bar decides nothing, so nothing can fail on it. */
  lemma LastBarAlwaysFinishes<P(!new)>(cfg: Config, strategy: Strategy<P>, gate: Gate, b: seq<Candle>)
    requires cfg.Valid() && b != [] && AllQuotable(b) && Run(cfg, strategy, gate, b, |b| - 1).Success?
    ensures Run(cfg, strategy, gate, b, |b|).Success?
  {
    hide WalkBar, Bt.Valid;
  }

  // ----- Inside a bar -----

  /** Until the bar has opened, only its time and its open have been seen. */
  lemma OpenSeesOnlyTheOpen(cfg: Config, bt: Bt, symbol: Symbol, c: Candle, d: Candle)
    requires cfg.Valid() && bt.Valid() && Quotable(c) && Quotable(d) && c.timestamp == d.timestamp && c.open == d.open
    ensures E.AtOpen(cfg, bt, symbol, c) == E.AtOpen(cfg, bt, symbol, d)
  {
    hide Publish, SubmitPending, BeginBar, Bt.Valid;
  }

  /** A bar's executions begin with those of its open. */
  lemma BarBeginsAtItsOpen<P(!new)>(cfg: Config, strategy: Strategy<P>, gate: Gate, a: seq<Candle>, n: nat)
    requires cfg.Valid() && a != [] && AllQuotable(a) && n < |a| && Increasing(a) && WellNamed(strategy)
    requires Run(cfg, strategy, gate, a, n).Success? && Run(cfg, strategy, gate, a, n + 1).Success?
    ensures var before, after := Run(cfg, strategy, gate, a, n).value, Run(cfg, strategy, gate, a, n + 1).value;
      var atOpen := E.AtOpen(cfg, before, a[0].symbol, a[n]);
      && before.desk.broker.fills <= atOpen.fills <= after.desk.broker.fills
      && |atOpen.fills| == |before.desk.broker.fills| + if E.Opens(cfg, before) then 1 else 0
  {
    hide Between, Bar, E.Opens, E.AtOpen, E.HeldAtOpen, StopAhead, E.Adds, Bt.Valid, WalkBar;
    var before, after, symbol := Run(cfg, strategy, gate, a, n).value, Run(cfg, strategy, gate, a, n + 1).value, a[0].symbol;
    EveryBarIsGuarded(cfg, strategy, gate, a, n);
    E.WalkExecutes(cfg, before, cfg.openingCash, symbol, a[n], if n == 0 then a[0].timestamp - 1 else a[n - 1].timestamp);
    E.BarExecutesAsWalked(cfg, before, symbol, a[n], n + 1 == |a|, Advisor(strategy, gate, a, symbol, n));
    E.StagesAdd(cfg, before, symbol, a[n], E.AtOpen(cfg, before, symbol, a[n]), after.desk.broker);
  }

  /**
   * Two histories that share some bars, and the time and the open of the bar after those, execute
   * the same entry or exit on that bar, whatever its high, low and close turn out to be.
   */
  lemma EntriesSeeOnlyTheOpen<P(!new)>(cfg: Config, strategy: Strategy<P>, gate: Gate, a: seq<Candle>, b: seq<Candle>, n: nat)
    requires Comparable(cfg, strategy, gate, a, b, n) && n < |a| && n < |b|
    requires a[n].timestamp == b[n].timestamp && a[n].open == b[n].open
    requires Increasing(a) && Increasing(b) && WellNamed(strategy)
    requires Run(cfg, strategy, gate, a, n + 1).Success? && Run(cfg, strategy, gate, b, n + 1).Success?
    ensures Run(cfg, strategy, gate, a, n).Success? && Run(cfg, strategy, gate, a, n) == Run(cfg, strategy, gate, b, n)
    ensures var before := Run(cfg, strategy, gate, a, n).value;
      var k, x, y := |before.desk.broker.fills|, Run(cfg, strategy, gate, a, n + 1).value.desk.broker.fills, Run(cfg,
          strategy, gate, b, n + 1).value.desk.broker.fills;
      E.Opens(cfg, before) ==> k < |x| && k < |y| && x[k] == y[k]
  {
    hide Bar, Causal, CausalGate, Bt.Valid, E.Opens, E.AtOpen, Increasing, WellNamed;
    RunsAgree(cfg, strategy, gate, a, b, n, n);
    var before := Run(cfg, strategy, gate, a, n).value;
    S.AgreeAt(a, b, n, 0);
    BarBeginsAtItsOpen(cfg, strategy, gate, a, n);
    BarBeginsAtItsOpen(cfg, strategy, gate, b, n);
    OpenSeesOnlyTheOpen(cfg, before, a[0].symbol, a[n], b[n]);
  }

  // ----- The strategies themselves -----

  /** The momentum strategy looks only backwards, for every setting, whatever stands for not-a-number. */
  lemma MomentumIsCausal(nan: real, settings: M.Config)
    ensures Causal(M.StrategyOf(nan, settings))
  {
    hide M.Evaluate, M.PreparedOf;
    var strategy := M.StrategyOf(nan, settings);
    forall a: seq<Candle>, b: seq<Candle>, i: nat | Agree(a, b, i + 1)
      ensures SameSignals(strategy, a, b, i)
    {
      forall symbol, position, now
        ensures M.Evaluate(nan, settings, Context(symbol, a, i, position, now, 0), M.PreparedOf(settings, a)) ==
                M.Evaluate(nan, settings, Context(symbol, b, i, position, now, 0), M.PreparedOf(settings, b))
      {
        M.SignalsLookBack(nan, settings, a, b, i, symbol, position, now);
      }
    }
  }

  /** So does the volatility strategy, squeeze window and all, whatever stands for the square root. */
  lemma VolatilityIsCausal(root: real -> real, settings: V.Config)
    ensures Causal(V.StrategyOf(root, settings))
  {
    hide V.Evaluate, V.PreparedOf;
    var strategy := V.StrategyOf(root, settings);
    forall a: seq<Candle>, b: seq<Candle>, i: nat | Agree(a, b, i + 1)
      ensures SameSignals(strategy, a, b, i)
    {
      forall symbol, position, now
        ensures V.Evaluate(settings, Context(symbol, a, i, position, now, 0), V.PreparedOf(root, settings, a)) ==
                V.Evaluate(settings, Context(symbol, b, i, position, now, 0), V.PreparedOf(root, settings, b))
      {
        V.SignalsLookBack(root, settings, a, b, i, symbol, position, now);
      }
    }
  }

  /** Backtesting momentum: points of shared bars are the same whatever the two histories do afterwards. */
  lemma MomentumBacktestsSeeNoFuture(cfg: Config, nan: real, settings: M.Config, gate: Gate, a: seq<Candle>,
        b: seq<Candle>, p: nat)
    requires cfg.Valid() && CausalGate(gate) && AllQuotable(a) && AllQuotable(b) && 1 <= p && Agree(a, b, p)
    requires Run(cfg, M.StrategyOf(nan, settings), gate, a, |a|).Success? && Run(cfg, M.StrategyOf(nan, settings),
        gate, b, |b|).Success?
    ensures Agree(Run(cfg, M.StrategyOf(nan, settings), gate, a, |a|).value.curve, Run(cfg, M.StrategyOf(nan,
        settings), gate, b, |b|).value.curve, p)
  {
    hide Run, M.StrategyOf, Causal, CausalGate, AllQuotable;
    MomentumIsCausal(nan, settings);
    CurvesShareThePrefix(cfg, M.StrategyOf(nan, settings), gate, a, b, p);
  }

  lemma VolatilityBacktestsSeeNoFuture(cfg: Config, root: real -> real, settings: V.Config, gate: Gate, a: seq<Candle>,
        b: seq<Candle>, p: nat)
    requires cfg.Valid() && CausalGate(gate) && AllQuotable(a) && AllQuotable(b) && 1 <= p && Agree(a, b, p)
    requires Run(cfg, V.StrategyOf(root, settings), gate, a, |a|).Success? && Run(cfg, V.StrategyOf(root, settings),
        gate, b, |b|).Success?
    ensures Agree(Run(cfg, V.StrategyOf(root, settings), gate, a, |a|).value.curve, Run(cfg, V.StrategyOf(root,
        settings), gate, b, |b|).value.curve, p)
  {
    hide Run, V.StrategyOf, Causal, CausalGate, AllQuotable;
    VolatilityIsCausal(root, settings);
    CurvesShareThePrefix(cfg, V.StrategyOf(root, settings), gate, a, b, p);
  }
}
