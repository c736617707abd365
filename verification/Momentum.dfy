// Momentum: a channel breakout confirmed by rate of change.
module MomentumStrategies {
  import opened Money
  import opened Domain
  import opened Indicators
  import opened Strategies
  import Risk
  import Sizing
  import B = Backtests

  datatype Config = Config(
    channelPeriod: Period,
    exitChannelPeriod: Period,
    rocPeriod: Period,
    minRoc: real,
    atrPeriod: Period,
    atrStopMultiplier: real,
    allowShorts: bool,
    id: string)
  {
    function WarmupBars(): nat {
      Max(Max(channelPeriod, rocPeriod), atrPeriod) + 2
    }
  }

  datatype Prepared = Prepared(upper: Line, lower: Line, exitUpper: Line, exitLower: Line, rocValues: Line, atrValues: Line)

  function PreparedOf(cfg: Config, candles: seq<Candle>): Prepared {
    Prepared(
      LineOf(ChannelEdge(Highest, cfg.channelPeriod), Highs(candles)),
      LineOf(ChannelEdge(Lowest, cfg.channelPeriod), Lows(candles)),
      LineOf(ChannelEdge(Highest, cfg.exitChannelPeriod), Highs(candles)),
      LineOf(ChannelEdge(Lowest, cfg.exitChannelPeriod), Lows(candles)),
      LineOf(Change(cfg.rocPeriod), Closes(candles)),
      AtrLine(cfg.atrPeriod, candles))
  }

  method Prepare(cfg: Config, candles: seq<Candle>) returns (p: Prepared)
    ensures p == PreparedOf(cfg, candles)
  {
    hide LineOf;
    var close, high, low := ReadFields(candles);
    var upper := Channel(Highest, high, cfg.channelPeriod);
    var lower := Channel(Lowest, low, cfg.channelPeriod);
    var exitUpper := Channel(Highest, high, cfg.exitChannelPeriod);
    var exitLower := Channel(Lowest, low, cfg.exitChannelPeriod);
    var rocValues := Roc(close, cfg.rocPeriod);
    var atrValues := Atr(high, low, close, cfg.atrPeriod);
    p := Prepared(upper.value, lower.value, exitUpper.value, exitLower.value, rocValues.value, atrValues.value);
  }

  /** What the strategy reads at one bar: its channels one bar back, everything else at the bar itself. */
  datatype Reading = Reading(upper: real, lower: real, exitUpper: real, exitLower: real, roc: real, atr: real)

  function Read(p: Prepared, index: nat): Option<Reading> {
    var upper, lower := At(p.upper, index - 1), At(p.lower, index - 1);
    var exitUpper, exitLower := At(p.exitUpper, index - 1), At(p.exitLower, index - 1);
    var roc, atr := At(p.rocValues, index), At(p.atrValues, index);
    if upper.None? || lower.None? || exitUpper.None? || exitLower.None? || roc.None? || atr.None? || atr.value <= 0.0 then None
    else Some(Reading(upper.value, lower.value, exitUpper.value, exitLower.value, roc.value, atr.value))
  }

  /**
   * How strongly a breakout is confirmed. With no minimum any change is full confirmation, and no
   * change at all is no number; `nan` stands for whatever that is taken for.
   */
  function Confirmation(nan: real, roc: real, minRoc: real): real {
    if minRoc != 0.0 then RealMin(1.0, RealAbs(roc) / (minRoc * 3.0))
    else if roc != 0.0 then 1.0
    else nan
  }

  /** What one bar calls for, from its close, its reading and the position held. */
  function Called(nan: real, cfg: Config, c: Candle, symbol: Symbol, held: Direction, r: Reading): Option<Signal>
  {
    var price := c.close as real;
    if (held.LONG? && price < r.exitLower) || (held.SHORT? && price > r.exitUpper) then
      Some(SignalFor(cfg.id, c, symbol, FLAT, 1.0, None))
    else if !held.FLAT? then None
    else
      var brokeUp := price > r.upper && r.roc >= cfg.minRoc;
      var brokeDown := cfg.allowShorts && price < r.lower && r.roc <= -cfg.minRoc;
      if !brokeUp && !brokeDown then None
      else
        var direction := if brokeUp then LONG else SHORT;
        Some(SignalFor(cfg.id, c, symbol, direction, Confirmation(nan, r.roc, cfg.minRoc),
                       Sizing.AtrStopLoss(c.close, r.atr, direction, cfg.atrStopMultiplier)))
  }

  function Evaluate(nan: real, cfg: Config, ctx: B.Context, p: Prepared): Option<Signal>
  {
    if ctx.index < cfg.WarmupBars() || ctx.index >= |ctx.candles| then None
    else
      var reading := Read(p, ctx.index);
      if reading.None? then None
      else Called(nan, cfg, ctx.candles[ctx.index], ctx.symbol, DirectionOf(ctx.position), reading.value)
  }

  function StrategyOf(nan: real, cfg: Config): B.Strategy<Prepared>
  {
    B.Strategy(candles => PreparedOf(cfg, candles), (ctx, p) => Evaluate(nan, cfg, ctx, p))
  }

  // ----- What a signal means -----

  /** The channel of the `period` bars before `index`, never the bar itself. */
  lemma ChannelBefore(edge: Edge, period: Period, s: Series, index: nat)
    requires period <= index <= |s|
    ensures At(LineOf(ChannelEdge(edge, period), s), index - 1) == Some(Best(edge, s[index - period..index]))
  {
    hide Best;
    LineAt(ChannelEdge(edge, period), s, index - 1);
    assert s[..index][index - period..] == s[index - period..index];
  }

  ghost predicate ClosesAbove(candles: seq<Candle>, index: nat, n: nat)
    requires index < |candles|
  {
    n <= index && forall k :: index - n <= k < index ==> candles[index].close > candles[k].high
  }

  ghost predicate ClosesBelow(candles: seq<Candle>, index: nat, n: nat)
    requires index < |candles|
  {
    n <= index && forall k :: index - n <= k < index ==> candles[index].close < candles[k].low
  }

  /** An entry is a true breakout: the close lies beyond every bar of the channel that ended before it. */
  lemma EntriesBreakTheChannel(nan: real, cfg: Config, candles: seq<Candle>, index: nat, symbol: Symbol, position: Option<Position>, now: Timestamp)
    requires index < |candles|
    ensures var s := Evaluate(nan, cfg, B.Context(symbol, candles, index, position, now, 0), PreparedOf(cfg, candles));
      && (s.Some? && s.value.direction.LONG? ==> ClosesAbove(candles, index, cfg.channelPeriod))
      && (s.Some? && s.value.direction.SHORT? ==> cfg.allowShorts && ClosesBelow(candles, index, cfg.channelPeriod))
  {
    hide Best, LineOf, TrueRanges;
    var s := Evaluate(nan, cfg, B.Context(symbol, candles, index, position, now, 0), PreparedOf(cfg, candles));
    if s.Some? && !s.value.direction.FLAT? {
      var n := cfg.channelPeriod;
      ChannelBefore(Highest, n, Highs(candles), index);
      ChannelBefore(Lowest, n, Lows(candles), index);
      var highs, lows := Highs(candles)[index - n..index], Lows(candles)[index - n..index];
      BestIsBest(Highest, highs);
      BestIsBest(Lowest, lows);
      forall k | index - n <= k < index
        ensures candles[k].high as real <= Best(Highest, highs) && candles[k].low as real >= Best(Lowest, lows)
      {
        assert highs[k - (index - n)] == candles[k].high as real;
        assert lows[k - (index - n)] == candles[k].low as real;
      }
    }
  }

  /** Exits only ever answer an open position, entries only a flat one. */
  lemma SignalsFitThePosition(nan: real, cfg: Config, candles: seq<Candle>, index: nat, symbol: Symbol, position: Option<Position>, now: Timestamp)
    requires index < |candles|
    ensures var s := Evaluate(nan, cfg, B.Context(symbol, candles, index, position, now, 0), PreparedOf(cfg, candles));
      s.Some? ==> (s.value.direction.FLAT? <==> !DirectionOf(position).FLAT?)
                  && (s.value.stopLoss.None? <==> s.value.direction.FLAT?)
  {
    hide LineOf, Highs, Lows, Closes, AtrLine, Sizing.AtrStopLoss;
    var p := PreparedOf(cfg, candles);
    var reading := Read(p, index);
    if reading.Some? {
      StopIsSet(candles[index].close, reading.value.atr, LONG, cfg.atrStopMultiplier);
      StopIsSet(candles[index].close, reading.value.atr, SHORT, cfg.atrStopMultiplier);
    }
  }

  lemma StopIsSet(price: Paise, atr: real, direction: Direction, multiplier: real)
    requires atr > 0.0
    ensures Sizing.AtrStopLoss(price, atr, direction, multiplier).Some?
  {
  }

  /** What the strategy can read at a bar is defined. */
  predicate Ready(cfg: Config, candles: seq<Candle>, index: nat)
    requires index < |candles|
  {
    var atr := At(AtrLine(cfg.atrPeriod, candles), index);
    && index >= cfg.channelPeriod + 2 && index >= cfg.rocPeriod + 2 && index >= cfg.atrPeriod + 2 && index >= cfg.exitChannelPeriod
    && At(LineOf(Change(cfg.rocPeriod), Closes(candles)), index).Some?
    && atr.Some? && atr.value > 0.0
  }

  lemma HighestIsAbove(candles: seq<Candle>, index: nat, n: Period)
    requires n <= index < |candles|
    ensures candles[index].close as real > Best(Highest, Highs(candles)[index - n..index]) <==> ClosesAbove(candles, index, n)
  {
    hide Best;
    var highs := Highs(candles)[index - n..index];
    BestIsBest(Highest, highs);
    assert forall k :: index - n <= k < index ==> highs[k - (index - n)] == candles[k].high as real;
    var i :| 0 <= i < n && highs[i] == Best(Highest, highs);
    assert candles[index - n + i].high as real == highs[i];
  }

  lemma LowestIsBelow(candles: seq<Candle>, index: nat, n: Period)
    requires n <= index < |candles|
    ensures (candles[index].close as real) < Best(Lowest, Lows(candles)[index - n..index]) <==> ClosesBelow(candles, index, n)
  {
    hide Best;
    var lows := Lows(candles)[index - n..index];
    BestIsBest(Lowest, lows);
    assert forall k :: index - n <= k < index ==> lows[k - (index - n)] == candles[k].low as real;
    var i :| 0 <= i < n && lows[i] == Best(Lowest, lows);
    assert candles[index - n + i].low as real == lows[i];
  }

  /** What is read at a bar: the channels of the bars before it, its own change and its own range. */
  lemma ReadingOf(cfg: Config, candles: seq<Candle>, index: nat)
    requires index < |candles| && index >= cfg.WarmupBars()
    ensures Read(PreparedOf(cfg, candles), index).Some? <==> Ready(cfg, candles, index)
    ensures Ready(cfg, candles, index) ==>
              Read(PreparedOf(cfg, candles), index).value ==
              Reading(Best(Highest, Highs(candles)[index - cfg.channelPeriod..index]),
                      Best(Lowest, Lows(candles)[index - cfg.channelPeriod..index]),
                      Best(Highest, Highs(candles)[index - cfg.exitChannelPeriod..index]),
                      Best(Lowest, Lows(candles)[index - cfg.exitChannelPeriod..index]),
                      At(LineOf(Change(cfg.rocPeriod), Closes(candles)), index).value,
                      At(AtrLine(cfg.atrPeriod, candles), index).value)
  {
    hide Best, Change, AtrLine, Closes, Highs, Lows;
    ChannelBefore(Highest, cfg.channelPeriod, Highs(candles), index);
    ChannelBefore(Lowest, cfg.channelPeriod, Lows(candles), index);
    if index >= cfg.exitChannelPeriod {
      ChannelBefore(Highest, cfg.exitChannelPeriod, Highs(candles), index);
      ChannelBefore(Lowest, cfg.exitChannelPeriod, Lows(candles), index);
    } else {
      NoChannelYet(Highest, cfg.exitChannelPeriod, Highs(candles), index);
    }
  }

  lemma NoChannelYet(edge: Edge, period: Period, s: Series, index: nat)
    requires index < period && index <= |s|
    ensures At(LineOf(ChannelEdge(edge, period), s), index - 1).None?
  {
  }

  /**
   * The strategy calls an exit exactly when the close leaves the exit channel against the position,
   * and an entry exactly when it is flat, the close breaks the channel of the bars before, and the
   * change over its period confirms it. A break upwards is taken first.
   */
  lemma SignalsExactly(nan: real, cfg: Config, candles: seq<Candle>, index: nat, symbol: Symbol, position: Option<Position>, now: Timestamp)
    requires index < |candles|
    ensures var s := Evaluate(nan, cfg, B.Context(symbol, candles, index, position, now, 0), PreparedOf(cfg, candles));
      var held, roc := DirectionOf(position), At(LineOf(Change(cfg.rocPeriod), Closes(candles)), index);
      var ready := Ready(cfg, candles, index);
      && (s.Some? && s.value.direction.FLAT? <==>
            ready && ((held.LONG? && ClosesBelow(candles, index, cfg.exitChannelPeriod))
                      || (held.SHORT? && ClosesAbove(candles, index, cfg.exitChannelPeriod))))
      && (s.Some? && s.value.direction.LONG? <==>
            ready && held.FLAT? && ClosesAbove(candles, index, cfg.channelPeriod) && roc.value >= cfg.minRoc)
      && (s.Some? && s.value.direction.SHORT? <==>
            && ready && held.FLAT? && cfg.allowShorts && ClosesBelow(candles, index, cfg.channelPeriod) && roc.value <= -cfg.minRoc
            && !(ClosesAbove(candles, index, cfg.channelPeriod) && roc.value >= cfg.minRoc))
  {
    hide Best, AtrLine, PreparedOf, Read, LineOf, Highs, Lows, Sizing.AtrStopLoss, ClosesAbove, ClosesBelow, Confirmation;
    if index >= cfg.WarmupBars() {
      ReadingOf(cfg, candles, index);
      if Ready(cfg, candles, index) {
        HighestIsAbove(candles, index, cfg.channelPeriod);
        LowestIsBelow(candles, index, cfg.channelPeriod);
        HighestIsAbove(candles, index, cfg.exitChannelPeriod);
        LowestIsBelow(candles, index, cfg.exitChannelPeriod);
      }
    }
  }

  /** An entry refers to its bar's close, and its stop lies against it at the multiple of its bar's own range. */
  lemma EntriesStopAtTheirRange(nan: real, cfg: Config, candles: seq<Candle>, index: nat, symbol: Symbol, position: Option<Position>, now: Timestamp)
    requires index < |candles|
    ensures var s := Evaluate(nan, cfg, B.Context(symbol, candles, index, position, now, 0), PreparedOf(cfg, candles));
      s.Some? ==>
        && s.value.referencePrice == candles[index].close && s.value.timestamp == candles[index].timestamp
        && s.value.symbol == symbol && s.value.strategyId == cfg.id
        && (!s.value.direction.FLAT? ==>
              && At(AtrLine(cfg.atrPeriod, candles), index).Some?
              && var range := At(AtrLine(cfg.atrPeriod, candles), index).value;
                 && range > 0.0 && s.value.stopLoss.Some?
                 && Sizing.StopFits(candles[index].close, range, s.value.direction, cfg.atrStopMultiplier, s.value.stopLoss.value)
                 && (cfg.atrStopMultiplier > 0.0 && candles[index].close >= 1 ==>
                       if s.value.direction.LONG? then s.value.stopLoss.value <= candles[index].close
                       else s.value.stopLoss.value >= candles[index].close))
  {
    hide Best, AtrLine, PreparedOf, Read, LineOf, Highs, Lows, Sizing.AtrStopLoss, Sizing.StopFits, Confirmation;
    if index >= cfg.WarmupBars() {
      ReadingOf(cfg, candles, index);
      if Ready(cfg, candles, index) {
        var range := At(AtrLine(cfg.atrPeriod, candles), index).value;
        Sizing.StopIsThere(candles[index].close, range, LONG, cfg.atrStopMultiplier);
        Sizing.StopIsThere(candles[index].close, range, SHORT, cfg.atrStopMultiplier);
        if cfg.atrStopMultiplier > 0.0 && candles[index].close >= 1 {
          Sizing.StopIsOnTheLosingSide(candles[index].close, range, LONG, cfg.atrStopMultiplier);
          Sizing.StopIsOnTheLosingSide(candles[index].close, range, SHORT, cfg.atrStopMultiplier);
        }
      }
    }
  }

  /** A third of three times the least change is the least confirmation; from three times on it is full. */
  lemma ConfirmationCountsChanges(nan: real, roc: real, minRoc: real)
    requires minRoc > 0.0
    ensures RealAbs(roc) >= minRoc * 3.0 ==> Confirmation(nan, roc, minRoc) == 1.0
    ensures RealAbs(roc) < minRoc * 3.0 ==> Confirmation(nan, roc, minRoc) * (minRoc * 3.0) == RealAbs(roc)
    ensures 0.0 <= Confirmation(nan, roc, minRoc) <= 1.0
  {
    SharesOut(RealAbs(roc), minRoc * 3.0);
  }

  lemma SharesOut(part: real, whole: real)
    requires part >= 0.0 && whole > 0.0
    ensures part / whole * whole == part && part / whole >= 0.0 && (part / whole >= 1.0 <==> part >= whole)
  {
    var share := part / whole;
    assert share * whole == part;
    ShareOfWhole(share, whole);
  }

  lemma ShareOfWhole(share: real, whole: real)
    requires whole > 0.0
    ensures share >= 1.0 <==> share * whole >= whole
    ensures share >= 0.0 <==> share * whole >= 0.0
  {
    Risk.ScalesBothWays(1.0, share, whole);
    Risk.ScalesBothWays(0.0, share, whole);
  }

  /** An exit is called at full strength, an entry at its confirmation, within nothing and one. */
  lemma StrengthIsConfirmation(nan: real, cfg: Config, candles: seq<Candle>, index: nat, symbol: Symbol, position: Option<Position>, now: Timestamp)
    requires index < |candles|
    ensures var s := Evaluate(nan, cfg, B.Context(symbol, candles, index, position, now, 0), PreparedOf(cfg, candles));
      var roc := At(LineOf(Change(cfg.rocPeriod), Closes(candles)), index);
      s.Some? ==>
        && roc.Some?
        && s.value.strength ==
           if s.value.direction.FLAT? then 1.0 else RealMin(1.0, RealMax(0.0, Confirmation(nan, roc.value, cfg.minRoc)))
  {
    hide Best, AtrLine, PreparedOf, Read, LineOf, Highs, Lows, Sizing.AtrStopLoss, Confirmation;
    if index >= cfg.WarmupBars() {
      ReadingOf(cfg, candles, index);
    }
  }

  // ----- No lookahead -----

  lemma PreparedIsPrefixStable(cfg: Config, a: seq<Candle>, b: seq<Candle>, n: nat)
    requires Agree(a, b, n)
    ensures var p, q := PreparedOf(cfg, a), PreparedOf(cfg, b);
      && Agree(p.upper, q.upper, n) && Agree(p.lower, q.lower, n)
      && Agree(p.exitUpper, q.exitUpper, n) && Agree(p.exitLower, q.exitLower, n)
      && Agree(p.rocValues, q.rocValues, n) && Agree(p.atrValues, q.atrValues, n)
  {
    hide LineOf, Highs, Lows, Closes, AtrLine, Agree, ChannelEdge, Change;
    FieldsArePrefixStable(a, b, n);
    LinesArePrefixStable(ChannelEdge(Highest, cfg.channelPeriod), Highs(a), Highs(b), n);
    LinesArePrefixStable(ChannelEdge(Lowest, cfg.channelPeriod), Lows(a), Lows(b), n);
    LinesArePrefixStable(ChannelEdge(Highest, cfg.exitChannelPeriod), Highs(a), Highs(b), n);
    LinesArePrefixStable(ChannelEdge(Lowest, cfg.exitChannelPeriod), Lows(a), Lows(b), n);
    LinesArePrefixStable(Change(cfg.rocPeriod), Closes(a), Closes(b), n);
    AtrIsPrefixStable(cfg.atrPeriod, a, b, n);
  }

  /** At any bar, the signal is the same whatever bars follow it. */
  lemma SignalsLookBack(nan: real, cfg: Config, a: seq<Candle>, b: seq<Candle>, i: nat, symbol: Symbol, position: Option<Position>, now: Timestamp)
    requires Agree(a, b, i + 1)
    ensures Evaluate(nan, cfg, B.Context(symbol, a, i, position, now, 0), PreparedOf(cfg, a)) ==
            Evaluate(nan, cfg, B.Context(symbol, b, i, position, now, 0), PreparedOf(cfg, b))
  {
    hide PreparedOf, Called;
    AgreeAt(a, b, i + 1, i);
    PreparedIsPrefixStable(cfg, a, b, i + 1);
    var p, q := PreparedOf(cfg, a), PreparedOf(cfg, b);
    ReadsArePrefixStable(p.upper, q.upper, i + 1, i - 1);
    ReadsArePrefixStable(p.lower, q.lower, i + 1, i - 1);
    ReadsArePrefixStable(p.exitUpper, q.exitUpper, i + 1, i - 1);
    ReadsArePrefixStable(p.exitLower, q.exitLower, i + 1, i - 1);
    ReadsArePrefixStable(p.rocValues, q.rocValues, i + 1, i);
    ReadsArePrefixStable(p.atrValues, q.atrValues, i + 1, i);
    assert Read(p, i) == Read(q, i);
  }
}
