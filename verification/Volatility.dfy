// Volatility breakout: trade the expansion out of a squeeze, ranked against the recent band widths.
module VolatilityStrategies {
  import opened Money
  import opened Domain
  import opened Indicators
  import opened Strategies
  import Sizing
  import B = Backtests

  datatype Config = Config(
    bandPeriod: Period,
    bandMultiplier: real,
    squeezeLookback: int,
    squeezePercentile: real,
    atrPeriod: Period,
    atrStopMultiplier: real,
    allowShorts: bool,
    id: string)
  {
    function WarmupBars(): int {
      Max(bandPeriod + squeezeLookback, atrPeriod) + 2
    }
  }

  // ----- Order statistics -----

  ghost predicate Ascending(s: Series) {
    forall i, j :: 0 <= i < j < |s| ==> s[i] <= s[j]
  }

  function Insert(x: real, s: Series): (r: Series)
    ensures |r| == |s| + 1
  {
    if s == [] || x <= s[0] then [x] + s else [s[0]] + Insert(x, s[1..])
  }

  function Sorted(s: Series): (r: Series)
    ensures |r| == |s|
  {
    if s == [] then [] else Insert(s[0], Sorted(s[1..]))
  }

  lemma {:induction false} InsertAdds(x: real, s: Series)
    ensures multiset(Insert(x, s)) == multiset(s) + multiset{x}
  {
    if s != [] && x > s[0] {
      InsertAdds(x, s[1..]);
      assert s == [s[0]] + s[1..];
    }
  }

  lemma ConsAscends(x: real, s: Series)
    requires Ascending(s) && (s != [] ==> x <= s[0])
    ensures Ascending([x] + s)
  {
  }

  lemma {:induction false} InsertKeepsAscending(x: real, s: Series)
    requires Ascending(s)
    ensures Ascending(Insert(x, s))
    ensures Insert(x, s)[0] == x || (s != [] && Insert(x, s)[0] == s[0])
  {
    if s == [] || x <= s[0] {
      ConsAscends(x, s);
    } else {
      InsertKeepsAscending(x, s[1..]);
      ConsAscends(s[0], Insert(x, s[1..]));
    }
  }

  /** Sorting gives the same values in ascending order. */
  lemma {:induction false} SortedIsAscending(s: Series)
    ensures Ascending(Sorted(s)) && multiset(Sorted(s)) == multiset(s)
  {
    if s != [] {
      SortedIsAscending(s[1..]);
      InsertKeepsAscending(s[0], Sorted(s[1..]));
      InsertAdds(s[0], Sorted(s[1..]));
      assert s == [s[0]] + s[1..];
    }
  }

  /** How many values lie strictly below one. */
  function CountBelow(s: Series, v: real): (n: nat)
    ensures n <= |s|
  {
    if s == [] then 0 else (if s[0] < v then 1 else 0) + CountBelow(s[1..], v)
  }

  lemma {:induction false} InsertCounts(x: real, s: Series, v: real)
    ensures CountBelow(Insert(x, s), v) == CountBelow(s, v) + if x < v then 1 else 0
  {
    if s == [] || x <= s[0] {
      assert ([x] + s)[1..] == s;
    } else {
      InsertCounts(x, s[1..], v);
      assert ([s[0]] + Insert(x, s[1..]))[1..] == Insert(x, s[1..]);
    }
  }

  lemma {:induction false} SortingCounts(s: Series, v: real)
    ensures CountBelow(Sorted(s), v) == CountBelow(s, v)
  {
    if s != [] {
      SortingCounts(s[1..], v);
      InsertCounts(s[0], Sorted(s[1..]), v);
    }
  }

  lemma {:induction false} NoneBelow(s: Series, v: real)
    requires forall i :: 0 <= i < |s| ==> v <= s[i]
    ensures CountBelow(s, v) == 0
  {
    if s != [] {
      NoneBelow(s[1..], v);
    }
  }

  lemma {:induction false} RankWhenAscending(s: Series, v: real, k: nat)
    requires Ascending(s) && k < |s|
    ensures v <= s[k] <==> CountBelow(s, v) <= k
  {
    if v <= s[0] {
      NoneBelow(s, v);
    } else if k > 0 {
      RankWhenAscending(s[1..], v, k - 1);
    }
  }

  /** Comparing with the value at a sorted index is counting how many lie below. */
  lemma CutoffIsRank(s: Series, v: real, k: nat)
    requires k < |s|
    ensures v <= Sorted(s)[k] <==> CountBelow(s, v) <= k
  {
    SortedIsAscending(s);
    SortingCounts(s, v);
    RankWhenAscending(Sorted(s), v, k);
  }

  // ----- Preparing -----

  /** Band width as a fraction of the middle. */
  function WidthOf(root: real -> real, multiplier: real, period: Period, prefix: Series): Option<real> {
    WidthBetween(BandOf(UpperBand, root, multiplier, period, prefix), BandOf(LowerBand, root, multiplier, period, prefix),
                 MeanOf(period, prefix))
  }

  function WidthBetween(upper: Option<real>, lower: Option<real>, middle: Option<real>): Option<real> {
    if upper.None? || lower.None? || middle.None? || middle.value == 0.0 then None
    else Some((upper.value - lower.value) / middle.value)
  }

  function Width(root: real -> real, multiplier: real, period: Period): Series -> Option<real> {
    prefix => WidthOf(root, multiplier, period, prefix)
  }

  /** The widths a bar is ranked against: the last `lookback` that are defined, its own included. */
  function Ranked(lookback: int, widths: Line): Series
    requires |widths| > lookback
  {
    if lookback <= 0 then [] else Dense(widths[|widths| - lookback..])
  }

  /** Where in the sorted window the percentile falls; below zero there is no such value. */
  function CutoffIndex(percentile: real, size: nat): (k: int)
    ensures k < size
    ensures k as real <= size as real * percentile && (k < size - 1 ==> size as real * percentile < k as real + 1.0)
  {
    Min((size as real * percentile).Floor, size - 1)
  }

  /** Whether the newest width sits in the bottom of its own recent range. */
  predicate SqueezedOf(cfg: Config, widths: Line)
    requires widths != []
  {
    var i := |widths| - 1;
    var value := widths[i];
    if value.None? || i < cfg.squeezeLookback then false
    else
      var window := Ranked(cfg.squeezeLookback, widths);
      if 2 * |window| < cfg.squeezeLookback then false
      else
        var cutoff := CutoffIndex(cfg.squeezePercentile, |window|);
        0 <= cutoff && value.value <= Sorted(window)[cutoff]
  }

  function Squeezed(cfg: Config, widths: Line): seq<bool> {
    seq(|widths|, i requires 0 <= i < |widths| => SqueezedOf(cfg, widths[..i + 1]))
  }

  /** A squeeze is a rank: no more of the recent widths lie below this one than the percentile allows. */
  lemma SqueezeIsRank(cfg: Config, widths: Line)
    requires widths != [] && widths[|widths| - 1].Some? && |widths| > cfg.squeezeLookback
    ensures var window := Ranked(cfg.squeezeLookback, widths);
      SqueezedOf(cfg, widths) <==>
        && window != [] && 2 * |window| >= cfg.squeezeLookback
        && CountBelow(window, widths[|widths| - 1].value) <= CutoffIndex(cfg.squeezePercentile, |window|)
  {
    hide Ranked, Sorted, CountBelow, CutoffIndex;
    var window := Ranked(cfg.squeezeLookback, widths);
    var cutoff := CutoffIndex(cfg.squeezePercentile, |window|);
    if 0 <= cutoff {
      CutoffIsRank(window, widths[|widths| - 1].value, cutoff);
    }
  }

  datatype Prepared = Prepared(upper: Line, lower: Line, middle: Line, width: Line, squeezed: seq<bool>, atrValues: Line)

  function PreparedOf(root: real -> real, cfg: Config, candles: seq<Candle>): Prepared {
    var close := Closes(candles);
    var width := LineOf(Width(root, cfg.bandMultiplier, cfg.bandPeriod), close);
    Prepared(
      LineOf(Band(UpperBand, root, cfg.bandMultiplier, cfg.bandPeriod), close),
      LineOf(Band(LowerBand, root, cfg.bandMultiplier, cfg.bandPeriod), close),
      LineOf(Mean(cfg.bandPeriod), close),
      width,
      Squeezed(cfg, width),
      AtrLine(cfg.atrPeriod, candles))
  }

  method Prepare(root: real -> real, cfg: Config, candles: seq<Candle>) returns (p: Prepared)
    ensures p == PreparedOf(root, cfg, candles)
  {
    hide LineOf;
    var close, high, low := ReadFields(candles);
    var bands := Bollinger(root, close, cfg.bandPeriod, cfg.bandMultiplier);
    var width := MeasureWidths(root, cfg, close, bands.value);
    var squeezed := FindSqueezes(cfg, width);
    var atrValues := Atr(high, low, close, cfg.atrPeriod);
    p := Prepared(bands.value.upper, bands.value.lower, bands.value.middle, width, squeezed, atrValues.value);
  }

  method MeasureWidths(root: real -> real, cfg: Config, close: Series, bands: Bands) returns (width: Line)
    requires bands == BandsOf(root, cfg.bandMultiplier, cfg.bandPeriod, close)
    ensures width == LineOf(Width(root, cfg.bandMultiplier, cfg.bandPeriod), close)
  {
    hide LineOf, BandOf, MeanOf, WidthBetween;
    width := [];
    for i := 0 to |close|
      invariant |width| == i
      invariant forall k :: 0 <= k < i ==> width[k] == LineOf(Width(root, cfg.bandMultiplier, cfg.bandPeriod), close)[k]
    {
      LineAt(Band(UpperBand, root, cfg.bandMultiplier, cfg.bandPeriod), close, i);
      LineAt(Band(LowerBand, root, cfg.bandMultiplier, cfg.bandPeriod), close, i);
      LineAt(Mean(cfg.bandPeriod), close, i);
      LineAt(Width(root, cfg.bandMultiplier, cfg.bandPeriod), close, i);
      width := width + [WidthBetween(bands.upper[i], bands.lower[i], bands.middle[i])];
    }
  }

  method FindSqueezes(cfg: Config, width: Line) returns (squeezed: seq<bool>)
    ensures squeezed == Squeezed(cfg, width)
  {
    hide Sorted, SqueezedOf;
    squeezed := [];
    for i := 0 to |width|
      invariant |squeezed| == i
      invariant forall k :: 0 <= k < i ==> squeezed[k] == Squeezed(cfg, width)[k]
    {
      var tight := IsSqueezed(cfg, width, i);
      squeezed := squeezed + [tight];
    }
  }

  /** Collects the trailing window, sorts it, and compares the bar with the value at the percentile. */
  method IsSqueezed(cfg: Config, width: Line, i: nat) returns (tight: bool)
    requires i < |width|
    ensures tight == SqueezedOf(cfg, width[..i + 1])
  {
    hide Sorted, Dense;
    var value := width[i];
    if value.None? || i < cfg.squeezeLookback {
      return false;
    }
    var window := CollectWindow(width, i, cfg.squeezeLookback);
    if 2 * |window| < cfg.squeezeLookback {
      return false;
    }
    window := Sorted(window);
    var cutoff := CutoffIndex(cfg.squeezePercentile, |window|);
    return 0 <= cutoff && value.value <= window[cutoff];
  }

  method CollectWindow(width: Line, i: nat, lookback: int) returns (window: Series)
    requires i < |width| && lookback <= i
    ensures window == Ranked(lookback, width[..i + 1])
  {
    window := [];
    var j := i - lookback + 1;
    ghost var from := j;
    while j <= i
      invariant from <= j && (j <= i + 1 || j == from)
      invariant j <= i + 1 ==> window == Dense(width[from..j])
      invariant j > i + 1 ==> window == []
    {
      assert width[from..j + 1][..j - from] == width[from..j];
      if width[j].Some? {
        window := window + [width[j].value];
      }
      j := j + 1;
    }
    if lookback > 0 {
      assert width[..i + 1][i + 1 - lookback..] == width[from..i + 1];
    }
  }

  // ----- Evaluating -----

  /** What the strategy reads at one bar; the squeeze is read one bar back. */
  datatype Reading = Reading(upper: real, lower: real, middle: real, atr: real, width: real, wasSqueezed: bool)

  function Read(p: Prepared, index: nat): Option<Reading> {
    var upper, lower, middle, atr := At(p.upper, index), At(p.lower, index), At(p.middle, index), At(p.atrValues, index);
    if upper.None? || lower.None? || middle.None? || atr.None? || atr.value <= 0.0 then None
    else
      var width := At(p.width, index);
      Some(Reading(upper.value, lower.value, middle.value, atr.value, if width.Some? then width.value else 0.0,
                   0 < index <= |p.squeezed| && p.squeezed[index - 1]))
  }

  function Called(cfg: Config, c: Candle, symbol: Symbol, held: Direction, r: Reading): Option<Signal> {
    var price := c.close as real;
    if (held.LONG? && price < r.middle) || (held.SHORT? && price > r.middle) then
      Some(SignalFor(cfg.id, c, symbol, FLAT, 1.0, None))
    else if !held.FLAT? || !r.wasSqueezed then None
    else
      var brokeUp := price > r.upper;
      var brokeDown := cfg.allowShorts && price < r.lower;
      if !brokeUp && !brokeDown then None
      else
        var direction := if brokeUp then LONG else SHORT;
        Some(SignalFor(cfg.id, c, symbol, direction, RealMin(1.0, 0.5 + r.width * 10.0),
                       Sizing.AtrStopLoss(c.close, r.atr, direction, cfg.atrStopMultiplier)))
  }

  function Evaluate(cfg: Config, ctx: B.Context, p: Prepared): Option<Signal> {
    if ctx.index < cfg.WarmupBars() || ctx.index >= |ctx.candles| then None
    else
      var reading := Read(p, ctx.index);
      if reading.None? then None
      else Called(cfg, ctx.candles[ctx.index], ctx.symbol, DirectionOf(ctx.position), reading.value)
  }

  function StrategyOf(root: real -> real, cfg: Config): B.Strategy<Prepared> {
    B.Strategy(candles => PreparedOf(root, cfg, candles), (ctx, p) => Evaluate(cfg, ctx, p))
  }

  /** Entries come only out of a squeeze on the bar before, and only beyond a band. */
  lemma EntriesFollowASqueeze(root: real -> real, cfg: Config, candles: seq<Candle>, index: nat, symbol: Symbol, position: Option<Position>, now: Timestamp)
    requires index < |candles|
    ensures var p := PreparedOf(root, cfg, candles);
      var s := Evaluate(cfg, B.Context(symbol, candles, index, position, now, 0), p);
      s.Some? && !s.value.direction.FLAT? ==>
        && index >= 1 && SqueezedOf(cfg, p.width[..index])
        && DirectionOf(position).FLAT?
        && (s.value.direction.LONG? ==> candles[index].close as real > BandOf(UpperBand, root, cfg.bandMultiplier, cfg.bandPeriod, Closes(candles)[..index + 1]).value)
        && (s.value.direction.SHORT? ==> candles[index].close as real < BandOf(LowerBand, root, cfg.bandMultiplier, cfg.bandPeriod, Closes(candles)[..index + 1]).value)
  {
    hide LineOf, SqueezedOf, BandOf, AtrLine;
    LineAt(Band(UpperBand, root, cfg.bandMultiplier, cfg.bandPeriod), Closes(candles), index);
    LineAt(Band(LowerBand, root, cfg.bandMultiplier, cfg.bandPeriod), Closes(candles), index);
  }

  /** A band of the closes up to a bar. */
  function BandAt(side: BandSide, root: real -> real, cfg: Config, candles: seq<Candle>, index: nat): Option<real>
    requires index < |candles|
  {
    BandOf(side, root, cfg.bandMultiplier, cfg.bandPeriod, Closes(candles)[..index + 1])
  }

  /** What the strategy can read at a bar is defined. */
  predicate Ready(root: real -> real, cfg: Config, candles: seq<Candle>, index: nat)
    requires index < |candles|
  {
    var atr := At(AtrLine(cfg.atrPeriod, candles), index);
    && index >= cfg.bandPeriod + cfg.squeezeLookback + 2 && index >= cfg.atrPeriod + 2 && index + 1 >= cfg.bandPeriod
    && atr.Some? && atr.value > 0.0
  }

  lemma ReadingOf(root: real -> real, cfg: Config, candles: seq<Candle>, index: nat)
    requires index < |candles| && index >= cfg.WarmupBars()
    ensures var p := PreparedOf(root, cfg, candles);
      && (Read(p, index).Some? <==> Ready(root, cfg, candles, index))
      && (Ready(root, cfg, candles, index) ==>
            var r := Read(p, index).value;
            && BandAt(UpperBand, root, cfg, candles, index) == Some(r.upper)
            && BandAt(LowerBand, root, cfg, candles, index) == Some(r.lower)
            && MeanOf(cfg.bandPeriod, Closes(candles)[..index + 1]) == Some(r.middle)
            && At(AtrLine(cfg.atrPeriod, candles), index) == Some(r.atr)
            && (r.wasSqueezed <==> index > 0 && SqueezedOf(cfg, p.width[..index])))
  {
    hide LineOf, SqueezedOf, AtrLine, Closes;
    LineAt(Band(UpperBand, root, cfg.bandMultiplier, cfg.bandPeriod), Closes(candles), index);
    LineAt(Band(LowerBand, root, cfg.bandMultiplier, cfg.bandPeriod), Closes(candles), index);
    LineAt(Mean(cfg.bandPeriod), Closes(candles), index);
  }

  /**
   * The strategy calls an exit exactly when the close is back across the band's middle against the
   * position, and an entry exactly when it is flat, the bar before was squeezed, and the close breaks
   * a band. A break upwards is taken first.
   */
  lemma SignalsExactly(root: real -> real, cfg: Config, candles: seq<Candle>, index: nat, symbol: Symbol, position: Option<Position>, now: Timestamp)
    requires index < |candles|
    ensures var p := PreparedOf(root, cfg, candles);
      var s := Evaluate(cfg, B.Context(symbol, candles, index, position, now, 0), p);
      var held, price := DirectionOf(position), candles[index].close as real;
      var ready := Ready(root, cfg, candles, index);
      && (s.Some? && s.value.direction.FLAT? <==>
            && ready && MeanOf(cfg.bandPeriod, Closes(candles)[..index + 1]).Some?
            && var middle := MeanOf(cfg.bandPeriod, Closes(candles)[..index + 1]).value;
               (held.LONG? && price < middle) || (held.SHORT? && price > middle))
      && (s.Some? && s.value.direction.LONG? <==>
            && ready && held.FLAT? && index > 0 && SqueezedOf(cfg, p.width[..index])
            && BandAt(UpperBand, root, cfg, candles, index).Some? && price > BandAt(UpperBand, root, cfg, candles, index).value)
      && (s.Some? && s.value.direction.SHORT? <==>
            && ready && held.FLAT? && cfg.allowShorts && index > 0 && SqueezedOf(cfg, p.width[..index])
            && BandAt(UpperBand, root, cfg, candles, index).Some? && price <= BandAt(UpperBand, root, cfg, candles, index).value
            && BandAt(LowerBand, root, cfg, candles, index).Some? && price < BandAt(LowerBand, root, cfg, candles, index).value)
  {
    hide BandAt, AtrLine, PreparedOf, Read, SqueezedOf, MeanOf, Sizing.AtrStopLoss, Closes;
    if index >= cfg.WarmupBars() {
      ReadingOf(root, cfg, candles, index);
    }
  }

  /** An entry refers to its bar's close, and its stop lies against it at the multiple of its bar's own range. */
  lemma EntriesStopAtTheirRange(root: real -> real, cfg: Config, candles: seq<Candle>, index: nat, symbol: Symbol, position: Option<Position>, now: Timestamp)
    requires index < |candles|
    ensures var s := Evaluate(cfg, B.Context(symbol, candles, index, position, now, 0), PreparedOf(root, cfg, candles));
      s.Some? ==>
        && s.value.referencePrice == candles[index].close && s.value.timestamp == candles[index].timestamp
        && s.value.symbol == symbol && s.value.strategyId == cfg.id
        && (!s.value.direction.FLAT? ==>
              && At(AtrLine(cfg.atrPeriod, candles), index).Some?
              && var range := At(AtrLine(cfg.atrPeriod, candles), index).value;
                 && range > 0.0 && s.value.stopLoss.Some?
                 && Sizing.StopFits(candles[index].close, range, s.value.direction, cfg.atrStopMultiplier, s.value.stopLoss.value)
                 && (cfg.atrStopMultiplier > 0.0 && candles[index].close >= 1 ==>
                       if s.value.direction.LONG? then s.value.stopLoss.value <= candles[index].close
                       else s.value.stopLoss.value >= candles[index].close))
  {
    hide BandAt, AtrLine, PreparedOf, Read, SqueezedOf, MeanOf, Sizing.AtrStopLoss, Sizing.StopFits, Closes;
    if index >= cfg.WarmupBars() {
      ReadingOf(root, cfg, candles, index);
      if Ready(root, cfg, candles, index) {
        var range := At(AtrLine(cfg.atrPeriod, candles), index).value;
        Sizing.StopIsThere(candles[index].close, range, LONG, cfg.atrStopMultiplier);
        Sizing.StopIsThere(candles[index].close, range, SHORT, cfg.atrStopMultiplier);
        if cfg.atrStopMultiplier > 0.0 && candles[index].close >= 1 {
          Sizing.StopIsOnTheLosingSide(candles[index].close, range, LONG, cfg.atrStopMultiplier);
          Sizing.StopIsOnTheLosingSide(candles[index].close, range, SHORT, cfg.atrStopMultiplier);
        }
      }
    }
  }

  /** A width is how far the bands lie apart, in middles. */
  lemma WidthIsTheGap(root: real -> real, multiplier: real, period: Period, prefix: Series)
    requires WidthOf(root, multiplier, period, prefix).Some?
    ensures var upper, lower := BandOf(UpperBand, root, multiplier, period, prefix), BandOf(LowerBand, root, multiplier, period, prefix);
      && upper.Some? && lower.Some? && MeanOf(period, prefix).Some?
      && WidthOf(root, multiplier, period, prefix).value * MeanOf(period, prefix).value == upper.value - lower.value
  {
    hide BandOf, MeanOf;
  }

  /** Half strength out of a band of no width, and a tenth more for every hundredth of width, within nothing and one. */
  predicate StrongAs(width: real, strength: real) {
    && (width >= 0.05 ==> strength == 1.0)
    && (-0.05 <= width <= 0.05 ==> strength == 0.5 + 10.0 * width)
    && (width <= -0.05 ==> strength == 0.0)
  }

  /** An exit is called at full strength, an entry the more strongly the wider its own band. */
  lemma StrengthIsWidth(root: real -> real, cfg: Config, candles: seq<Candle>, index: nat, symbol: Symbol, position: Option<Position>, now: Timestamp)
    requires index < |candles|
    ensures var p := PreparedOf(root, cfg, candles);
      var s := Evaluate(cfg, B.Context(symbol, candles, index, position, now, 0), p);
      var width := At(p.width, index);
      s.Some? ==>
        if s.value.direction.FLAT? then s.value.strength == 1.0
        else StrongAs(if width.Some? then width.value else 0.0, s.value.strength)
  {
    hide LineOf, SqueezedOf, BandOf, AtrLine, Sizing.AtrStopLoss, MeanOf;
  }

  // ----- No lookahead -----

  lemma SqueezesArePrefixStable(cfg: Config, a: Line, b: Line, n: nat)
    requires Agree(a, b, n)
    ensures Agree(Squeezed(cfg, a), Squeezed(cfg, b), n)
  {
    hide SqueezedOf;
    forall i | 0 <= i < n
      ensures Squeezed(cfg, a)[i] == Squeezed(cfg, b)[i]
    {
      AgreeSooner(a, b, n, i + 1);
    }
  }

  lemma PreparedIsPrefixStable(root: real -> real, cfg: Config, a: seq<Candle>, b: seq<Candle>, n: nat)
    requires Agree(a, b, n)
    ensures var p, q := PreparedOf(root, cfg, a), PreparedOf(root, cfg, b);
      && Agree(p.upper, q.upper, n) && Agree(p.lower, q.lower, n) && Agree(p.middle, q.middle, n)
      && Agree(p.width, q.width, n) && Agree(p.squeezed, q.squeezed, n) && Agree(p.atrValues, q.atrValues, n)
  {
    hide LineOf, Closes, AtrLine, Agree, Squeezed, Band, Mean, Width;
    FieldsArePrefixStable(a, b, n);
    var x, y := Closes(a), Closes(b);
    LinesArePrefixStable(Band(UpperBand, root, cfg.bandMultiplier, cfg.bandPeriod), x, y, n);
    LinesArePrefixStable(Band(LowerBand, root, cfg.bandMultiplier, cfg.bandPeriod), x, y, n);
    LinesArePrefixStable(Mean(cfg.bandPeriod), x, y, n);
    LinesArePrefixStable(Width(root, cfg.bandMultiplier, cfg.bandPeriod), x, y, n);
    SqueezesArePrefixStable(cfg, LineOf(Width(root, cfg.bandMultiplier, cfg.bandPeriod), x),
                            LineOf(Width(root, cfg.bandMultiplier, cfg.bandPeriod), y), n);
    AtrIsPrefixStable(cfg.atrPeriod, a, b, n);
  }

  /** At any bar, the signal is the same whatever bars follow it. */
  lemma SignalsLookBack(root: real -> real, cfg: Config, a: seq<Candle>, b: seq<Candle>, i: nat, symbol: Symbol, position: Option<Position>, now: Timestamp)
    requires Agree(a, b, i + 1)
    ensures Evaluate(cfg, B.Context(symbol, a, i, position, now, 0), PreparedOf(root, cfg, a)) ==
            Evaluate(cfg, B.Context(symbol, b, i, position, now, 0), PreparedOf(root, cfg, b))
  {
    hide PreparedOf, Called;
    AgreeAt(a, b, i + 1, i);
    PreparedIsPrefixStable(root, cfg, a, b, i + 1);
    var p, q := PreparedOf(root, cfg, a), PreparedOf(root, cfg, b);
    ReadsArePrefixStable(p.upper, q.upper, i + 1, i);
    ReadsArePrefixStable(p.lower, q.lower, i + 1, i);
    ReadsArePrefixStable(p.middle, q.middle, i + 1, i);
    ReadsArePrefixStable(p.width, q.width, i + 1, i);
    ReadsArePrefixStable(p.atrValues, q.atrValues, i + 1, i);
    if i > 0 {
      AgreeAt(p.squeezed, q.squeezed, i + 1, i - 1);
    }
    assert Read(p, i) == Read(q, i);
  }
}
