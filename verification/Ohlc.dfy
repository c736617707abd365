// Ticks to bars, and finer bars to coarser ones.
module Ohlc {
  import opened Money
  import opened Domain

  datatype Tick = Tick(symbol: Symbol, timestamp: Timestamp, price: Paise, quantity: int)

  function IntervalMs(interval: Interval): (ms: int)
    ensures ms > 0
  {
    match interval
    case M1 => 60_000
    case M5 => 300_000
    case M15 => 900_000
    case H1 => 3_600_000
    case D1 => 86_400_000
  }

  /** Start of the bucket a moment belongs to. */
  function BucketStart(timestamp: Timestamp, interval: Interval): Timestamp {
    timestamp / IntervalMs(interval) * IntervalMs(interval)
  }

  // ----- Folding bars into buckets -----

  function Merge(bar: Candle, c: Candle): Candle {
    bar.(high := if c.high > bar.high then c.high else bar.high,
         low := if c.low < bar.low then c.low else bar.low,
         close := c.close,
         volume := bar.volume + c.volume)
  }

  /** A candle as the first of its bucket. */
  function Opened(c: Candle, target: Interval): Candle {
    c.(interval := target, timestamp := BucketStart(c.timestamp, target))
  }

  /** The bars completed so far and the one still open. */
  datatype Fold = Fold(out: seq<Candle>, current: Option<Candle>)
  {
    function Closed(): seq<Candle> {
      if current.None? then out else out + [current.value]
    }
  }

  function Feed(f: Fold, c: Candle, target: Interval): Fold {
    if f.current.None? || BucketStart(c.timestamp, target) > f.current.value.timestamp then
      Fold(f.Closed(), Some(Opened(c, target)))
    else Fold(f.out, Some(Merge(f.current.value, c)))
  }

  function FeedAll(candles: seq<Candle>, target: Interval): Fold {
    if candles == [] then Fold([], None)
    else Feed(FeedAll(candles[..|candles| - 1], target), candles[|candles| - 1], target)
  }

  datatype ResampleError = ShorterTarget | NotAMultiple

  function Resample(candles: seq<Candle>, target: Interval): Result<seq<Candle>, ResampleError> {
    if candles == [] then Success([])
    else if IntervalMs(target) < IntervalMs(candles[0].interval) then Failure(ShorterTarget)
    else if IntervalMs(target) % IntervalMs(candles[0].interval) != 0 then Failure(NotAMultiple)
    else Success(FeedAll(candles, target).Closed())
  }

  /** Each interval divides every longer one, so only a shorter target is ever refused. */
  lemma ResampleFailsExactly(candles: seq<Candle>, target: Interval)
    ensures Resample(candles, target).Failure? <==>
            candles != [] && IntervalMs(target) < IntervalMs(candles[0].interval)
    ensures Resample(candles, target).Failure? ==> Resample(candles, target).error == ShorterTarget
  {
    hide FeedAll;
  }

  // ----- Buckets nest -----

  lemma QuotientUnique(x: int, d: int, q: int)
    requires d > 0 && q * d <= x < q * d + d
    ensures x / d == q
  {
    DivisionBounds(x, d);
    if x / d < q {
      StrictProduct(x / d, q, d);
    } else if q < x / d {
      StrictProduct(q, x / d, d);
    }
  }

  lemma FloorsNest(x: int, n: int, k: int)
    requires n > 0 && k > 0
    ensures n * k > 0 && x / n * n / (n * k) == x / (n * k)
  {
    assert n * k > 0 by { StrictProduct(0, k, n); }
    var q := x / (n * k);
    DivisionBounds(x, n * k);
    DivisionBounds(x, n);
    FloorBetween(x, n, k, q);
    QuotientUnique(x / n * n, n * k, q);
  }

  lemma FloorBetween(x: int, n: int, k: int, q: int)
    requires n > 0 && k > 0
    requires q * (n * k) <= x < q * (n * k) + n * k
    requires x / n * n <= x < x / n * n + n
    ensures q * (n * k) <= x / n * n < q * (n * k) + n * k
  {
    var m := x / n;
    assert q * (n * k) == (q * k) * n;
    if m < q * k {
      StrictProduct(m, q * k, n);
    }
  }

  predicate Nests(fine: Interval, coarse: Interval) {
    IntervalMs(fine) <= IntervalMs(coarse)
  }

  lemma BucketsNest(timestamp: Timestamp, fine: Interval, coarse: Interval)
    requires Nests(fine, coarse)
    ensures BucketStart(BucketStart(timestamp, fine), coarse) == BucketStart(timestamp, coarse)
  {
    var n := IntervalMs(fine);
    var k := IntervalMs(coarse) / n;
    assert n * k == IntervalMs(coarse) && k > 0;
    FloorsNest(timestamp, n, k);
  }

  lemma BucketsAreOrdered(t0: Timestamp, t1: Timestamp, interval: Interval)
    requires t0 <= t1
    ensures BucketStart(t0, interval) <= BucketStart(t1, interval)
  {
    var n := IntervalMs(interval);
    DivisionBounds(t0, n);
    DivisionBounds(t1, n);
    var q0, q1 := t0 / n, t1 / n;
    if q1 < q0 {
      StrictProduct(q1, q0, n);
    }
  }

  // ----- Aggregation commutes with resampling -----

  lemma FeedAllSnoc(candles: seq<Candle>, c: Candle, target: Interval)
    ensures FeedAll(candles + [c], target) == Feed(FeedAll(candles, target), c, target)
  {
    assert (candles + [c])[..|candles|] == candles;
  }

  /** The open coarse bar is the one the open fine bar belongs to. */
  ghost predicate Aligned(f: Fold, g: Fold, coarse: Interval) {
    && (f.current.Some? <==> g.current.Some?)
    && (f.current.Some? ==> g.current.value.timestamp == BucketStart(f.current.value.timestamp, coarse))
  }

  /** A candle only matters through its bucket: moving it to its fine bucket changes nothing. */
  lemma FeedOpened(g: Fold, c: Candle, fine: Interval, coarse: Interval)
    requires Nests(fine, coarse)
    ensures Feed(g, Opened(c, fine), coarse) == Feed(g, c, coarse)
  {
    hide BucketStart;
    BucketsNest(c.timestamp, fine, coarse);
  }

  /** Merging first and feeding once is feeding twice, when the second stays in the first's bucket. */
  lemma FeedMerged(g: Fold, bar: Candle, c: Candle, coarse: Interval)
    requires BucketStart(c.timestamp, coarse) <= BucketStart(bar.timestamp, coarse)
    ensures Feed(g, Merge(bar, c), coarse) == Feed(Feed(g, bar, coarse), c, coarse)
  {
    hide BucketStart;
  }

  lemma FeedKeepsAlignment(f: Fold, g: Fold, c: Candle, fine: Interval, coarse: Interval)
    requires Nests(fine, coarse) && Aligned(f, g, coarse)
    ensures Aligned(Feed(f, c, fine), Feed(g, c, coarse), coarse)
  {
    hide BucketStart;
    BucketsNest(c.timestamp, fine, coarse);
    if f.current.Some? {
      var bar := f.current.value;
      if BucketStart(c.timestamp, fine) > bar.timestamp {
        BucketsAreOrdered(bar.timestamp, BucketStart(c.timestamp, fine), coarse);
      } else {
        BucketsAreOrdered(BucketStart(c.timestamp, fine), bar.timestamp, coarse);
      }
    }
  }

  /**
   * Resampling through a finer interval is resampling directly, for any candles in any order.
   */
  lemma {:induction false} ResamplingComposes(candles: seq<Candle>, fine: Interval, coarse: Interval)
    requires Nests(fine, coarse)
    ensures FeedAll(FeedAll(candles, fine).Closed(), coarse) == FeedAll(candles, coarse)
    ensures Aligned(FeedAll(candles, fine), FeedAll(candles, coarse), coarse)
  {
    hide BucketStart, Feed;
    if candles == [] {
      assert FeedAll(candles, fine).Closed() == [];
    } else {
      var before, c := candles[..|candles| - 1], candles[|candles| - 1];
      var f, g := FeedAll(before, fine), FeedAll(before, coarse);
      ResamplingComposes(before, fine, coarse);
      FeedKeepsAlignment(f, g, c, fine, coarse);
      ResampleOneMore(f, g, c, fine, coarse);
    }
  }

  lemma ResampleOneMore(f: Fold, g: Fold, c: Candle, fine: Interval, coarse: Interval)
    requires Nests(fine, coarse) && FeedAll(f.Closed(), coarse) == g
    ensures FeedAll(Feed(f, c, fine).Closed(), coarse) == Feed(g, c, coarse)
  {
    hide BucketStart, FeedAll, Merge, Opened;
    if f.current.None? || BucketStart(c.timestamp, fine) > f.current.value.timestamp {
      assert Feed(f, c, fine).Closed() == f.Closed() + [Opened(c, fine)];
      FeedAllSnoc(f.Closed(), Opened(c, fine), coarse);
      FeedOpened(g, c, fine, coarse);
    } else {
      var bar := f.current.value;
      assert Feed(f, c, fine).Closed() == f.out + [Merge(bar, c)];
      FeedAllSnoc(f.out, Merge(bar, c), coarse);
      FeedAllSnoc(f.out, bar, coarse);
      BucketsNest(c.timestamp, fine, coarse);
      BucketsAreOrdered(BucketStart(c.timestamp, fine), bar.timestamp, coarse);
      FeedMerged(FeedAll(f.out, coarse), bar, c, coarse);
    }
  }

  // ----- The aggregator -----

  datatype PushError = WrongSymbol | OutOfOrder

  /** No last timestamp stands for one before every tick. */
  datatype Agg = Agg(symbol: Symbol, interval: Interval, bar: Option<Candle>, lastTimestamp: Option<Timestamp>)

  /** A tick as a candle of one trade. */
  function Atom(tick: Tick, interval: Interval): Candle {
    Candle(tick.symbol, interval, tick.timestamp, tick.price, tick.price, tick.price, tick.price, tick.quantity)
  }

  function Refusal(a: Agg, tick: Tick): Option<PushError> {
    if tick.symbol != a.symbol then Some(WrongSymbol)
    else if a.lastTimestamp.Some? && tick.timestamp < a.lastTimestamp.value then Some(OutOfOrder)
    else None
  }

  /** One pushed tick: a refused one changes nothing, and a completed bar is handed out. */
  function Pushed(a: Agg, tick: Tick): (Agg, Result<Option<Candle>, PushError>) {
    if Refusal(a, tick).Some? then (a, Failure(Refusal(a, tick).value))
    else
      var f := Feed(Fold([], a.bar), Atom(tick, a.interval), a.interval);
      (a.(bar := f.current, lastTimestamp := Some(tick.timestamp)), Success(if f.out == [] then None else Some(f.out[0])))
  }

  /** Pushes a whole stream: the aggregator afterwards, the bars it handed out, the ticks it took. */
  datatype Stream = Stream(agg: Agg, emitted: seq<Candle>, taken: seq<Tick>)

  function PushAll(symbol: Symbol, interval: Interval, ticks: seq<Tick>): Stream {
    if ticks == [] then Stream(Agg(symbol, interval, None, None), [], [])
    else
      var s, tick := PushAll(symbol, interval, ticks[..|ticks| - 1]), ticks[|ticks| - 1];
      var (a, r) := Pushed(s.agg, tick);
      Stream(a,
             if r.Success? && r.value.Some? then s.emitted + [r.value.value] else s.emitted,
             if r.Success? then s.taken + [tick] else s.taken)
  }

  /** Every bar of a stream, the one still open included. */
  function Bars(symbol: Symbol, interval: Interval, ticks: seq<Tick>): seq<Candle> {
    var s := PushAll(symbol, interval, ticks);
    if s.agg.bar.Some? then s.emitted + [s.agg.bar.value] else s.emitted
  }

  function Atoms(ticks: seq<Tick>, interval: Interval): seq<Candle> {
    if ticks == [] then [] else Atoms(ticks[..|ticks| - 1], interval) + [Atom(ticks[|ticks| - 1], interval)]
  }

  lemma {:induction false} StreamIsAFold(symbol: Symbol, interval: Interval, ticks: seq<Tick>)
    ensures var s := PushAll(symbol, interval, ticks);
      && FeedAll(Atoms(s.taken, interval), interval) == Fold(s.emitted, s.agg.bar)
      && s.agg.symbol == symbol && s.agg.interval == interval
  {
    if ticks != [] {
      var s, tick := PushAll(symbol, interval, ticks[..|ticks| - 1]), ticks[|ticks| - 1];
      StreamIsAFold(symbol, interval, ticks[..|ticks| - 1]);
      if Refusal(s.agg, tick).None? {
        assert (s.taken + [tick])[..|s.taken|] == s.taken;
        FeedAllSnoc(Atoms(s.taken, interval), Atom(tick, interval), interval);
        FeedSplits(s.emitted, s.agg.bar, Atom(tick, interval), interval);
      }
    }
  }

  lemma FeedSplits(out: seq<Candle>, current: Option<Candle>, c: Candle, interval: Interval)
    ensures Feed(Fold(out, current), c, interval) ==
            Fold(out + Feed(Fold([], current), c, interval).out, Feed(Fold([], current), c, interval).current)
    ensures |Feed(Fold([], current), c, interval).out| <= 1
  {
    hide BucketStart;
    assert out + [] == out;
  }

  /** Which ticks are refused does not depend on the interval. */
  lemma {:induction false} RefusalsIgnoreInterval(symbol: Symbol, i: Interval, j: Interval, ticks: seq<Tick>)
    ensures PushAll(symbol, i, ticks).taken == PushAll(symbol, j, ticks).taken
    ensures PushAll(symbol, i, ticks).agg.lastTimestamp == PushAll(symbol, j, ticks).agg.lastTimestamp
    ensures PushAll(symbol, i, ticks).agg.symbol == symbol && PushAll(symbol, j, ticks).agg.symbol == symbol
  {
    hide Feed;
    if ticks != [] {
      RefusalsIgnoreInterval(symbol, i, j, ticks[..|ticks| - 1]);
    }
  }

  /** The interval written on a candle does not matter to folding. */
  lemma {:induction false} FoldIgnoresIntervals(ticks: seq<Tick>, i: Interval, j: Interval, target: Interval)
    ensures FeedAll(Atoms(ticks, i), target) == FeedAll(Atoms(ticks, j), target)
  {
    hide BucketStart;
    if ticks != [] {
      var before, tick := ticks[..|ticks| - 1], ticks[|ticks| - 1];
      FoldIgnoresIntervals(before, i, j, target);
      FeedAllSnoc(Atoms(before, i), Atom(tick, i), target);
      FeedAllSnoc(Atoms(before, j), Atom(tick, j), target);
    }
  }

  lemma {:induction false} BarsCarryTheirInterval(candles: seq<Candle>, target: Interval)
    ensures var f := FeedAll(candles, target);
      && (forall c :: c in f.out ==> c.interval == target)
      && (f.current.Some? ==> f.current.value.interval == target)
      && (f.current.Some? <==> candles != [])
  {
    hide BucketStart;
    if candles != [] {
      BarsCarryTheirInterval(candles[..|candles| - 1], target);
    }
  }

  /**
   * For any tick stream, aggregating finely and then resampling is aggregating coarsely.
   */
  lemma AggregationCommutes(symbol: Symbol, ticks: seq<Tick>, fine: Interval, coarse: Interval)
    requires Nests(fine, coarse)
    ensures Resample(Bars(symbol, fine, ticks), coarse) == Success(Bars(symbol, coarse, ticks))
  {
    hide PushAll, FeedAll, Feed, Atoms;
    var taken := PushAll(symbol, fine, ticks).taken;
    RefusalsIgnoreInterval(symbol, fine, coarse, ticks);
    StreamIsAFold(symbol, fine, ticks);
    StreamIsAFold(symbol, coarse, ticks);
    FoldIgnoresIntervals(taken, fine, coarse, coarse);
    ResamplingComposes(Atoms(taken, fine), fine, coarse);
    BarsCarryTheirInterval(Atoms(taken, fine), fine);
    BarsCarryTheirInterval(Atoms(taken, coarse), coarse);
    var bars := Bars(symbol, fine, ticks);
    ResampleFailsExactly(bars, coarse);
    assert bars == FeedAll(Atoms(taken, fine), fine).Closed();
    assert Bars(symbol, coarse, ticks) == FeedAll(Atoms(taken, coarse), coarse).Closed();
    NothingInNothingOut(coarse);
  }

  lemma NothingInNothingOut(target: Interval)
    ensures FeedAll([], target).Closed() == []
  {
  }

  /** Resampling through an intermediate interval is resampling directly. */
  lemma ResamplingThroughCommutes(candles: seq<Candle>, middle: Interval, target: Interval)
    requires Nests(middle, target) && (candles != [] ==> Nests(candles[0].interval, middle))
    ensures Resample(candles, middle).Success?
    ensures Resample(Resample(candles, middle).value, target) == Resample(candles, target)
  {
    hide FeedAll;
    ResampleFailsExactly(candles, middle);
    if candles != [] {
      ResamplingComposes(candles, middle, target);
      BarsCarryTheirInterval(candles, middle);
      ResampleFailsExactly(candles, target);
      ResampleFailsExactly(Resample(candles, middle).value, target);
    }
  }

  // ----- Nothing is lost, and every bar is its bucket -----

  /** What a run of candles amounts to: first open, extremes, last close, total volume. */
  datatype Summary = Summary(open: Paise, high: Paise, low: Paise, close: Paise, volume: int)

  function Of(c: Candle): Summary {
    Summary(c.open, c.high, c.low, c.close, c.volume)
  }

  function Join(a: Summary, b: Summary): Summary {
    Summary(a.open, Max(a.high, b.high), Min(a.low, b.low), b.close, a.volume + b.volume)
  }

  function Summarised(candles: seq<Candle>): Summary
    requires candles != []
  {
    if |candles| == 1 then Of(candles[0])
    else Join(Summarised(candles[..|candles| - 1]), Of(candles[|candles| - 1]))
  }

  lemma SummarySnoc(before: seq<Candle>, c: Candle)
    ensures Summarised(before + [c]) == if before == [] then Of(c) else Join(Summarised(before), Of(c))
  {
    assert (before + [c])[..|before|] == before;
  }

  /** Whatever the order of the candles, the bars amount to exactly what the candles do. */
  lemma {:induction false} ResamplingConserves(candles: seq<Candle>, target: Interval)
    requires candles != []
    ensures FeedAll(candles, target).Closed() != []
    ensures Summarised(FeedAll(candles, target).Closed()) == Summarised(candles)
  {
    hide BucketStart, Summarised;
    var before, c := candles[..|candles| - 1], candles[|candles| - 1];
    assert candles == before + [c];
    var f := FeedAll(before, target);
    SummarySnoc(before, c);
    if before != [] {
      ResamplingConserves(before, target);
      BarsCarryTheirInterval(before, target);
      FeedConserves(f, c, target);
    } else {
      SummarySnoc([], Opened(c, target));
      assert FeedAll(candles, target).Closed() == [] + [Opened(c, target)];
    }
  }

  lemma FeedConserves(f: Fold, c: Candle, target: Interval)
    requires f.current.Some?
    ensures Summarised(Feed(f, c, target).Closed()) == Join(Summarised(f.Closed()), Of(c))
  {
    hide BucketStart, Summarised;
    var bar := f.current.value;
    if BucketStart(c.timestamp, target) > bar.timestamp {
      SummarySnoc(f.Closed(), Opened(c, target));
    } else {
      SummarySnoc(f.out, bar);
      SummarySnoc(f.out, Merge(bar, c));
    }
  }

  function InBucket(candles: seq<Candle>, start: Timestamp, target: Interval): seq<Candle> {
    if candles == [] then []
    else
      var c := candles[|candles| - 1];
      InBucket(candles[..|candles| - 1], start, target) + if BucketStart(c.timestamp, target) == start then [c] else []
  }

  lemma InBucketSnoc(before: seq<Candle>, c: Candle, start: Timestamp, target: Interval)
    ensures InBucket(before + [c], start, target) ==
            InBucket(before, start, target) + if BucketStart(c.timestamp, target) == start then [c] else []
  {
    assert (before + [c])[..|before|] == before;
  }

  predicate Ordered(candles: seq<Candle>) {
    forall i, j :: 0 <= i < j < |candles| ==> candles[i].timestamp <= candles[j].timestamp
  }

  predicate Rising(bars: seq<Candle>) {
    forall i, j :: 0 <= i < j < |bars| ==> bars[i].timestamp < bars[j].timestamp
  }

  /** A bar that sums up exactly the candles of its bucket. */
  predicate Covers(bar: Candle, candles: seq<Candle>, target: Interval) {
    var inside := InBucket(candles, bar.timestamp, target);
    inside != [] && Of(bar) == Summarised(inside)
  }

  predicate HasBar(bars: seq<Candle>, start: Timestamp) {
    exists b :: b in bars && b.timestamp == start
  }

  /** Every occupied bucket has its bar, and the last bar is the last candle's. */
  ghost predicate UpTo(bars: seq<Candle>, candles: seq<Candle>, target: Interval) {
    && (forall s: Timestamp :: InBucket(candles, s, target) != [] ==> HasBar(bars, s))
    && (bars == [] <==> candles == [])
    && (bars != [] ==> bars[|bars| - 1].timestamp == BucketStart(candles[|candles| - 1].timestamp, target))
  }

  /**
   * For candles in time order the bars are the occupied buckets, in order, each summing up exactly
   * the candles that lie in it.
   */
  lemma {:induction false} BarsAreBuckets(candles: seq<Candle>, target: Interval)
    requires Ordered(candles)
    ensures var bars := FeedAll(candles, target).Closed();
      && Rising(bars)
      && (forall b :: b in bars ==> Covers(b, candles, target))
      && UpTo(bars, candles, target)
  {
    hide BucketStart, Feed, Covers, Rising, Ordered, InBucket, HasBar;
    if candles == [] {
      NoBars(target);
    } else {
      var before, c := candles[..|candles| - 1], candles[|candles| - 1];
      assert candles == before + [c];
      OrderedPrefix(candles);
      BarsAreBuckets(before, target);
      BarsCarryTheirInterval(before, target);
      OneMoreBucket(FeedAll(before, target), before, c, target);
    }
  }

  lemma NoBars(target: Interval)
    ensures var bars := FeedAll([], target).Closed(); bars == [] && Rising(bars) && UpTo(bars, [], target)
  {
  }

  lemma OrderedPrefix(candles: seq<Candle>)
    requires candles != [] && Ordered(candles)
    ensures Ordered(candles[..|candles| - 1])
    ensures |candles| > 1 ==> candles[|candles| - 2].timestamp <= candles[|candles| - 1].timestamp
  {
  }

  lemma CoversElsewhere(b: Candle, before: seq<Candle>, c: Candle, target: Interval)
    requires Covers(b, before, target) && BucketStart(c.timestamp, target) != b.timestamp
    ensures Covers(b, before + [c], target)
  {
    hide BucketStart, InBucket, Summarised;
    InBucketSnoc(before, c, b.timestamp, target);
    assert InBucket(before, b.timestamp, target) + [] == InBucket(before, b.timestamp, target);
  }

  lemma CoversHere(bar: Candle, before: seq<Candle>, c: Candle, target: Interval)
    requires Covers(bar, before, target) && BucketStart(c.timestamp, target) == bar.timestamp
    ensures Covers(Merge(bar, c), before + [c], target)
  {
    hide BucketStart, InBucket, Summarised;
    InBucketSnoc(before, c, bar.timestamp, target);
    SummarySnoc(InBucket(before, bar.timestamp, target), c);
  }

  lemma CoversAlone(before: seq<Candle>, c: Candle, target: Interval)
    requires InBucket(before, BucketStart(c.timestamp, target), target) == []
    ensures Covers(Opened(c, target), before + [c], target)
  {
    hide BucketStart, InBucket, Summarised;
    InBucketSnoc(before, c, BucketStart(c.timestamp, target), target);
    SummarySnoc([], c);
    assert [] + [c] == [c];
  }

  lemma RisingSnoc(bars: seq<Candle>, c: Candle)
    requires Rising(bars) && (bars != [] ==> bars[|bars| - 1].timestamp < c.timestamp)
    ensures Rising(bars + [c]) && forall b :: b in bars ==> b.timestamp < c.timestamp
  {
  }

  /** The fold before and after one more candle of a stream in time order. */
  ghost predicate Bucketed(f: Fold, candles: seq<Candle>, target: Interval) {
    && (f.current.Some? <==> candles != []) && (candles == [] ==> f.out == [])
    && Rising(f.Closed()) && UpTo(f.Closed(), candles, target)
    && forall b :: b in f.Closed() ==> Covers(b, candles, target)
  }

  lemma OneMoreBucket(f: Fold, before: seq<Candle>, c: Candle, target: Interval)
    requires Bucketed(f, before, target)
    requires before != [] ==> before[|before| - 1].timestamp <= c.timestamp
    ensures Bucketed(Feed(f, c, target), before + [c], target)
  {
    hide BucketStart, Covers, Rising, InBucket, HasBar;
    if before != [] {
      BucketsAreOrdered(before[|before| - 1].timestamp, c.timestamp, target);
    }
    if before == [] || BucketStart(c.timestamp, target) > f.current.value.timestamp {
      NewBucket(f, before, c, target);
    } else {
      SameBucket(f, before, c, target);
    }
  }

  lemma NewBucket(f: Fold, before: seq<Candle>, c: Candle, target: Interval)
    requires Bucketed(f, before, target)
    requires before != [] ==> BucketStart(c.timestamp, target) > f.current.value.timestamp
    ensures Bucketed(Feed(f, c, target), before + [c], target)
  {
    hide BucketStart, InBucket, Covers, HasBar, Rising;
    var bar := Opened(c, target);
    assert Feed(f, c, target).Closed() == f.Closed() + [bar];
    RisingSnoc(f.Closed(), bar);
    HasBarSnoc(f.Closed(), bar, bar.timestamp);
    EarlierBarsOnly(f.Closed(), bar.timestamp);
    CoversAlone(before, c, target);
    forall b | b in f.Closed()
      ensures Covers(b, before + [c], target)
    {
      CoversElsewhere(b, before, c, target);
    }
    forall s: Timestamp | InBucket(before + [c], s, target) != []
      ensures HasBar(f.Closed() + [bar], s)
    {
      InBucketSnoc(before, c, s, target);
      HasBarSnoc(f.Closed(), bar, s);
    }
  }

  lemma EarlierBarsOnly(bars: seq<Candle>, start: Timestamp)
    requires forall b :: b in bars ==> b.timestamp < start
    ensures !HasBar(bars, start)
  {
  }

  lemma HasBarSnoc(bars: seq<Candle>, bar: Candle, s: Timestamp)
    ensures HasBar(bars + [bar], s) <==> HasBar(bars, s) || bar.timestamp == s
  {
    assert bar in bars + [bar];
    if HasBar(bars, s) {
      var b :| b in bars && b.timestamp == s;
      assert b in bars + [bar];
    }
  }

  lemma SameBucket(f: Fold, before: seq<Candle>, c: Candle, target: Interval)
    requires Bucketed(f, before, target) && before != []
    requires BucketStart(c.timestamp, target) == f.current.value.timestamp
    ensures Bucketed(Feed(f, c, target), before + [c], target)
  {
    hide BucketStart, InBucket, Covers, HasBar, Rising;
    var bar := f.current.value;
    var merged := Merge(bar, c);
    assert Feed(f, c, target).Closed() == f.out + [merged];
    RisingPrefix(f.out, bar);
    RisingSnoc(f.out, merged);
    assert bar in f.Closed();
    CoversHere(bar, before, c, target);
    forall b | b in f.out
      ensures Covers(b, before + [c], target)
    {
      assert b in f.Closed();
      CoversElsewhere(b, before, c, target);
    }
    forall s: Timestamp | InBucket(before + [c], s, target) != []
      ensures HasBar(f.out + [merged], s)
    {
      InBucketSnoc(before, c, s, target);
      HasBarSnoc(f.out, bar, s);
      HasBarSnoc(f.out, merged, s);
    }
  }

  lemma RisingPrefix(bars: seq<Candle>, bar: Candle)
    requires Rising(bars + [bar])
    ensures Rising(bars) && (bars != [] ==> bars[|bars| - 1].timestamp < bar.timestamp)
    ensures forall b :: b in bars ==> b.timestamp < bar.timestamp
  {
    var all := bars + [bar];
    assert forall i :: 0 <= i < |bars| ==> all[i] == bars[i];
    assert all[|bars|] == bar;
    forall i, j | 0 <= i < j < |bars|
      ensures bars[i].timestamp < bars[j].timestamp
    {
      assert all[i].timestamp < all[j].timestamp;
    }
  }

  predicate InOrder(ticks: seq<Tick>) {
    forall i, j :: 0 <= i < j < |ticks| ==> ticks[i].timestamp <= ticks[j].timestamp
  }

  function LastTime(ticks: seq<Tick>): Option<Timestamp> {
    if ticks == [] then None else Some(ticks[|ticks| - 1].timestamp)
  }

  lemma InOrderSnoc(ticks: seq<Tick>, tick: Tick)
    requires InOrder(ticks) && (ticks != [] ==> ticks[|ticks| - 1].timestamp <= tick.timestamp)
    ensures InOrder(ticks + [tick])
  {
  }

  lemma {:induction false} TakenIsInOrder(symbol: Symbol, interval: Interval, ticks: seq<Tick>)
    ensures var s := PushAll(symbol, interval, ticks);
      InOrder(s.taken) && s.agg.lastTimestamp == LastTime(s.taken)
  {
    hide Feed;
    if ticks != [] {
      hide InOrder;
      var s, tick := PushAll(symbol, interval, ticks[..|ticks| - 1]), ticks[|ticks| - 1];
      TakenIsInOrder(symbol, interval, ticks[..|ticks| - 1]);
      if Refusal(s.agg, tick).None? {
        InOrderSnoc(s.taken, tick);
      }
    }
  }

  lemma {:induction false} AtomsAt(ticks: seq<Tick>, interval: Interval, i: nat)
    requires i < |ticks|
    ensures |Atoms(ticks, interval)| == |ticks| && Atoms(ticks, interval)[i] == Atom(ticks[i], interval)
  {
    if i < |ticks| - 1 {
      AtomsAt(ticks[..|ticks| - 1], interval, i);
    } else if |ticks| > 1 {
      AtomsAt(ticks[..|ticks| - 1], interval, 0);
    }
  }

  /** The aggregator only takes ticks in time order, so its bars are exactly the occupied buckets. */
  lemma StreamBarsAreBuckets(symbol: Symbol, interval: Interval, ticks: seq<Tick>)
    ensures var atoms := Atoms(PushAll(symbol, interval, ticks).taken, interval);
      && Bars(symbol, interval, ticks) == FeedAll(atoms, interval).Closed()
      && Rising(Bars(symbol, interval, ticks))
      && (forall b :: b in Bars(symbol, interval, ticks) ==> Covers(b, atoms, interval))
      && UpTo(Bars(symbol, interval, ticks), atoms, interval)
  {
    hide PushAll, Rising, Covers, UpTo, Atoms;
    var taken := PushAll(symbol, interval, ticks).taken;
    var atoms := Atoms(taken, interval);
    TakenIsInOrder(symbol, interval, ticks);
    StreamIsAFold(symbol, interval, ticks);
    AtomsAreOrdered(taken, interval);
    BarsAreBuckets(atoms, interval);
  }

  lemma AtomsAreOrdered(ticks: seq<Tick>, interval: Interval)
    requires InOrder(ticks)
    ensures Ordered(Atoms(ticks, interval))
  {
    var atoms := Atoms(ticks, interval);
    if ticks != [] {
      AtomsAt(ticks, interval, 0);
    }
    forall i, j | 0 <= i < j < |atoms|
      ensures atoms[i].timestamp <= atoms[j].timestamp
    {
      AtomsAt(ticks, interval, i);
      AtomsAt(ticks, interval, j);
    }
  }

  // ----- The objects -----

  class CandleAggregator {
    const symbol: Symbol
    const interval: Interval
    var bar: Option<Candle>
    var lastTimestamp: Option<Timestamp>

    ghost function Model(): Agg
      reads this
    {
      Agg(symbol, interval, bar, lastTimestamp)
    }

    constructor (symbol: Symbol, interval: Interval)
      ensures Model() == Agg(symbol, interval, None, None)
    {
      this.symbol, this.interval := symbol, interval;
      bar, lastTimestamp := None, None;
    }

    method Push(tick: Tick) returns (r: Result<Option<Candle>, PushError>)
      modifies this
      ensures (Model(), r) == Pushed(old(Model()), tick)
    {
      hide BucketStart;
      if tick.symbol != symbol {
        return Failure(WrongSymbol);
      }
      if lastTimestamp.Some? && tick.timestamp < lastTimestamp.value {
        return Failure(OutOfOrder);
      }
      lastTimestamp := Some(tick.timestamp);
      var start := BucketStart(tick.timestamp, interval);
      if bar.None? {
        bar := Some(OpenBar(start, tick));
        return Success(None);
      }
      if start > bar.value.timestamp {
        var completed := bar.value;
        bar := Some(OpenBar(start, tick));
        return Success(Some(completed));
      }
      var b := bar.value;
      b := b.(high := if tick.price > b.high then tick.price else b.high);
      b := b.(low := if tick.price < b.low then tick.price else b.low);
      b := b.(close := tick.price, volume := b.volume + tick.quantity);
      bar := Some(b);
      return Success(None);
    }

    function OpenBar(start: Timestamp, tick: Tick): Candle {
      Candle(symbol, interval, start, tick.price, tick.price, tick.price, tick.price, tick.quantity)
    }

    /** Closes the bar in progress; ticks stay ordered against the last one seen. */
    method Flush() returns (completed: Option<Candle>)
      modifies this`bar
      ensures completed == old(bar) && Model() == old(Model()).(bar := None)
    {
      completed := bar;
      bar := None;
    }
  }

  method ResampleLoop(candles: seq<Candle>, target: Interval) returns (r: Result<seq<Candle>, ResampleError>)
    ensures r == Resample(candles, target)
  {
    hide BucketStart;
    if |candles| == 0 {
      return Success([]);
    }
    var source := candles[0].interval;
    if IntervalMs(target) < IntervalMs(source) {
      return Failure(ShorterTarget);
    }
    if IntervalMs(target) % IntervalMs(source) != 0 {
      return Failure(NotAMultiple);
    }
    var out: seq<Candle> := [];
    var current: Option<Candle> := None;
    for i := 0 to |candles|
      invariant FeedAll(candles[..i], target) == Fold(out, current)
    {
      var c := candles[i];
      assert candles[..i + 1] == candles[..i] + [c];
      FeedAllSnoc(candles[..i], c, target);
      var start := BucketStart(c.timestamp, target);
      if current.None? || start > current.value.timestamp {
        if current.Some? {
          out := out + [current.value];
        }
        current := Some(c.(timestamp := start, interval := target));
        continue;
      }
      current := Some(Merge(current.value, c));
    }
    assert candles[..|candles|] == candles;
    if current.Some? {
      out := out + [current.value];
    }
    return Success(out);
  }

  /** A day is twenty-four hours, ninety-six quarters, two hundred and eighty-eight times five minutes; a minute is sixty thousand milliseconds. */
  lemma IntervalsDivideTheDay()
    ensures IntervalMs(M1) == 60_000 && IntervalMs(D1) == 1440 * IntervalMs(M1)
    ensures IntervalMs(D1) == 288 * IntervalMs(M5) == 96 * IntervalMs(M15) == 24 * IntervalMs(H1)
  {
  }

  /** A bucket starts on a multiple of its interval and holds the moments until the next. */
  lemma BucketHoldsItsMoment(timestamp: Timestamp, interval: Interval)
    ensures BucketStart(timestamp, interval) <= timestamp < BucketStart(timestamp, interval) + IntervalMs(interval)
    ensures exists n :: BucketStart(timestamp, interval) == n * IntervalMs(interval)
  {
    DivisionBounds(timestamp, IntervalMs(interval));
    assert BucketStart(timestamp, interval) == (timestamp / IntervalMs(interval)) * IntervalMs(interval);
  }

  // ----- What a stream of trades amounts to -----

  /** First price, highest, lowest, last, and the quantity traded. */
  function Traded(ticks: seq<Tick>): Summary
    requires ticks != []
  {
    var last := ticks[|ticks| - 1];
    if |ticks| == 1 then Summary(last.price, last.price, last.price, last.price, last.quantity)
    else
      var before := Traded(ticks[..|ticks| - 1]);
      Summary(before.open, Max(before.high, last.price), Min(before.low, last.price), last.price, before.volume + last.quantity)
  }

  lemma {:induction false} AtomsAmountToTrades(ticks: seq<Tick>, interval: Interval)
    requires ticks != []
    ensures Atoms(ticks, interval) != [] && Summarised(Atoms(ticks, interval)) == Traded(ticks)
  {
    hide Summarised;
    var n := |ticks| - 1;
    SummarySnoc(Atoms(ticks[..n], interval), Atom(ticks[n], interval));
    if n > 0 {
      AtomsAmountToTrades(ticks[..n], interval);
    } else {
      assert ticks[..0] == [];
      assert Atoms(ticks[..0], interval) == [];
    }
  }

  /** However a stream falls into bars, they amount to the trades it took: no price and no quantity is lost or made up. */
  lemma StreamsConserveTrades(symbol: Symbol, interval: Interval, ticks: seq<Tick>)
    requires PushAll(symbol, interval, ticks).taken != []
    ensures Bars(symbol, interval, ticks) != []
    ensures Summarised(Bars(symbol, interval, ticks)) == Traded(PushAll(symbol, interval, ticks).taken)
  {
    hide PushAll, Atoms, Summarised, Traded;
    var taken := PushAll(symbol, interval, ticks).taken;
    StreamIsAFold(symbol, interval, ticks);
    AtomsAmountToTrades(taken, interval);
    ResamplingConserves(Atoms(taken, interval), interval);
  }
}
