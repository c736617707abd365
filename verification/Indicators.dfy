// Technical indicators: rolling loops over a price series, each the value of a window that ends at its own index.
module Indicators {
  import opened Domain

  type Series = seq<real>

  /** One value per input index; nothing in the warm-up region. */
  type Line = seq<Option<real>>

  type Period = n: nat | n >= 1 witness 1

  datatype PeriodError = NotPositive | FastNotShorter

  /** The line whose value at each index is computed from the values up to that index alone. */
  function LineOf(f: Series -> Option<real>, values: Series): (line: Line)
    ensures |line| == |values|
  {
    seq(|values|, i requires 0 <= i < |values| => f(values[..i + 1]))
  }

  lemma LineAt(f: Series -> Option<real>, values: Series, i: nat)
    requires i < |values|
    ensures LineOf(f, values)[i] == f(values[..i + 1])
  {
  }

  // ----- Prefixes -----

  ghost predicate Agree<T>(a: seq<T>, b: seq<T>, n: nat) {
    n <= |a| && n <= |b| && a[..n] == b[..n]
  }

  lemma AgreeSooner<T>(a: seq<T>, b: seq<T>, n: nat, m: nat)
    requires Agree(a, b, n) && m <= n
    ensures Agree(a, b, m)
  {
    assert a[..n][..m] == a[..m] && b[..n][..m] == b[..m];
  }

  /** Lines of series that share a prefix share it too: no value depends on what comes after it. */
  lemma LinesArePrefixStable(f: Series -> Option<real>, a: Series, b: Series, n: nat)
    requires Agree(a, b, n)
    ensures Agree(LineOf(f, a), LineOf(f, b), n)
  {
    forall i | 0 <= i < n
      ensures LineOf(f, a)[i] == LineOf(f, b)[i]
    {
      AgreeSooner(a, b, n, i + 1);
    }
  }

  // ----- Sums over windows -----

  datatype Moment = Plain | Squared

  function Term(m: Moment, x: real): real {
    if m.Plain? then x else x * x
  }

  function SumOf(m: Moment, s: Series): real {
    if s == [] then 0.0 else SumOf(m, s[..|s| - 1]) + Term(m, s[|s| - 1])
  }

  lemma SumAdds(m: Moment, s: Series, x: real)
    ensures SumOf(m, s + [x]) == SumOf(m, s) + Term(m, x)
  {
    assert (s + [x])[..|s|] == s;
  }

  lemma {:induction false} SumFromFront(m: Moment, s: Series)
    requires s != []
    ensures SumOf(m, s) == Term(m, s[0]) + SumOf(m, s[1..])
  {
    hide Term;
    if |s| > 1 {
      SumFromFront(m, s[..|s| - 1]);
      assert s[..|s| - 1][1..] == s[1..][..|s| - 2];
    }
  }

  /** The last `n` values, or as many as there are. */
  function Window(s: Series, n: nat): (w: Series)
    ensures |w| == if |s| <= n then |s| else n
  {
    if |s| <= n then s else s[|s| - n..]
  }

  /** Adding the newest value and dropping the one that leaves keeps a running sum equal to the window's. */
  lemma WindowSlides(m: Moment, s: Series, x: real, n: Period)
    ensures SumOf(m, Window(s + [x], n)) ==
            SumOf(m, Window(s, n)) + Term(m, x) - (if |s| >= n then Term(m, s[|s| - n]) else 0.0)
  {
    hide Term;
    if |s| < n {
      SumAdds(m, s, x);
    } else {
      var w := s[|s| - n..];
      assert Window(s, n) == w;
      assert Window(s + [x], n) == w[1..] + [x];
      SumFromFront(m, w);
      SumAdds(m, w[1..], x);
    }
  }

  // ----- Simple average -----

  function MeanOf(period: Period, prefix: Series): Option<real> {
    if |prefix| < period then None else Some(SumOf(Plain, Window(prefix, period)) / period as real)
  }

  function Mean(period: Period): Series -> Option<real> {
    prefix => MeanOf(period, prefix)
  }

  lemma MeanFromSum(period: Period, prefix: Series, sum: real)
    requires sum == SumOf(Plain, Window(prefix, period))
    ensures MeanOf(period, prefix) == if |prefix| < period then None else Some(sum / period as real)
  {
    hide SumOf;
  }

  method Sma(values: Series, period: int) returns (r: Result<Line, PeriodError>)
    ensures r == if period < 1 then Failure(NotPositive) else Success(LineOf(Mean(period), values))
  {
    hide SumOf, MeanOf, Window;
    if period < 1 {
      return Failure(NotPositive);
    }
    var out := new Option<real>[|values|](_ => None);
    var sum := 0.0;
    EmptyWindow(Plain, values, period);
    for i := 0 to |values|
      invariant sum == SumOf(Plain, Window(values[..i], period))
      invariant forall k :: 0 <= k < i ==> out[k] == MeanOf(period, values[..k + 1])
      invariant forall k :: i <= k < |values| ==> out[k] == None
    {
      assert values[..i + 1] == values[..i] + [values[i]];
      WindowSlides(Plain, values[..i], values[i], period);
      sum := sum + values[i];
      if i >= period {
        sum := sum - values[i - period];
      }
      MeanFromSum(period, values[..i + 1], sum);
      if i >= period - 1 {
        out[i] := Some(sum / period as real);
      }
    }
    assert out[..] == LineOf(Mean(period), values);
    return Success(out[..]);
  }

  lemma SumOfNothing(m: Moment)
    ensures SumOf(m, []) == 0.0
  {
  }

  lemma EmptyWindow(m: Moment, s: Series, n: Period)
    ensures SumOf(m, Window(s[..0], n)) == 0.0
  {
  }

  // ----- Recursive averages -----

  datatype Smoothing = Exponential | Wilder

  /** How a new value is worked into the running average. */
  function Blend(kind: Smoothing, period: Period, previous: real, value: real): real {
    match kind
    case Exponential =>
      var alpha := 2.0 / (period + 1) as real;
      value * alpha + previous * (1.0 - alpha)
    case Wilder => (previous * (period - 1) as real + value) / period as real
  }

  /** Seeded with the mean of the first `period` values. */
  function SmoothedOf(kind: Smoothing, period: Period, prefix: Series): (r: Option<real>)
    ensures r.Some? <==> |prefix| >= period
  {
    if |prefix| < period then None
    else if |prefix| == period then Some(SumOf(Plain, prefix) / period as real)
    else Some(Blend(kind, period, SmoothedOf(kind, period, prefix[..|prefix| - 1]).value, prefix[|prefix| - 1]))
  }

  function Smoothed(kind: Smoothing, period: Period): Series -> Option<real> {
    prefix => SmoothedOf(kind, period, prefix)
  }

  /** The average of the first `period` values, which every recursive average starts from. */
  method SeedAverage(kind: Smoothing, values: Series, period: Period) returns (average: real)
    requires |values| >= period
    ensures SmoothedOf(kind, period, values[..period]) == Some(average)
  {
    hide SumOf;
    var total := 0.0;
    SumOfNothing(Plain);
    for i := 0 to period
      invariant total == SumOf(Plain, values[..i])
    {
      assert values[..i + 1] == values[..i] + [values[i]];
      SumAdds(Plain, values[..i], values[i]);
      total := total + values[i];
    }
    average := total / period as real;
  }

  lemma SmoothedEarly(kind: Smoothing, period: Period, values: Series)
    ensures forall k :: 0 <= k < period - 1 && k < |values| ==> LineOf(Smoothed(kind, period), values)[k] == None
  {
    hide SmoothedOf;
    forall k | 0 <= k < period - 1 && k < |values|
      ensures LineOf(Smoothed(kind, period), values)[k] == None
    {
      assert |values[..k + 1]| < period;
    }
  }

  method Smooth(kind: Smoothing, values: Series, period: int) returns (r: Result<Line, PeriodError>)
    ensures r == if period < 1 then Failure(NotPositive) else Success(LineOf(Smoothed(kind, period), values))
  {
    hide SumOf, Blend, SmoothedOf, LineOf;
    if period < 1 {
      return Failure(NotPositive);
    }
    ghost var line := LineOf(Smoothed(kind, period), values);
    SmoothedEarly(kind, period, values);
    var out := new Option<real>[|values|](_ => None);
    if |values| < period {
      assert out[..] == line;
      return Success(out[..]);
    }
    var previous := SeedAverage(kind, values, period);
    LineAt(Smoothed(kind, period), values, period - 1);
    out[period - 1] := Some(previous);
    for i := period to |values|
      invariant Some(previous) == SmoothedOf(kind, period, values[..i])
      invariant forall k :: 0 <= k < i ==> out[k] == line[k]
    {
      SmoothedAdds(kind, period, values, i);
      LineAt(Smoothed(kind, period), values, i);
      previous := Blend(kind, period, previous, values[i]);
      out[i] := Some(previous);
    }
    assert out[..] == line;
    return Success(out[..]);
  }

  /** Every value lies between two bounds. */
  ghost predicate Within(s: Series, lo: real, hi: real) {
    forall i :: 0 <= i < |s| ==> lo <= s[i] <= hi
  }

  lemma {:induction false} SumWithin(s: Series, lo: real, hi: real)
    requires Within(s, lo, hi)
    ensures |s| as real * lo <= SumOf(Plain, s) <= |s| as real * hi
  {
    if s != [] {
      SumWithin(s[..|s| - 1], lo, hi);
      assert |s| as real * lo == (|s| - 1) as real * lo + lo;
      assert |s| as real * hi == (|s| - 1) as real * hi + hi;
    }
  }

  lemma QuotientWithin(total: real, n: Period, lo: real, hi: real)
    requires n as real * lo <= total <= n as real * hi
    ensures lo <= total / n as real <= hi
  {
  }

  lemma BlendWithin(kind: Smoothing, period: Period, previous: real, value: real, lo: real, hi: real)
    requires lo <= previous <= hi && lo <= value <= hi
    ensures lo <= Blend(kind, period, previous, value) <= hi
  {
    if kind == Exponential {
      AlphaIsAShare(period);
      Mixture(2.0 / (period + 1) as real, value, previous, lo, hi);
    } else {
      WeightedWithin((period - 1) as real, previous, value, lo, hi);
      QuotientWithin(previous * (period - 1) as real + value, period, lo, hi);
    }
  }

  lemma AlphaIsAShare(period: Period)
    ensures 0.0 < 2.0 / (period + 1) as real <= 1.0
  {
  }

  lemma WeightedWithin(rest: real, previous: real, value: real, lo: real, hi: real)
    requires rest >= 0.0 && lo <= previous <= hi && lo <= value <= hi
    ensures (rest + 1.0) * lo <= previous * rest + value <= (rest + 1.0) * hi
  {
    assert (previous - lo) * rest >= 0.0 && (hi - previous) * rest >= 0.0;
  }

  lemma Mixture(alpha: real, x: real, y: real, lo: real, hi: real)
    requires 0.0 <= alpha <= 1.0 && lo <= x <= hi && lo <= y <= hi
    ensures lo <= x * alpha + y * (1.0 - alpha) <= hi
  {
    MixtureAtLeast(alpha, 1.0 - alpha, x, y, lo);
    MixtureAtLeast(alpha, 1.0 - alpha, -x, -y, -hi);
  }

  lemma MixtureAtLeast(a: real, b: real, x: real, y: real, lo: real)
    requires a >= 0.0 && b >= 0.0 && a + b == 1.0 && lo <= x && lo <= y
    ensures lo <= x * a + y * b
  {
    assert (x - lo) * a >= 0.0;
    assert (y - lo) * b >= 0.0;
    assert (x - lo) * a + (y - lo) * b == x * a + y * b - lo * (a + b);
    assert lo * (a + b) == lo;
  }

  /** However long the series, a recursive average stays between bounds on its inputs. */
  lemma {:induction false} SmoothedWithin(kind: Smoothing, period: Period, s: Series, lo: real, hi: real)
    requires Within(s, lo, hi) && |s| >= period
    ensures lo <= SmoothedOf(kind, period, s).value <= hi
  {
    hide Blend, SumOf;
    if |s| == period {
      SumWithin(s, lo, hi);
      QuotientWithin(SumOf(Plain, s), period, lo, hi);
    } else {
      var before := s[..|s| - 1];
      SmoothedWithin(kind, period, before, lo, hi);
      BlendWithin(kind, period, SmoothedOf(kind, period, before).value, s[|s| - 1], lo, hi);
    }
  }

  /** How far a recursive average moves toward a new value: two parts of the period and one, or one part of the period. */
  function Share(kind: Smoothing, period: Period): real {
    if kind.Exponential? then 2.0 / (period + 1) as real else 1.0 / period as real
  }

  /** An average starts from the mean of its first period. */
  lemma AverageStartsAtTheMean(kind: Smoothing, period: Period, s: Series)
    requires |s| == period
    ensures SmoothedOf(kind, period, s) == MeanOf(period, s)
  {
    hide SumOf, Blend;
  }

  /** From then on it moves toward every new value by its share of the distance. */
  lemma AverageMovesByItsShare(kind: Smoothing, period: Period, prefix: Series, x: real)
    requires |prefix| >= period
    ensures SmoothedOf(kind, period, prefix + [x]).value - SmoothedOf(kind, period, prefix).value ==
            Share(kind, period) * (x - SmoothedOf(kind, period, prefix).value)
  {
    hide SmoothedOf, Blend, Share;
    SmoothedStep(kind, period, prefix, x);
    BlendMoves(kind, period, SmoothedOf(kind, period, prefix).value, x);
  }

  lemma SmoothedStep(kind: Smoothing, period: Period, prefix: Series, x: real)
    requires |prefix| >= period
    ensures SmoothedOf(kind, period, prefix + [x]) == Some(Blend(kind, period, SmoothedOf(kind, period, prefix).value, x))
  {
    hide SumOf, Blend;
    assert (prefix + [x])[..|prefix|] == prefix;
  }

  lemma BlendMoves(kind: Smoothing, period: Period, before: real, x: real)
    ensures Blend(kind, period, before, x) - before == Share(kind, period) * (x - before)
  {
    if kind.Wilder? {
      WilderMoves(period as real, before, x);
    } else {
      var alpha := 2.0 / (period + 1) as real;
      assert x * alpha + before * (1.0 - alpha) - before == alpha * (x - before);
    }
  }

  lemma WilderMoves(n: real, before: real, x: real)
    requires n > 0.0
    ensures (before * (n - 1.0) + x) / n - before == 1.0 / n * (x - before)
  {
    var q := 1.0 / n;
    assert q * n == 1.0;
    assert (before * (n - 1.0) + x) / n == q * (before * (n - 1.0) + x);
    assert q * (before * (n - 1.0) + x) == (q * n) * before - q * before + q * x;
  }

  // ----- Deviation -----

  /** Population variance of the last `period` values, by the sum of squares, clamped at zero. */
  function VarianceOf(period: Period, w: Series): (v: real)
    ensures v >= 0.0
  {
    ClampedVariance(period, SumOf(Plain, w), SumOf(Squared, w))
  }

  function ClampedVariance(period: Period, sum: real, sumSquares: real): (v: real)
    ensures v >= 0.0
  {
    var mean := sum / period as real;
    var variance := sumSquares / period as real - mean * mean;
    if variance > 0.0 then variance else 0.0
  }

  function DeviationOf(root: real -> real, period: Period, prefix: Series): Option<real> {
    if period == 1 then Some(0.0)
    else if |prefix| < period then None
    else Some(root(VarianceOf(period, Window(prefix, period))))
  }

  function Deviation(root: real -> real, period: Period): Series -> Option<real> {
    prefix => DeviationOf(root, period, prefix)
  }

  lemma DeviationFromSums(root: real -> real, period: Period, prefix: Series, sum: real, sumSquares: real)
    requires period > 1
    requires sum == SumOf(Plain, Window(prefix, period)) && sumSquares == SumOf(Squared, Window(prefix, period))
    ensures DeviationOf(root, period, prefix) ==
            if |prefix| < period then None else Some(root(ClampedVariance(period, sum, sumSquares)))
  {
    hide SumOf, ClampedVariance, Window;
  }

  method Stdev(root: real -> real, values: Series, period: int) returns (r: Result<Line, PeriodError>)
    ensures r == if period < 1 then Failure(NotPositive) else Success(LineOf(Deviation(root, period), values))
  {
    hide SumOf, Term, Window, DeviationOf, ClampedVariance;
    if period < 1 {
      return Failure(NotPositive);
    }
    var out := new Option<real>[|values|](_ => None);
    if period == 1 {
      FlatDeviation(root, values);
      var zeros := seq(|values|, _ => Some(0.0));
      assert zeros == LineOf(Deviation(root, period), values);
      return Success(zeros);
    }
    var sum, sumSquares := 0.0, 0.0;
    EmptyWindow(Plain, values, period);
    EmptyWindow(Squared, values, period);
    for i := 0 to |values|
      invariant sum == SumOf(Plain, Window(values[..i], period))
      invariant sumSquares == SumOf(Squared, Window(values[..i], period))
      invariant forall k :: 0 <= k < i ==> out[k] == DeviationOf(root, period, values[..k + 1])
      invariant forall k :: i <= k < |values| ==> out[k] == None
    {
      assert values[..i + 1] == values[..i] + [values[i]];
      WindowSlides(Plain, values[..i], values[i], period);
      WindowSlides(Squared, values[..i], values[i], period);
      var value := values[i];
      sum := Entered(Plain, sum, value);
      sumSquares := Entered(Squared, sumSquares, value);
      if i >= period {
        var dropped := values[i - period];
        sum := Dropped(Plain, sum, dropped);
        sumSquares := Dropped(Squared, sumSquares, dropped);
      }
      DeviationFromSums(root, period, values[..i + 1], sum, sumSquares);
      if i >= period - 1 {
        out[i] := Some(root(ClampedVariance(period, sum, sumSquares)));
      }
    }
    assert out[..] == LineOf(Deviation(root, period), values);
    return Success(out[..]);
  }

  lemma FlatDeviation(root: real -> real, values: Series)
    ensures LineOf(Deviation(root, 1), values) == seq(|values|, _ => Some(0.0))
  {
    var line := LineOf(Deviation(root, 1), values);
    assert forall k :: 0 <= k < |values| ==> line[k] == Some(0.0);
  }

  function Entered(m: Moment, sum: real, value: real): (r: real)
    ensures r == sum + Term(m, value)
  {
    if m.Plain? then sum + value else sum + value * value
  }

  function Dropped(m: Moment, sum: real, value: real): (r: real)
    ensures r == sum - Term(m, value)
  {
    if m.Plain? then sum - value else sum - value * value
  }

  /** Sum of squared distances from a centre. */
  function Spread(s: Series, centre: real): (r: real)
    ensures r >= 0.0
  {
    if s == [] then 0.0
    else Spread(s[..|s| - 1], centre) + Square(s[|s| - 1] - centre)
  }

  function Square(x: real): (r: real)
    ensures r >= 0.0
  {
    x * x
  }

  lemma {:induction false} SpreadExpands(s: Series, centre: real)
    ensures Spread(s, centre) == SumOf(Squared, s) - 2.0 * centre * SumOf(Plain, s) + |s| as real * (centre * centre)
  {
    hide Square, Term;
    if s != [] {
      var t, x := s[..|s| - 1], s[|s| - 1];
      SpreadExpands(t, centre);
      SpreadStep(Spread(t, centre), SumOf(Squared, t), SumOf(Plain, t), |t| as real, x, centre);
      assert |s| as real == |t| as real + 1.0;
    } else {
      SpreadOfNothing(centre);
    }
  }

  lemma SpreadOfNothing(centre: real)
    ensures Spread([], centre) == SumOf(Squared, []) - 2.0 * centre * SumOf(Plain, []) + 0.0 * (centre * centre)
  {
  }

  lemma SpreadStep(spread: real, squares: real, sum: real, n: real, x: real, c: real)
    requires spread == squares - 2.0 * c * sum + n * (c * c)
    ensures spread + Square(x - c) == squares + Term(Squared, x) - 2.0 * c * (sum + Term(Plain, x)) + (n + 1.0) * (c * c)
  {
    assert (x - c) * (x - c) == x * x - 2.0 * c * x + c * c;
    assert 2.0 * c * (sum + x) == 2.0 * c * sum + 2.0 * c * x;
    assert (n + 1.0) * (c * c) == n * (c * c) + c * c;
  }

  /** Over exact numbers the sum-of-squares form is the mean squared distance from the mean, so the clamp never acts. */
  lemma VarianceIsMeanSquaredDeviation(period: Period, w: Series)
    requires |w| == period
    ensures VarianceOf(period, w) == Spread(w, SumOf(Plain, w) / period as real) / period as real
    ensures VarianceOf(period, w) == SumOf(Squared, w) / period as real - (SumOf(Plain, w) / period as real) * (SumOf(Plain, w) / period as real)
  {
    hide SumOf, Spread;
    var n := period as real;
    var total := SumOf(Plain, w);
    var squares := SumOf(Squared, w);
    var mean := total / n;
    SpreadExpands(w, mean);
    VarianceAlgebra(n, total, squares, mean, Spread(w, mean));
  }

  lemma VarianceAlgebra(n: real, total: real, squares: real, mean: real, spread: real)
    requires n >= 1.0 && mean == total / n
    requires spread == squares - 2.0 * mean * total + n * (mean * mean) && spread >= 0.0
    ensures spread / n == squares / n - mean * mean && spread / n >= 0.0
  {
    assert total == n * mean;
    assert 2.0 * mean * total == 2.0 * (n * (mean * mean));
    assert spread == squares - n * (mean * mean);
    assert spread / n == squares / n - (n * (mean * mean)) / n;
  }

  // ----- Relative strength -----

  /** The upward or downward part of a change. */
  function Move(up: bool, from: real, to: real): (m: real)
    ensures m >= 0.0
  {
    var change := if up then to - from else from - to;
    if change > 0.0 then change else 0.0
  }

  /** The moves between neighbours, oldest first. */
  function Moves(up: bool, s: Series): (m: Series)
    ensures |m| == if |s| == 0 then 0 else |s| - 1
  {
    if |s| <= 1 then [] else Moves(up, s[..|s| - 1]) + [Move(up, s[|s| - 2], s[|s| - 1])]
  }

  function Strength(gain: real, loss: real): real
    requires gain >= 0.0 && loss >= 0.0
  {
    if loss == 0.0 then 100.0
    else
      RatioNonNegative(gain, loss);
      100.0 - 100.0 / (1.0 + gain / loss)
  }

  lemma RatioNonNegative(gain: real, loss: real)
    requires gain >= 0.0 && loss > 0.0
    ensures gain / loss >= 0.0
  {
  }

  lemma {:induction false} MovesNonNegative(up: bool, s: Series)
    ensures forall i :: 0 <= i < |Moves(up, s)| ==> Moves(up, s)[i] >= 0.0
  {
    if |s| > 1 {
      MovesNonNegative(up, s[..|s| - 1]);
    }
  }

  lemma {:induction false} SmoothedNonNegative(kind: Smoothing, period: Period, s: Series)
    requires |s| >= period && forall i :: 0 <= i < |s| ==> s[i] >= 0.0
    ensures SmoothedOf(kind, period, s).value >= 0.0
  {
    hide Blend, SumOf;
    if |s| == period {
      SumNonNegative(s);
    } else {
      var t := s[..|s| - 1];
      SmoothedNonNegative(kind, period, t);
      var top := if SmoothedOf(kind, period, t).value > s[|s| - 1] then SmoothedOf(kind, period, t).value else s[|s| - 1];
      BlendWithin(kind, period, SmoothedOf(kind, period, t).value, s[|s| - 1], 0.0, top);
    }
  }

  lemma {:induction false} SumNonNegative(s: Series)
    requires forall i :: 0 <= i < |s| ==> s[i] >= 0.0
    ensures SumOf(Plain, s) >= 0.0
  {
    if s != [] {
      SumNonNegative(s[..|s| - 1]);
    }
  }

  /** Smoothed gains and losses; defined once there are `period` changes. */
  function AverageMove(up: bool, period: Period, prefix: Series): (r: real)
    requires |prefix| > period
    ensures r >= 0.0
  {
    MovesNonNegative(up, prefix);
    SmoothedNonNegative(Wilder, period, Moves(up, prefix));
    SmoothedOf(Wilder, period, Moves(up, prefix)).value
  }

  function StrengthOf(period: Period, prefix: Series): Option<real> {
    if |prefix| <= period then None
    else Some(Strength(AverageMove(true, period, prefix), AverageMove(false, period, prefix)))
  }

  function RelativeStrength(period: Period): Series -> Option<real> {
    prefix => StrengthOf(period, prefix)
  }

  lemma StrengthWithin(gain: real, loss: real)
    requires gain >= 0.0 && loss >= 0.0
    ensures 0.0 <= Strength(gain, loss) <= 100.0
    ensures Strength(gain, loss) == 100.0 <==> loss == 0.0
    ensures Strength(gain, loss) == 0.0 <==> gain == 0.0 && loss > 0.0
  {
    if loss > 0.0 {
      RatioNonNegative(gain, loss);
      var share := 1.0 + gain / loss;
      assert 0.0 < 100.0 / share <= 100.0;
      assert gain > 0.0 ==> gain / loss > 0.0;
      assert share > 1.0 ==> 100.0 / share < 100.0;
    }
  }

  /** The index is the share of gains in all moves, out of a hundred. */
  lemma StrengthIsShareOfGains(gain: real, loss: real)
    requires gain >= 0.0 && loss >= 0.0
    ensures Strength(gain, loss) * (gain + loss) == 100.0 * gain
  {
    if loss > 0.0 {
      RatioNonNegative(gain, loss);
      var whole := 1.0 + gain / loss;
      assert whole * loss == gain + loss;
      assert 100.0 / whole * (gain + loss) == 100.0 * loss by { assert 100.0 / whole * (whole * loss) == 100.0 * loss; }
      assert (100.0 - 100.0 / whole) * (gain + loss) == 100.0 * (gain + loss) - 100.0 / whole * (gain + loss);
    }
  }

  lemma {:induction false} ZeroSumOfMoves(s: Series)
    requires forall i :: 0 <= i < |s| ==> s[i] >= 0.0
    ensures SumOf(Plain, s) == 0.0 <==> forall i :: 0 <= i < |s| ==> s[i] == 0.0
  {
    if s != [] {
      var t := s[..|s| - 1];
      ZeroSumOfMoves(t);
      SumNonNegative(t);
      assert forall i :: 0 <= i < |t| ==> t[i] == s[i];
    }
  }

  lemma BlendIsZero(period: Period, previous: real, value: real)
    requires period >= 2 && previous >= 0.0 && value >= 0.0
    ensures Blend(Wilder, period, previous, value) == 0.0 <==> previous == 0.0 && value == 0.0
  {
    var rest := (period - 1) as real;
    assert previous > 0.0 ==> previous * rest > 0.0;
    assert previous * rest >= 0.0;
    var total := previous * rest + value;
    assert total > 0.0 ==> total / period as real > 0.0;
  }

  /** Wilder's average forgets nothing: it is zero only when every value so far was. */
  lemma {:induction false} SmoothedIsZero(period: Period, s: Series)
    requires period >= 2 && |s| >= period && forall i :: 0 <= i < |s| ==> s[i] >= 0.0
    ensures SmoothedOf(Wilder, period, s).value == 0.0 <==> AllZero(s)
  {
    hide Blend, SumOf;
    if |s| == period {
      ZeroSumOfMoves(s);
    } else {
      var t := s[..|s| - 1];
      SmoothedIsZero(period, t);
      SmoothedNonNegative(Wilder, period, t);
      BlendIsZero(period, SmoothedOf(Wilder, period, t).value, s[|s| - 1]);
      assert forall i :: 0 <= i < |t| ==> t[i] == s[i];
    }
  }

  lemma {:induction false} MoveAt(up: bool, s: Series, i: nat)
    requires i + 1 < |s|
    ensures Moves(up, s)[i] == Move(up, s[i], s[i + 1])
  {
    hide Move;
    if i + 2 < |s| {
      MoveAt(up, s[..|s| - 1], i);
    }
  }

  ghost predicate NeverFalls(s: Series) {
    forall i :: 0 <= i < |s| - 1 ==> s[i] <= s[i + 1]
  }

  ghost predicate AllZero(s: Series) {
    forall i :: 0 <= i < |s| ==> s[i] == 0.0
  }

  lemma NoFallsNoLosses(s: Series)
    ensures AllZero(Moves(false, s)) <==> NeverFalls(s)
  {
    hide Moves;
    forall i | 0 <= i < |s| - 1
      ensures Moves(false, s)[i] == Move(false, s[i], s[i + 1])
    {
      MoveAt(false, s, i);
    }
    if AllZero(Moves(false, s)) {
      forall i | 0 <= i < |s| - 1
        ensures s[i] <= s[i + 1]
      {
        assert Moves(false, s)[i] == 0.0;
      }
    }
    if NeverFalls(s) {
      forall i | 0 <= i < |Moves(false, s)|
        ensures Moves(false, s)[i] == 0.0
      {
        assert s[i] <= s[i + 1];
      }
    }
  }

  /** Over one period the average is the last value alone. */
  lemma SmoothedOverOne(s: Series)
    requires s != []
    ensures SmoothedOf(Wilder, 1, s).Some? && SmoothedOf(Wilder, 1, s).value == s[|s| - 1]
  {
    var before := s[..|s| - 1];
    assert s == before + [s[|s| - 1]];
  }

  /**
   * The index stays in its scale. It reaches its top exactly when the price never fell since the
   * series began, or, over one period, when the last move was no fall.
   */
  lemma StrengthIsBounded(period: Period, s: Series)
    requires |s| > period
    ensures 0.0 <= StrengthOf(period, s).value <= 100.0
    ensures period >= 2 ==> (StrengthOf(period, s).value == 100.0 <==> NeverFalls(s))
    ensures period == 1 ==> (StrengthOf(period, s).value == 100.0 <==> s[|s| - 2] <= s[|s| - 1])
  {
    hide Strength, SmoothedOf, Moves, NeverFalls;
    StrengthWithin(AverageMove(true, period, s), AverageMove(false, period, s));
    if period >= 2 {
      MovesNonNegative(false, s);
      SmoothedIsZero(period, Moves(false, s));
      NoFallsNoLosses(s);
    } else {
      SmoothedOverOne(Moves(false, s));
      MoveAt(false, s, |s| - 2);
    }
  }

  /** A window without a loss is not enough: one earlier fall keeps the index below its top for good. */
  lemma OldFallIsRemembered(period: Period, s: Series)
    requires |s| > period >= 2
    requires NeverFalls(Window(s, period + 1)) && !NeverFalls(s)
    ensures StrengthOf(period, s).value < 100.0
  {
    hide StrengthOf, NeverFalls;
    StrengthIsBounded(period, s);
  }

  /** For instance two rises after one fall, over two periods. */
  lemma FallThenRises()
    ensures NeverFalls(Window([2.0, 1.0, 2.0, 3.0], 3)) && StrengthOf(2, [2.0, 1.0, 2.0, 3.0]).value < 100.0
  {
    hide StrengthOf;
    var s := [2.0, 1.0, 2.0, 3.0];
    assert Window(s, 3) == [1.0, 2.0, 3.0];
    assert s[0] > s[0 + 1];
    OldFallIsRemembered(2, s);
  }

  method Rsi(values: Series, period: int) returns (r: Result<Line, PeriodError>)
    ensures r == if period < 1 then Failure(NotPositive) else Success(LineOf(RelativeStrength(period), values))
  {
    hide SumOf, Blend, Strength, Move, StrengthOf, Moves, SmoothedOf, LineOf;
    if period < 1 {
      return Failure(NotPositive);
    }
    ghost var line := LineOf(RelativeStrength(period), values);
    var out := new Option<real>[|values|](_ => None);
    forall k | 0 <= k < |values| && k < period
      ensures line[k] == None
    {
      LineAt(RelativeStrength(period), values, k);
      NoStrengthYet(period, values[..k + 1]);
    }
    if |values| <= period {
      assert out[..] == line;
      return Success(out[..]);
    }
    var gains := ListMoves(true, values);
    var losses := ListMoves(false, values);
    var avgGain := SeedAverage(Wilder, gains, period);
    var avgLoss := SeedAverage(Wilder, losses, period);
    PrefixOfMoves(true, values, period + 1);
    PrefixOfMoves(false, values, period + 1);
    StrengthFromAverages(period, values[..period + 1], avgGain, avgLoss);
    LineAt(RelativeStrength(period), values, period);
    out[period] := Some(Strength(avgGain, avgLoss));
    for i := period + 1 to |values|
      invariant SmoothedOf(Wilder, period, gains[..i - 1]) == Some(avgGain)
      invariant SmoothedOf(Wilder, period, losses[..i - 1]) == Some(avgLoss)
      invariant forall k :: 0 <= k < i ==> out[k] == line[k]
    {
      PrefixOfMoves(true, values, i + 1);
      PrefixOfMoves(false, values, i + 1);
      SmoothedAdds(Wilder, period, gains, i - 1);
      SmoothedAdds(Wilder, period, losses, i - 1);
      avgGain := Blend(Wilder, period, avgGain, gains[i - 1]);
      avgLoss := Blend(Wilder, period, avgLoss, losses[i - 1]);
      StrengthFromAverages(period, values[..i + 1], avgGain, avgLoss);
      LineAt(RelativeStrength(period), values, i);
      out[i] := Some(Strength(avgGain, avgLoss));
    }
    assert out[..] == line;
    return Success(out[..]);
  }

  lemma NoStrengthYet(period: Period, prefix: Series)
    requires |prefix| <= period
    ensures StrengthOf(period, prefix) == None
  {
  }

  lemma SmoothedAdds(kind: Smoothing, period: Period, s: Series, n: nat)
    requires period <= n < |s|
    ensures SmoothedOf(kind, period, s[..n + 1]) == Some(Blend(kind, period, SmoothedOf(kind, period, s[..n]).value, s[n]))
  {
    hide Blend;
    assert s[..n + 1][..n] == s[..n];
  }

  lemma StrengthFromAverages(period: Period, prefix: Series, gain: real, loss: real)
    requires |prefix| > period
    requires SmoothedOf(Wilder, period, Moves(true, prefix)) == Some(gain)
    requires SmoothedOf(Wilder, period, Moves(false, prefix)) == Some(loss)
    ensures gain >= 0.0 && loss >= 0.0 && StrengthOf(period, prefix) == Some(Strength(gain, loss))
  {
    hide Strength, Moves, SmoothedOf;
    assert AverageMove(true, period, prefix) == gain && AverageMove(false, period, prefix) == loss;
  }

  lemma {:induction false} PrefixOfMoves(up: bool, s: Series, n: nat)
    requires 1 <= n <= |s|
    ensures Moves(up, s[..n]) == Moves(up, s)[..n - 1]
    decreases |s|
  {
    hide Move;
    if n == |s| {
      assert s[..n] == s;
    } else {
      var t := s[..|s| - 1];
      PrefixOfMoves(up, t, n);
      assert t[..n] == s[..n];
    }
  }

  method ListMoves(up: bool, values: Series) returns (moves: Series)
    requires |values| >= 1
    ensures moves == Moves(up, values)
  {
    hide Move;
    moves := [];
    for i := 1 to |values|
      invariant moves == Moves(up, values[..i])
    {
      assert values[..i + 1][..i] == values[..i];
      moves := moves + [Move(up, values[i - 1], values[i])];
    }
    assert values[..|values|] == values;
  }

  // ----- Ranges -----

  function RealAbs(x: real): real {
    if x < 0.0 then -x else x
  }

  function RealMax(x: real, y: real): real {
    if x >= y then x else y
  }

  function RealMin(x: real, y: real): real {
    if x <= y then x else y
  }

  /** The widest of the bar's own range and its two gaps against the previous close. */
  function TrueRangeAt(high: Series, low: Series, close: Series, i: nat): real
    requires |high| == |low| == |close| && i < |close|
  {
    if i == 0 then high[0] - low[0]
    else RealMax(RealMax(high[i] - low[i], RealAbs(high[i] - close[i - 1])), RealAbs(low[i] - close[i - 1]))
  }

  function TrueRanges(high: Series, low: Series, close: Series): (r: Series)
    requires |high| == |low| == |close|
    ensures |r| == |close|
  {
    seq(|close|, i requires 0 <= i < |close| => TrueRangeAt(high, low, close, i))
  }

  method TrueRange(high: Series, low: Series, close: Series) returns (out: Series)
    requires |high| == |low| == |close|
    ensures out == TrueRanges(high, low, close)
  {
    out := [];
    for i := 0 to |close|
      invariant |out| == i && forall k :: 0 <= k < i ==> out[k] == TrueRangeAt(high, low, close, k)
    {
      if i == 0 {
        out := out + [high[i] - low[i]];
      } else {
        var previousClose := close[i - 1];
        out := out + [RealMax(RealMax(high[i] - low[i], RealAbs(high[i] - previousClose)), RealAbs(low[i] - previousClose))];
      }
    }
  }

  /** Where the bar holds together, its true range is the span of the bar and the previous close taken as one. */
  lemma TrueRangeIsSpan(high: Series, low: Series, close: Series, i: nat)
    requires |high| == |low| == |close| && 0 < i < |close| && low[i] <= high[i]
    ensures TrueRangeAt(high, low, close, i) == RealMax(high[i], close[i - 1]) - RealMin(low[i], close[i - 1])
  {
  }

  method Atr(high: Series, low: Series, close: Series, period: int) returns (r: Result<Line, PeriodError>)
    requires |high| == |low| == |close|
    ensures r == if period < 1 then Failure(NotPositive)
                 else Success(LineOf(Smoothed(Wilder, period), TrueRanges(high, low, close)))
  {
    var ranges := TrueRange(high, low, close);
    r := Smooth(Wilder, ranges, period);
  }

  // ----- Bands -----

  datatype BandSide = UpperBand | LowerBand

  function BandOf(side: BandSide, root: real -> real, multiplier: real, period: Period, prefix: Series): Option<real> {
    var mid := MeanOf(period, prefix);
    var dev := DeviationOf(root, period, prefix);
    if mid.None? || dev.None? then None
    else if side.UpperBand? then Some(mid.value + Reach(multiplier, dev.value))
    else Some(mid.value - Reach(multiplier, dev.value))
  }

  function Reach(multiplier: real, deviation: real): real {
    multiplier * deviation
  }

  function Band(side: BandSide, root: real -> real, multiplier: real, period: Period): Series -> Option<real> {
    prefix => BandOf(side, root, multiplier, period, prefix)
  }

  datatype Bands = Bands(upper: Line, middle: Line, lower: Line)

  function BandsOf(root: real -> real, multiplier: real, period: Period, values: Series): Bands {
    Bands(LineOf(Band(UpperBand, root, multiplier, period), values),
          LineOf(Mean(period), values),
          LineOf(Band(LowerBand, root, multiplier, period), values))
  }

  lemma BandAt(side: BandSide, root: real -> real, multiplier: real, period: Period, values: Series, i: nat)
    requires i < |values|
    ensures var mid, dev := LineOf(Mean(period), values)[i], LineOf(Deviation(root, period), values)[i];
      LineOf(Band(side, root, multiplier, period), values)[i] ==
      if mid.None? || dev.None? then None
      else if side.UpperBand? then Some(mid.value + Reach(multiplier, dev.value))
      else Some(mid.value - Reach(multiplier, dev.value))
  {
    hide MeanOf, DeviationOf, Reach;
    var prefix := values[..i + 1];
    var mid, dev := LineOf(Mean(period), values)[i], LineOf(Deviation(root, period), values)[i];
    assert mid == MeanOf(period, prefix);
    assert dev == DeviationOf(root, period, prefix);
    assert LineOf(Band(side, root, multiplier, period), values)[i] == BandOf(side, root, multiplier, period, prefix);
  }

  method Bollinger(root: real -> real, values: Series, period: int, multiplier: real) returns (r: Result<Bands, PeriodError>)
    ensures r == if period < 1 then Failure(NotPositive) else Success(BandsOf(root, multiplier, period, values))
  {
    hide Mean, Deviation, Band, LineOf, Reach;
    var middle :- Sma(values, period);
    var deviation := Stdev(root, values, period);
    var upper := new Option<real>[|values|](_ => None);
    var lower := new Option<real>[|values|](_ => None);
    for i := 0 to |values|
      invariant forall k :: 0 <= k < i ==> upper[k] == LineOf(Band(UpperBand, root, multiplier, period), values)[k]
      invariant forall k :: 0 <= k < i ==> lower[k] == LineOf(Band(LowerBand, root, multiplier, period), values)[k]
      invariant forall k :: i <= k < |values| ==> upper[k] == None && lower[k] == None
    {
      BandAt(UpperBand, root, multiplier, period, values, i);
      BandAt(LowerBand, root, multiplier, period, values, i);
      var mid := middle[i];
      var dev := deviation.value[i];
      if mid.None? || dev.None? {
        continue;
      }
      upper[i] := Some(mid.value + Reach(multiplier, dev.value));
      lower[i] := Some(mid.value - Reach(multiplier, dev.value));
    }
    assert upper[..] == LineOf(Band(UpperBand, root, multiplier, period), values);
    assert lower[..] == LineOf(Band(LowerBand, root, multiplier, period), values);
    return Success(Bands(upper[..], middle, lower[..]));
  }

  /** With a root that never goes below zero, the bands straddle the mean, equally far on both sides. */
  lemma BandsStraddleTheMean(root: real -> real, multiplier: real, period: Period, prefix: Series)
    requires |prefix| >= period && multiplier >= 0.0 && forall x :: x >= 0.0 ==> root(x) >= 0.0
    ensures var upper, middle, lower :=
        BandOf(UpperBand, root, multiplier, period, prefix), MeanOf(period, prefix), BandOf(LowerBand, root, multiplier, period, prefix);
      && upper.Some? && middle.Some? && lower.Some?
      && lower.value <= middle.value <= upper.value
      && upper.value - middle.value == middle.value - lower.value
  {
    hide SumOf, VarianceOf;
    var dev := DeviationOf(root, period, prefix).value;
    assert dev >= 0.0;
    assert multiplier * dev >= 0.0;
  }

  /** A band lies as many deviations from the mean as the multiplier says, when the root is a square root. */
  lemma BandsReachTheirDeviations(side: BandSide, root: real -> real, multiplier: real, period: Period, prefix: Series)
    requires |prefix| >= period > 1 && forall x :: x >= 0.0 ==> root(x) * root(x) == x
    ensures var band, middle := BandOf(side, root, multiplier, period, prefix), MeanOf(period, prefix);
      && band.Some? && middle.Some?
      && var reach := if side.UpperBand? then band.value - middle.value else middle.value - band.value;
         && reach * reach == multiplier * multiplier * VarianceOf(period, Window(prefix, period))
         && (multiplier >= 0.0 && root(VarianceOf(period, Window(prefix, period))) >= 0.0 ==> reach >= 0.0)
  {
    hide SumOf, VarianceOf, Window;
    var dev := root(VarianceOf(period, Window(prefix, period)));
    assert DeviationOf(root, period, prefix) == Some(dev);
    assert (multiplier * dev) * (multiplier * dev) == multiplier * multiplier * (dev * dev);
    assert multiplier >= 0.0 && dev >= 0.0 ==> multiplier * dev >= 0.0;
  }

  // ----- Rate of change -----

  function ChangeOf(period: Period, prefix: Series): Option<real> {
    if |prefix| <= period then None
    else
      var past := prefix[|prefix| - 1 - period];
      if past == 0.0 then None else Some(prefix[|prefix| - 1] / past - 1.0)
  }

  function Change(period: Period): Series -> Option<real> {
    prefix => ChangeOf(period, prefix)
  }

  /** A change is what takes the past value to the present one. */
  lemma ChangeLeadsToThePresent(period: Period, prefix: Series)
    requires ChangeOf(period, prefix).Some?
    ensures |prefix| > period
    ensures prefix[|prefix| - 1 - period] * (1.0 + ChangeOf(period, prefix).value) == prefix[|prefix| - 1]
  {
    var past, last := prefix[|prefix| - 1 - period], prefix[|prefix| - 1];
    assert past * (last / past) == last;
  }

  method Roc(values: Series, period: int) returns (r: Result<Line, PeriodError>)
    ensures r == if period < 1 then Failure(NotPositive) else Success(LineOf(Change(period), values))
  {
    if period < 1 {
      return Failure(NotPositive);
    }
    var out := new Option<real>[|values|](_ => None);
    var i := period;
    while i < |values|
      invariant period <= i && (i <= |values| || i == period)
      invariant forall k :: 0 <= k < i && k < |values| ==> out[k] == ChangeOf(period, values[..k + 1])
      invariant forall k :: i <= k < |values| ==> out[k] == None
    {
      var past := values[i - period];
      if past != 0.0 {
        out[i] := Some(values[i] / past - 1.0);
      }
      i := i + 1;
    }
    assert out[..] == LineOf(Change(period), values);
    return Success(out[..]);
  }

  // ----- Channels -----

  datatype Edge = Highest | Lowest

  predicate Beats(edge: Edge, x: real, best: real) {
    if edge.Highest? then x > best else x < best
  }

  function Best(edge: Edge, s: Series): real
    requires s != []
  {
    if |s| == 1 then s[0]
    else
      var before := Best(edge, s[..|s| - 1]);
      if Beats(edge, s[|s| - 1], before) then s[|s| - 1] else before
  }

  function EdgeOf(edge: Edge, period: Period, prefix: Series): Option<real> {
    if |prefix| < period then None else Some(Best(edge, Window(prefix, period)))
  }

  function ChannelEdge(edge: Edge, period: Period): Series -> Option<real> {
    prefix => EdgeOf(edge, period, prefix)
  }

  /** The edge of a window is one of its values and nothing in the window beats it. */
  lemma {:induction false} BestIsBest(edge: Edge, s: Series)
    requires s != []
    ensures Best(edge, s) in s
    ensures forall i :: 0 <= i < |s| ==> !Beats(edge, s[i], Best(edge, s))
  {
    if |s| > 1 {
      var t := s[..|s| - 1];
      BestIsBest(edge, t);
      forall i | 0 <= i < |s|
        ensures !Beats(edge, s[i], Best(edge, s))
      {
        if i < |t| {
          assert t[i] == s[i];
        }
      }
    }
  }

  method Channel(edge: Edge, values: Series, period: int) returns (r: Result<Line, PeriodError>)
    ensures r == if period < 1 then Failure(NotPositive) else Success(LineOf(ChannelEdge(edge, period), values))
  {
    hide Best, Beats;
    if period < 1 {
      return Failure(NotPositive);
    }
    var out := new Option<real>[|values|](_ => None);
    var i := period - 1;
    while i < |values|
      invariant period - 1 <= i && (i <= |values| || i == period - 1)
      invariant forall k :: 0 <= k < i && k < |values| ==> out[k] == EdgeOf(edge, period, values[..k + 1])
      invariant forall k :: i <= k < |values| ==> out[k] == None
    {
      assert values[..i + 1][i + 1 - period..] == values[i + 1 - period..i + 1];
      var best := BestBetween(edge, values, i - period + 1, i);
      out[i] := Some(best);
      i := i + 1;
    }
    assert out[..] == LineOf(ChannelEdge(edge, period), values);
    return Success(out[..]);
  }

  /** Scans a window from its far end, starting from nothing. */
  method BestBetween(edge: Edge, values: Series, from: nat, to: nat) returns (best: real)
    requires from <= to < |values|
    ensures best == Best(edge, values[from..to + 1])
  {
    hide Beats;
    var found: Option<real> := None;
    for j := from to to + 1
      invariant j == from ==> found == None
      invariant j > from ==> found == Some(Best(edge, values[from..j]))
    {
      assert values[from..j + 1][..j - from] == values[from..j];
      if found.None? || Beats(edge, values[j], found.value) {
        found := Some(values[j]);
      }
    }
    best := found.value;
  }

  // ----- Convergence of averages -----

  function GapOf(fast: Period, slow: Period, prefix: Series): Option<real> {
    var f := SmoothedOf(Exponential, fast, prefix);
    var s := SmoothedOf(Exponential, slow, prefix);
    if f.None? || s.None? then None else Some(f.value - s.value)
  }

  function Gap(fast: Period, slow: Period): Series -> Option<real> {
    prefix => GapOf(fast, slow, prefix)
  }

  /** The defined values of a line, in order. */
  function Dense(line: Line): Series {
    if line == [] then []
    else Dense(line[..|line| - 1]) + (if line[|line| - 1].Some? then [line[|line| - 1].value] else [])
  }

  /** The signal is the average of the gaps so far. */
  function SignalOf(fast: Period, slow: Period, signal: Period, prefix: Series): Option<real> {
    SmoothedOf(Exponential, signal, Dense(LineOf(Gap(fast, slow), prefix)))
  }

  function SignalLine(fast: Period, slow: Period, signal: Period): Series -> Option<real> {
    prefix => SignalOf(fast, slow, signal, prefix)
  }

  function HistogramOf(fast: Period, slow: Period, signal: Period, prefix: Series): Option<real> {
    var g := GapOf(fast, slow, prefix);
    var s := SignalOf(fast, slow, signal, prefix);
    if g.None? || s.None? then None else Some(g.value - s.value)
  }

  function Histogram(fast: Period, slow: Period, signal: Period): Series -> Option<real> {
    prefix => HistogramOf(fast, slow, signal, prefix)
  }

  /** The slow average and the gap make the fast one; the signal and the histogram make the gap. */
  lemma ConvergenceAddsUp(fast: Period, slow: Period, signal: Period, prefix: Series)
    requires HistogramOf(fast, slow, signal, prefix).Some?
    ensures |prefix| >= fast && |prefix| >= slow && GapOf(fast, slow, prefix).Some? && SignalOf(fast, slow, signal, prefix).Some?
    ensures SmoothedOf(Exponential, slow, prefix).value + GapOf(fast, slow, prefix).value == SmoothedOf(Exponential, fast, prefix).value
    ensures SignalOf(fast, slow, signal, prefix).value + HistogramOf(fast, slow, signal, prefix).value == GapOf(fast, slow, prefix).value
  {
    hide SmoothedOf;
  }

  datatype Convergence = Convergence(macd: Line, signal: Line, histogram: Line)

  function ConvergenceOf(fast: Period, slow: Period, signal: Period, values: Series): Convergence {
    Convergence(LineOf(Gap(fast, slow), values), LineOf(SignalLine(fast, slow, signal), values),
                LineOf(Histogram(fast, slow, signal), values))
  }

  lemma {:induction false} DenseIsSlice(line: Line, first: nat)
    requires first <= |line|
    requires forall k :: 0 <= k < first ==> line[k].None?
    requires forall k :: first <= k < |line| ==> line[k].Some?
    ensures |Dense(line)| == |line| - first
    ensures forall k :: first <= k < |line| ==> Dense(line)[k - first] == line[k].value
  {
    if line != [] {
      var t := line[..|line| - 1];
      if first == |line| {
        DenseIsSlice(t, first - 1);
      } else {
        DenseIsSlice(t, first);
      }
    }
  }

  lemma DensePrefix(line: Line, first: nat, n: nat)
    requires first <= n <= |line|
    requires forall k :: 0 <= k < first ==> line[k].None?
    requires forall k :: first <= k < |line| ==> line[k].Some?
    ensures n - first <= |Dense(line)| && Dense(line[..n]) == Dense(line)[..n - first]
  {
    hide Dense;
    DenseIsSlice(line, first);
    DenseIsSlice(line[..n], first);
    assert |Dense(line[..n])| == n - first;
    forall k | 0 <= k < n - first
      ensures Dense(line[..n])[k] == Dense(line)[k]
    {
      assert line[..n][k + first] == line[k + first];
      assert Dense(line[..n])[k + first - first] == line[k + first].value;
      assert Dense(line)[k + first - first] == line[k + first].value;
    }
  }

  lemma LineOfPrefix(f: Series -> Option<real>, values: Series, n: nat)
    requires n <= |values|
    ensures LineOf(f, values[..n]) == LineOf(f, values)[..n]
  {
    forall i | 0 <= i < n
      ensures LineOf(f, values[..n])[i] == LineOf(f, values)[i]
    {
      assert values[..n][..i + 1] == values[..i + 1];
    }
  }

  lemma GapDefined(fast: Period, slow: Period, values: Series)
    requires fast < slow
    ensures forall k :: 0 <= k < |values| ==> (LineOf(Gap(fast, slow), values)[k].Some? <==> k >= slow - 1)
  {
    hide SmoothedOf, LineOf;
    forall k | 0 <= k < |values|
      ensures LineOf(Gap(fast, slow), values)[k].Some? <==> k >= slow - 1
    {
      LineAt(Gap(fast, slow), values, k);
    }
  }

  /** Averaging the defined stretch on its own and writing it back at its offset gives each index its own average. */
  lemma SignalAt(fast: Period, slow: Period, signal: Period, values: Series, k: nat)
    requires fast < slow && k < |values|
    ensures var line := LineOf(Gap(fast, slow), values);
      && |Dense(line)| == (if |values| >= slow then |values| - (slow - 1) else 0)
      && LineOf(SignalLine(fast, slow, signal), values)[k] ==
         if k < slow - 1 then None else LineOf(Smoothed(Exponential, signal), Dense(line))[k - (slow - 1)]
  {
    hide SmoothedOf, Dense, LineOf, GapOf;
    var f := Gap(fast, slow);
    var line := LineOf(f, values);
    var first := if |values| >= slow then slow - 1 else |values|;
    GapDefined(fast, slow, values);
    DenseIsSlice(line, first);
    LineAt(SignalLine(fast, slow, signal), values, k);
    LineOfPrefix(f, values, k + 1);
    if k < slow - 1 {
      DenseIsSlice(line[..k + 1], k + 1);
    } else {
      DensePrefix(line, first, k + 1);
      LineAt(Smoothed(Exponential, signal), Dense(line), k - first);
    }
  }

  lemma HistogramAt(fast: Period, slow: Period, signal: Period, values: Series, k: nat)
    requires k < |values|
    ensures var g, s := LineOf(Gap(fast, slow), values)[k], LineOf(SignalLine(fast, slow, signal), values)[k];
      LineOf(Histogram(fast, slow, signal), values)[k] == if g.None? || s.None? then None else Some(g.value - s.value)
  {
    hide GapOf, SignalOf, LineOf;
    LineAt(Gap(fast, slow), values, k);
    LineAt(SignalLine(fast, slow, signal), values, k);
    LineAt(Histogram(fast, slow, signal), values, k);
  }

  method Macd(values: Series, fastPeriod: int, slowPeriod: int, signalPeriod: int) returns (r: Result<Convergence, PeriodError>)
    ensures fastPeriod >= slowPeriod ==> r == Failure(FastNotShorter)
    ensures fastPeriod < slowPeriod && fastPeriod < 1 ==> r == Failure(NotPositive)
    ensures 1 <= fastPeriod < slowPeriod && signalPeriod < 1 ==> (r.Failure? <==> |values| >= slowPeriod)
    ensures 1 <= fastPeriod < slowPeriod && signalPeriod >= 1 ==>
      r == Success(ConvergenceOf(fastPeriod, slowPeriod, signalPeriod, values))
  {
    hide SmoothedOf, LineOf, GapOf, SignalOf, Dense;
    if fastPeriod >= slowPeriod {
      return Failure(FastNotShorter);
    }
    var fast :- Smooth(Exponential, values, fastPeriod);
    var slow := Smooth(Exponential, values, slowPeriod);
    var macdLine := GapLine(fastPeriod, slowPeriod, values, fast, slow.value);
    GapDefined(fastPeriod, slowPeriod, values);
    var firstDefined := FindDefined(macdLine);
    assert slowPeriod - 1 < |values| ==> macdLine[slowPeriod - 1].Some?;
    var nothing: Line := seq(|values|, _ => None);
    if firstDefined == |values| {
      if signalPeriod >= 1 {
        NoSignals(fastPeriod, slowPeriod, signalPeriod, values);
      }
      return Success(Convergence(macdLine, nothing, nothing));
    }
    assert firstDefined == slowPeriod - 1;
    var dense := seq(|values| - firstDefined, i requires 0 <= i < |values| - firstDefined => macdLine[firstDefined + i].value);
    DenseIsSlice(macdLine, firstDefined);
    assert dense == Dense(macdLine);
    var signalDense :- Smooth(Exponential, dense, signalPeriod);
    var signal, histogram := WriteBack(fastPeriod, slowPeriod, signalPeriod, values, macdLine, signalDense);
    return Success(Convergence(macdLine, signal, histogram));
  }

  lemma NoSignals(fast: Period, slow: Period, signal: Period, values: Series)
    requires fast < slow && |values| < slow
    ensures LineOf(SignalLine(fast, slow, signal), values) == seq(|values|, _ => None)
    ensures LineOf(Histogram(fast, slow, signal), values) == seq(|values|, _ => None)
  {
    hide SignalLine, Histogram, LineOf, Dense, Gap;
    forall k | 0 <= k < |values|
      ensures LineOf(SignalLine(fast, slow, signal), values)[k] == None
      ensures LineOf(Histogram(fast, slow, signal), values)[k] == None
    {
      SignalAt(fast, slow, signal, values, k);
      HistogramAt(fast, slow, signal, values, k);
    }
  }

  method GapLine(fastPeriod: Period, slowPeriod: Period, values: Series, fast: Line, slow: Line) returns (r: Line)
    requires fast == LineOf(Smoothed(Exponential, fastPeriod), values)
    requires slow == LineOf(Smoothed(Exponential, slowPeriod), values)
    ensures r == LineOf(Gap(fastPeriod, slowPeriod), values)
  {
    hide SmoothedOf, LineOf;
    var out := new Option<real>[|values|](_ => None);
    ghost var line := LineOf(Gap(fastPeriod, slowPeriod), values);
    for i := 0 to |values|
      invariant forall k :: 0 <= k < i ==> out[k] == line[k]
      invariant forall k :: i <= k < |values| ==> out[k] == None
    {
      LineAt(Smoothed(Exponential, fastPeriod), values, i);
      LineAt(Smoothed(Exponential, slowPeriod), values, i);
      LineAt(Gap(fastPeriod, slowPeriod), values, i);
      if fast[i].None? || slow[i].None? {
        continue;
      }
      out[i] := Some(fast[i].value - slow[i].value);
    }
    assert out[..] == line;
    r := out[..];
  }

  /** The first defined index, or the length when there is none. */
  method FindDefined(line: Line) returns (first: nat)
    ensures first <= |line| && (first < |line| ==> line[first].Some?)
    ensures forall k :: 0 <= k < first ==> line[k].None?
  {
    first := 0;
    while first < |line| && line[first].None?
      invariant first <= |line| && forall k :: 0 <= k < first ==> line[k].None?
    {
      first := first + 1;
    }
  }

  method WriteBack(fast: Period, slow: Period, signalPeriod: Period, values: Series, macdLine: Line, signalDense: Line)
    returns (signal: Line, histogram: Line)
    requires fast < slow <= |values| && macdLine == LineOf(Gap(fast, slow), values)
    requires signalDense == LineOf(Smoothed(Exponential, signalPeriod), Dense(macdLine))
    ensures signal == LineOf(SignalLine(fast, slow, signalPeriod), values)
    ensures histogram == LineOf(Histogram(fast, slow, signalPeriod), values)
  {
    hide SignalLine, Histogram, LineOf, Dense, Gap;
    var firstDefined := slow - 1;
    ghost var signals := LineOf(SignalLine(fast, slow, signalPeriod), values);
    ghost var histograms := LineOf(Histogram(fast, slow, signalPeriod), values);
    SignalAt(fast, slow, signalPeriod, values, 0);
    assert |signalDense| == |values| - firstDefined;
    forall k | 0 <= k < |values|
      ensures k < firstDefined ==> signals[k] == None && histograms[k] == None
      ensures k >= firstDefined ==> signals[k] == signalDense[k - firstDefined]
    {
      SignalAt(fast, slow, signalPeriod, values, k);
      HistogramAt(fast, slow, signalPeriod, values, k);
    }
    GapDefined(fast, slow, values);
    var out := new Option<real>[|values|](_ => None);
    var gaps := new Option<real>[|values|](_ => None);
    for i := 0 to |signalDense|
      invariant out.Length == gaps.Length == |values|
      invariant forall k :: 0 <= k < firstDefined + i ==> out[k] == signals[k] && gaps[k] == histograms[k]
      invariant forall k :: firstDefined + i <= k < |values| ==> out[k] == None && gaps[k] == None
    {
      var index := firstDefined + i;
      HistogramAt(fast, slow, signalPeriod, values, index);
      if signalDense[i].None? {
        continue;
      }
      var value := signalDense[i].value;
      out[index] := Some(value);
      gaps[index] := Some(macdLine[index].value - value);
    }
    assert out[..] == signals && gaps[..] == histograms;
    return out[..], gaps[..];
  }
}
