// What the strategies share: the fields they read, and why reading a prepared line looks only backwards.
module Strategies {
  import opened Money
  import opened Domain
  import opened Indicators

  function Closes(candles: seq<Candle>): (s: Series)
    ensures |s| == |candles|
  {
    seq(|candles|, i requires 0 <= i < |candles| => candles[i].close as real)
  }

  function Highs(candles: seq<Candle>): (s: Series)
    ensures |s| == |candles|
  {
    seq(|candles|, i requires 0 <= i < |candles| => candles[i].high as real)
  }

  function Lows(candles: seq<Candle>): (s: Series)
    ensures |s| == |candles|
  {
    seq(|candles|, i requires 0 <= i < |candles| => candles[i].low as real)
  }

  function AtrLine(period: Period, candles: seq<Candle>): Line {
    LineOf(Smoothed(Wilder, period), TrueRanges(Highs(candles), Lows(candles), Closes(candles)))
  }

  /** Reading outside a line gives nothing, exactly as reading the warm-up region does. */
  function At(line: Line, i: int): Option<real> {
    if 0 <= i < |line| then line[i] else None
  }

  function DirectionOf(position: Option<Position>): Direction {
    if position.None? || position.value.quantity == 0 then FLAT
    else if position.value.quantity > 0 then LONG
    else SHORT
  }

  /** A signal's strength is kept within [0, 1]. */
  function Clamped(strength: real): (r: real)
    ensures 0.0 <= r <= 1.0
  {
    RealMin(1.0, RealMax(0.0, strength))
  }

  function SignalFor(id: string, c: Candle, symbol: Symbol, direction: Direction, strength: real, stop: Option<Paise>): Signal {
    Signal(symbol, id, direction, Clamped(strength), c.timestamp, c.close, stop)
  }

  // ----- Prefix stability of what strategies read -----

  lemma FieldsArePrefixStable(a: seq<Candle>, b: seq<Candle>, n: nat)
    requires Agree(a, b, n)
    ensures Agree(Closes(a), Closes(b), n) && Agree(Highs(a), Highs(b), n) && Agree(Lows(a), Lows(b), n)
  {
    forall i | 0 <= i < n
      ensures a[i] == b[i]
    {
      assert a[..n][i] == a[i] && b[..n][i] == b[i];
    }
  }

  lemma AgreeAt<T>(a: seq<T>, b: seq<T>, n: nat, i: nat)
    requires Agree(a, b, n) && i < n
    ensures a[i] == b[i]
  {
    assert a[..n][i] == a[i] && b[..n][i] == b[i];
  }

  lemma ReadsArePrefixStable(a: Line, b: Line, n: nat, i: int)
    requires Agree(a, b, n) && i < n
    ensures At(a, i) == At(b, i)
  {
    if i >= 0 {
      AgreeAt(a, b, n, i);
    }
  }

  lemma TrueRangesArePrefixStable(a: seq<Candle>, b: seq<Candle>, n: nat)
    requires Agree(a, b, n)
    ensures Agree(TrueRanges(Highs(a), Lows(a), Closes(a)), TrueRanges(Highs(b), Lows(b), Closes(b)), n)
  {
    hide TrueRangeAt;
    var x, y := TrueRanges(Highs(a), Lows(a), Closes(a)), TrueRanges(Highs(b), Lows(b), Closes(b));
    forall i | 0 <= i < n
      ensures x[i] == y[i]
    {
      TrueRangeLooksBack(a, b, n, i);
    }
  }

  lemma TrueRangeLooksBack(a: seq<Candle>, b: seq<Candle>, n: nat, i: nat)
    requires Agree(a, b, n) && i < n
    ensures TrueRangeAt(Highs(a), Lows(a), Closes(a), i) == TrueRangeAt(Highs(b), Lows(b), Closes(b), i)
  {
    AgreeAt(a, b, n, i);
    if i > 0 {
      AgreeAt(a, b, n, i - 1);
    }
  }

  lemma AtrIsPrefixStable(period: Period, a: seq<Candle>, b: seq<Candle>, n: nat)
    requires Agree(a, b, n)
    ensures Agree(AtrLine(period, a), AtrLine(period, b), n)
  {
    TrueRangesArePrefixStable(a, b, n);
    LinesArePrefixStable(Smoothed(Wilder, period), TrueRanges(Highs(a), Lows(a), Closes(a)),
                         TrueRanges(Highs(b), Lows(b), Closes(b)), n);
  }

  method ReadFields(candles: seq<Candle>) returns (close: Series, high: Series, low: Series)
    ensures close == Closes(candles) && high == Highs(candles) && low == Lows(candles)
  {
    close, high, low := [], [], [];
    for i := 0 to |candles|
      invariant |close| == |high| == |low| == i
      invariant forall k :: 0 <= k < i ==>
        close[k] == candles[k].close as real && high[k] == candles[k].high as real && low[k] == candles[k].low as real
    {
      close, high, low :=
        close + [candles[i].close as real], high + [candles[i].high as real], low + [candles[i].low as real];
    }
  }
}
