// Flushing in mid-stream: a bar may come out in pieces, and resampling puts the pieces together.
module OhlcFlushes {
  import opened Money
  import opened Domain
  import opened Ohlc

  datatype Input = Pushing(tick: Tick) | Flushing

  /** The aggregator, the bars it handed out, the ticks it took, and how often it split a bar. */
  datatype Session = Session(agg: Agg, emitted: seq<Candle>, taken: seq<Tick>, splits: nat)
  {
    function AsFold(): Fold {
      Fold(emitted, agg.bar)
    }
  }

  /** After a flush, a tick of the bucket that was flushed opens a second bar for it. */
  predicate Splits(s: Session, tick: Tick) {
    && s.agg.bar.None? && s.emitted != []
    && BucketStart(tick.timestamp, s.agg.interval) <= s.emitted[|s.emitted| - 1].timestamp
  }

  function Next(s: Session, input: Input): Session {
    match input
    case Flushing => s.(agg := s.agg.(bar := None), emitted := s.AsFold().Closed())
    case Pushing(tick) =>
      var (a, r) := Pushed(s.agg, tick);
      if r.Failure? then s
      else
        Session(a, if r.value.Some? then s.emitted + [r.value.value] else s.emitted, s.taken + [tick],
                s.splits + if Splits(s, tick) then 1 else 0)
  }

  function Played(symbol: Symbol, interval: Interval, inputs: seq<Input>): Session {
    if inputs == [] then Session(Agg(symbol, interval, None, None), [], [], 0)
    else Next(Played(symbol, interval, inputs[..|inputs| - 1]), inputs[|inputs| - 1])
  }

  /** Every bar of a session, the one still open included. */
  function SessionBars(symbol: Symbol, interval: Interval, inputs: seq<Input>): seq<Candle> {
    Played(symbol, interval, inputs).AsFold().Closed()
  }

  function TicksOf(inputs: seq<Input>): seq<Tick> {
    if inputs == [] then []
    else
      var before, last := TicksOf(inputs[..|inputs| - 1]), inputs[|inputs| - 1];
      if last.Pushing? then before + [last.tick] else before
  }

  /** A tick that is taken goes into the fold of the bars so far. */
  lemma TakenIsFed(s: Session, tick: Tick)
    requires Refusal(s.agg, tick).None?
    ensures Next(s, Pushing(tick)).AsFold() == Feed(s.AsFold(), Atom(tick, s.agg.interval), s.agg.interval)
    ensures Next(s, Pushing(tick)).taken == s.taken + [tick]
    ensures Next(s, Pushing(tick)).agg.lastTimestamp == Some(tick.timestamp)
  {
    hide Feed, Splits;
    FeedSplits(s.emitted, s.agg.bar, Atom(tick, s.agg.interval), s.agg.interval);
    var out := Feed(Fold([], s.agg.bar), Atom(tick, s.agg.interval), s.agg.interval).out;
    assert out != [] ==> out == [out[0]];
    assert s.emitted + [] == s.emitted;
  }

  /** A flush changes neither which ticks are taken nor the bars there are. */
  lemma FlushKeepsBars(s: Session)
    ensures Next(s, Flushing).AsFold().Closed() == s.AsFold().Closed()
    ensures Next(s, Flushing).taken == s.taken && Next(s, Flushing).splits == s.splits
    ensures Next(s, Flushing).agg == s.agg.(bar := None)
  {
  }

  lemma {:induction false} FlushesRefuseNothing(symbol: Symbol, interval: Interval, inputs: seq<Input>)
    ensures var s, plain := Played(symbol, interval, inputs), PushAll(symbol, interval, TicksOf(inputs));
      && s.taken == plain.taken && s.agg.lastTimestamp == plain.agg.lastTimestamp
      && s.agg.symbol == plain.agg.symbol == symbol && s.agg.interval == interval
  {
    hide Feed, Splits;
    if inputs != [] {
      var before, last := inputs[..|inputs| - 1], inputs[|inputs| - 1];
      FlushesRefuseNothing(symbol, interval, before);
      if last.Pushing? {
        assert (TicksOf(before) + [last.tick])[..|TicksOf(before)|] == TicksOf(before);
      }
    }
  }

  // ----- Resampling heals -----

  lemma {:induction false} PiecesResample(symbol: Symbol, fine: Interval, inputs: seq<Input>, coarse: Interval)
    requires Nests(fine, coarse)
    ensures FeedAll(SessionBars(symbol, fine, inputs), coarse) == FeedAll(Atoms(Played(symbol, fine, inputs).taken, fine), coarse)
  {
    hide Feed, Next, FeedAll;
    if inputs == [] {
      assert SessionBars(symbol, fine, inputs) == [];
    } else {
      var before, last := inputs[..|inputs| - 1], inputs[|inputs| - 1];
      var s := Played(symbol, fine, before);
      PiecesResample(symbol, fine, before, coarse);
      FlushesRefuseNothing(symbol, fine, before);
      if last.Flushing? {
        FlushKeepsBars(s);
      } else if Refusal(s.agg, last.tick).None? {
        TakenIsFed(s, last.tick);
        var atom := Atom(last.tick, fine);
        ResampleOneMore(s.AsFold(), FeedAll(Atoms(s.taken, fine), coarse), atom, fine, coarse);
        AtomsSnoc(s.taken, last.tick, fine);
        FeedAllSnoc(Atoms(s.taken, fine), atom, coarse);
      } else {
        RefusedChangesNothing(s, last.tick);
      }
    }
  }

  lemma AtomsSnoc(ticks: seq<Tick>, tick: Tick, interval: Interval)
    ensures Atoms(ticks + [tick], interval) == Atoms(ticks, interval) + [Atom(tick, interval)]
  {
    assert (ticks + [tick])[..|ticks|] == ticks;
  }

  lemma RefusedChangesNothing(s: Session, tick: Tick)
    requires Refusal(s.agg, tick).Some?
    ensures Next(s, Pushing(tick)) == s
  {
  }

  lemma FedCarriesInterval(f: Fold, c: Candle, interval: Interval)
    requires forall b :: b in f.Closed() ==> b.interval == interval
    ensures forall b :: b in Feed(f, c, interval).Closed() ==> b.interval == interval
  {
    hide BucketStart;
    assert f.current.Some? ==> f.current.value in f.Closed();
    assert forall b :: b in f.out ==> b in f.Closed();
  }

  lemma {:induction false} PiecesCarryTheirInterval(symbol: Symbol, interval: Interval, inputs: seq<Input>)
    ensures forall b :: b in SessionBars(symbol, interval, inputs) ==> b.interval == interval
  {
    hide Feed, Next;
    if inputs != [] {
      var before, last := inputs[..|inputs| - 1], inputs[|inputs| - 1];
      var s := Played(symbol, interval, before);
      PiecesCarryTheirInterval(symbol, interval, before);
      FlushesRefuseNothing(symbol, interval, before);
      if last.Flushing? {
        FlushKeepsBars(s);
      } else if Refusal(s.agg, last.tick).None? {
        TakenIsFed(s, last.tick);
        FedCarriesInterval(s.AsFold(), Atom(last.tick, interval), interval);
      } else {
        RefusedChangesNothing(s, last.tick);
      }
    }
  }

  /**
   * Wherever a stream is flushed, resampling its bars gives what aggregating the same ticks coarsely,
   * without a flush, gives. Resampling to the interval itself joins the pieces of every split bar.
   */
  lemma ResamplingHealsFlushes(symbol: Symbol, inputs: seq<Input>, fine: Interval, coarse: Interval)
    requires Nests(fine, coarse)
    ensures Resample(SessionBars(symbol, fine, inputs), coarse) == Success(Bars(symbol, coarse, TicksOf(inputs)))
  {
    hide Played, PushAll, FeedAll, Feed, Atoms, SessionBars;
    var bars, ticks := SessionBars(symbol, fine, inputs), TicksOf(inputs);
    var taken := PushAll(symbol, fine, ticks).taken;
    FlushesRefuseNothing(symbol, fine, inputs);
    PiecesResample(symbol, fine, inputs, coarse);
    RefusalsIgnoreInterval(symbol, fine, coarse, ticks);
    FoldIgnoresIntervals(taken, fine, coarse, coarse);
    StreamIsAFold(symbol, coarse, ticks);
    PiecesCarryTheirInterval(symbol, fine, inputs);
    assert bars != [] ==> bars[0] in bars;
    ResampleFailsExactly(bars, coarse);
    NothingInNothingOut(coarse);
    assert Bars(symbol, coarse, ticks) == FeedAll(bars, coarse).Closed();
  }

  // ----- When a flush splits a bar -----

  /** The session's bars against those without a flush; the last bar of both is the bucket of the last tick. */
  ghost predicate Compared(s: Session, whole: Fold) {
    var pieces, bars := s.AsFold().Closed(), whole.Closed();
    && |pieces| == |bars| + s.splits
    && (s.splits == 0 ==> pieces == bars)
    && (pieces != [] <==> whole.current.Some?)
    && (whole.current.None? ==> bars == [])
    && (pieces != [] ==>
          && s.agg.lastTimestamp.Some?
          && pieces[|pieces| - 1].timestamp == whole.current.value.timestamp == BucketStart(s.agg.lastTimestamp.value, s.agg.interval))
  }

  lemma ComparedNext(s: Session, whole: Fold, tick: Tick)
    requires Compared(s, whole) && Refusal(s.agg, tick).None?
    ensures Compared(Next(s, Pushing(tick)), Feed(whole, Atom(tick, s.agg.interval), s.agg.interval))
  {
    TakenIsFed(s, tick);
    CountsSplit(s, tick);
    hide Next, BucketStart;
    if s.AsFold().Closed() != [] {
      BucketsAreOrdered(s.agg.lastTimestamp.value, tick.timestamp, s.agg.interval);
    }
  }

  lemma CountsSplit(s: Session, tick: Tick)
    requires Refusal(s.agg, tick).None?
    ensures Next(s, Pushing(tick)).splits == s.splits + if Splits(s, tick) then 1 else 0
    ensures Next(s, Pushing(tick)).agg.interval == s.agg.interval
  {
    hide Feed, Splits;
  }

  lemma {:induction false} SplitsAreCounted(symbol: Symbol, interval: Interval, inputs: seq<Input>)
    ensures Compared(Played(symbol, interval, inputs), FeedAll(Atoms(Played(symbol, interval, inputs).taken, interval), interval))
  {
    hide Feed, Next, Compared;
    if inputs == [] {
      NothingCompared(symbol, interval);
    } else {
      var before, last := inputs[..|inputs| - 1], inputs[|inputs| - 1];
      var s := Played(symbol, interval, before);
      SplitsAreCounted(symbol, interval, before);
      FlushesRefuseNothing(symbol, interval, before);
      if last.Flushing? {
        FlushKeepsBars(s);
        FlushCompares(s, FeedAll(Atoms(s.taken, interval), interval));
      } else if Refusal(s.agg, last.tick).None? {
        TakenIsFed(s, last.tick);
        ComparedNext(s, FeedAll(Atoms(s.taken, interval), interval), last.tick);
        AtomsSnoc(s.taken, last.tick, interval);
        FeedAllSnoc(Atoms(s.taken, interval), Atom(last.tick, interval), interval);
      } else {
        RefusedChangesNothing(s, last.tick);
      }
    }
  }

  lemma FlushCompares(s: Session, whole: Fold)
    requires Compared(s, whole)
    ensures Compared(Next(s, Flushing), whole)
  {
    FlushKeepsBars(s);
    hide Next;
  }

  lemma NothingCompared(symbol: Symbol, interval: Interval)
    ensures Compared(Played(symbol, interval, []), FeedAll(Atoms([], interval), interval))
  {
  }

  /**
   * A session has one more bar than the unflushed stream for every tick that came after a flush in the
   * bucket flushed, and so has the same bars exactly when there was none.
   */
  lemma FlushesSplitExactly(symbol: Symbol, interval: Interval, inputs: seq<Input>)
    ensures var pieces, bars := SessionBars(symbol, interval, inputs), Bars(symbol, interval, TicksOf(inputs));
      && |pieces| == |bars| + Played(symbol, interval, inputs).splits
      && (pieces == bars <==> Played(symbol, interval, inputs).splits == 0)
  {
    hide Played, PushAll, FeedAll, Atoms;
    SplitsAreCounted(symbol, interval, inputs);
    FlushesRefuseNothing(symbol, interval, inputs);
    StreamIsAFold(symbol, interval, TicksOf(inputs));
  }

  /** Two ticks of one bucket around a flush make two bars of one start. */
  lemma FlushSplitsABar(symbol: Symbol, interval: Interval, first: Tick, second: Tick)
    requires first.symbol == symbol == second.symbol && first.timestamp <= second.timestamp
    requires BucketStart(first.timestamp, interval) == BucketStart(second.timestamp, interval)
    ensures var pieces := SessionBars(symbol, interval, [Pushing(first), Flushing, Pushing(second)]);
      && |pieces| == 2 && pieces[0].timestamp == pieces[1].timestamp
      && |Bars(symbol, interval, [first, second])| == 1
  {
    hide BucketStart, Next, PushAll;
    var one := [Pushing(first)];
    var two := one + [Flushing];
    var three := two + [Pushing(second)];
    assert three == [Pushing(first), Flushing, Pushing(second)];
    assert three[..2] == two && two[..1] == one && one[..0] == [];
    var s0 := Played(symbol, interval, []);
    var s1, s2 := Next(s0, Pushing(first)), Next(Next(s0, Pushing(first)), Flushing);
    assert Played(symbol, interval, one) == s1;
    assert Played(symbol, interval, two) == s2;
    assert Played(symbol, interval, three) == Next(s2, Pushing(second));
    FedOnce(s0, first);
    FlushKeepsBars(s1);
    FedOnce(s2, second);
    CountsSplit(s0, first);
    CountsSplit(s2, second);
    FlushesSplitExactly(symbol, interval, three);
    TwoTicks(first, second);
  }

  lemma FedOnce(s: Session, tick: Tick)
    requires Refusal(s.agg, tick).None? && s.agg.bar.None?
    ensures var t := Next(s, Pushing(tick));
      && t.AsFold().Closed() == s.AsFold().Closed() + [Opened(Atom(tick, s.agg.interval), s.agg.interval)]
      && t.agg == s.agg.(bar := Some(Opened(Atom(tick, s.agg.interval), s.agg.interval)), lastTimestamp := Some(tick.timestamp))
  {
    hide BucketStart;
    TakenIsFed(s, tick);
  }

  lemma TwoTicks(first: Tick, second: Tick)
    ensures TicksOf([Pushing(first), Flushing, Pushing(second)]) == [first, second]
  {
    var inputs := [Pushing(first), Flushing, Pushing(second)];
    assert inputs[..2] == [Pushing(first), Flushing] && inputs[..2][..1] == [Pushing(first)] && inputs[..1][..0] == [];
    assert TicksOf([Pushing(first)]) == [first];
    assert TicksOf([Pushing(first), Flushing]) == [first];
  }
}
