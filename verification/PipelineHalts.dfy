// What halts a session, in money: the loss since the day's first equity, and the fall from the peak.
module PipelineHalts {
  import opened Money
  import opened Domain
  import opened Portfolios
  import opened Risk
  import opened RiskEngines
  import opened Pipelines
  import opened Histories = PipelineRuns
  import PipelineSafety

  // ----- One bar -----

  /** The day's first equity is kept while the day lasts, and is the equity before the first bar of another day. */
  lemma ObservedBaseline(cfg: Config, p: Pipe, symbol: Symbol, candle: Candle)
    requires p.book.Valid()
    ensures var q, today := Observed(cfg, p, symbol, candle), IstDay(candle.timestamp);
      && q.day == Some(today)
      && q.startOfDay == if p.day == Some(today) then p.startOfDay else Equity(p.book)
  {
    hide Equity, Mark, AccountOf, Breaches;
    MarkKeepsCost(p.book, symbol, candle.close);
  }

  lemma BreachIsALoss(cfg: Config, q: Pipe)
    requires q.book.Valid()
    ensures Breaches(cfg.limits, AccountOf(q)) != [] <==> LossHalts(cfg.limits, Equity(q.book), q.startOfDay, q.peak)
  {
    hide Equity, Breaches, MulRate, OpenPositions;
    BreachesInMoney(cfg.limits, AccountOf(q));
  }

  // ----- The day's first equity, from the events -----

  /** The day last begun, and the equity it began with. */
  datatype Baseline = Baseline(day: int, first: Paise)

  ghost predicate IsBarOf(e: Histories.Event, day: int) {
    e.Bar? && e.candles != [] && IstDay(e.candles[|e.candles| - 1].timestamp) == day
  }

  lemma PrefixIsSane(events: seq<Histories.Event>, n: nat)
    requires AllSane(events) && n <= |events|
    ensures AllSane(events[..n])
  {
    assert forall e :: e in events[..n] ==> e in events;
  }

  /**
   * A day begins with its first bar, at the equity the account had before it. A restart goes back to
   * the day of the last snapshot, or to none.
   */
  ghost function BaselineOf(cfg: Config, mode: Mode, book: Book, events: seq<Histories.Event>): Option<Baseline>
    requires book.Valid() && AllSane(events)
    decreases |events|
  {
    if events == [] then None
    else
      var n := |events| - 1;
      PrefixIsSane(events, n);
      var before, e := BaselineOf(cfg, mode, book, events[..n]), events[n];
      if e.Bar? && e.candles != [] then
        var day := IstDay(e.candles[|e.candles| - 1].timestamp);
        if before.Some? && before.value.day == day then before
        else Some(Baseline(day, Equity(Run(cfg, mode, book, events[..n]).pipe.book)))
      else if e.Restarted? then
        var j := PipelineSafety.LastSnapshot(events[..n]);
        if j.None? then None
        else
          PrefixIsSane(events, j.value);
          BaselineOf(cfg, mode, book, events[..j.value])
      else before
  }

  /** What a pipeline remembers of its day. */
  predicate Remembers(p: Pipe, baseline: Option<Baseline>) {
    match baseline
    case None => p.day.None?
    case Some(b) => p.day == Some(b.day) && p.startOfDay == b.first
  }

  predicate RemembersSaved(s: Saved, baseline: Option<Baseline>) {
    match baseline
    case None => s.day.None?
    case Some(b) => s.day == Some(b.day) && s.startOfDay == b.first
  }

  lemma DecidingKeepsDay(cfg: Config, p: Pipe, symbol: Symbol, signal: Signal, now: Timestamp, marketOpen: bool, stale: bool)
    requires p.book.Valid()
    ensures var q := Decided(cfg, p, symbol, signal, now, marketOpen, stale).0; q.day == p.day && q.startOfDay == p.startOfDay
  {
    hide BuildRequest, Judged, Put;
  }

  lemma BarMovesDay(cfg: Config, p: Pipe, symbol: Symbol, candles: seq<Candle>, answers: Answers)
    requires p.book.Valid()
    ensures var q := OnBar(cfg, p, symbol, candles, answers).0;
      && (candles == [] ==> q == p)
      && (candles != [] ==>
            var today := IstDay(candles[|candles| - 1].timestamp);
            q.day == Some(today) && q.startOfDay == if p.day == Some(today) then p.startOfDay else Equity(p.book))
  {
    hide Observed, Decided, Equity;
    if candles != [] {
      var candle := candles[|candles| - 1];
      ObservedBaseline(cfg, p, symbol, candle);
      if answers.signal.Some? {
        DecidingKeepsDay(cfg, Observed(cfg, p, symbol, candle), symbol, answers.signal.value, candle.timestamp,
            answers.marketOpen, answers.dataIsStale);
      }
    }
  }

  lemma StepMovesDay(cfg: Config, w: World, e: Histories.Event)
    requires w.pipe.book.Valid() && Sane(e) && !e.Bar? && !e.Restarted?
    ensures Step(cfg, w, e).pipe.day == w.pipe.day && Step(cfg, w, e).pipe.startOfDay == w.pipe.startOfDay
  {
    hide Judged, Booked, Recorded, Drop, Find;
  }

  lemma RebootMovesDay(w: World, rebuilt: Book)
    requires rebuilt.Valid()
    ensures var p := Rebooted(w, rebuilt);
      && (w.saved.None? ==> p.day.None?)
      && (w.saved.Some? ==> p.day == w.saved.value.day && p.startOfDay == w.saved.value.startOfDay)
  {
    hide Equity, PutAll;
  }

  /** After any history the pipeline's day and first equity are those the events say. */
  lemma {:induction false} DayIsRemembered(cfg: Config, mode: Mode, book: Book, events: seq<Histories.Event>)
    requires book.Valid() && AllSane(events)
    ensures Remembers(Run(cfg, mode, book, events).pipe, BaselineOf(cfg, mode, book, events))
    decreases |events|
  {
    hide Step, Equity, OnBar, Rebooted;
    if events != [] {
      var n := |events| - 1;
      PrefixIsSane(events, n);
      var w, e := Run(cfg, mode, book, events[..n]), events[n];
      assert e in events;
      DayIsRemembered(cfg, mode, book, events[..n]);
      if e.Bar? {
        BarMovesDay(cfg, w.pipe, e.symbol, e.candles, e.answers);
        StepIsBar(cfg, w, e);
      } else if e.Restarted? {
        RestartRemembers(cfg, mode, book, events);
      } else {
        StepMovesDay(cfg, w, e);
      }
    } else {
      NoDayYet(cfg, mode, book);
    }
  }

  lemma StepIsBar(cfg: Config, w: World, e: Histories.Event)
    requires w.pipe.book.Valid() && e.Bar?
    ensures Step(cfg, w, e).pipe == OnBar(cfg, w.pipe, e.symbol, e.candles, e.answers).0
  {
  }

  lemma StepIsReboot(cfg: Config, w: World, e: Histories.Event)
    requires w.pipe.book.Valid() && e.Restarted? && Sane(e)
    ensures Step(cfg, w, e).pipe == Rebooted(w, e.rebuilt)
  {
  }

  lemma NoDayYet(cfg: Config, mode: Mode, book: Book)
    requires book.Valid()
    ensures Remembers(Run(cfg, mode, book, []).pipe, BaselineOf(cfg, mode, book, []))
  {
  }

  lemma RestartRemembers(cfg: Config, mode: Mode, book: Book, events: seq<Histories.Event>)
    requires book.Valid() && AllSane(events) && events != [] && events[|events| - 1].Restarted?
    ensures Remembers(Run(cfg, mode, book, events).pipe, BaselineOf(cfg, mode, book, events))
    decreases |events|, 0
  {
    hide Step, Equity, Rebooted;
    var n := |events| - 1;
    PrefixIsSane(events, n);
    var w, e := Run(cfg, mode, book, events[..n]), events[n];
    assert e in events;
    StepIsReboot(cfg, w, e);
    RebootMovesDay(w, e.rebuilt);
    PipelineSafety.OnFileIsTheLastSnapshot(cfg, mode, book, events[..n]);
    var j := PipelineSafety.LastSnapshot(events[..n]);
    if j.Some? {
      PrefixIsSane(events, j.value);
      assert events[..n][..j.value] == events[..j.value];
      DayIsRemembered(cfg, mode, book, events[..j.value]);
    }
  }

  // ----- Halts over whole histories -----

  /** The equity the day of a bar began with. */
  ghost function FirstOfDay(cfg: Config, mode: Mode, book: Book, events: seq<Histories.Event>, day: int): Paise
    requires book.Valid() && AllSane(events)
  {
    var baseline := BaselineOf(cfg, mode, book, events);
    if baseline.Some? && baseline.value.day == day then baseline.value.first
    else Equity(Run(cfg, mode, book, events).pipe.book)
  }

  /** A bar, the account it is marked to, and the limits it meets. */
  ghost predicate HaltsAt(cfg: Config, mode: Mode, book: Book, events: seq<Histories.Event>, symbol: Symbol, candle: Candle)
    requires book.Valid() && AllSane(events)
  {
    var p := Run(cfg, mode, book, events).pipe;
    var marked := Mark(p.book, symbol, candle.close);
    && marked.Valid()
    && LossHalts(cfg.limits, Equity(marked), FirstOfDay(cfg, mode, book, events, IstDay(candle.timestamp)), Max(p.peak,
        Equity(marked)))
  }

  /**
   * In any history, a bar finds a limit breached exactly when the equity it is marked to has fallen
   * the daily limit or more below the equity its day began with, or the drawdown limit or more below
   * the highest equity. Then, and only then, it engages a switch that was released.
   */
  lemma BarHaltsExactly(cfg: Config, mode: Mode, book: Book, events: seq<Histories.Event>, symbol: Symbol,
        candles: seq<Candle>, answers: Answers)
    requires book.Valid() && AllSane(events) && candles != []
    ensures var bar, candle := Bar(symbol, candles, answers), candles[|candles| - 1];
      var w := Run(cfg, mode, book, events);
      && (BreachAt(cfg, w, bar) <==> HaltsAt(cfg, mode, book, events, symbol, candle))
      && AllSane(events + [bar])
      && (Run(cfg, mode, book, events + [bar]).pipe.engagedAt.Some? <==>
            w.pipe.engagedAt.Some? || HaltsAt(cfg, mode, book, events, symbol, candle))
  {
    hide Step, Run, Equity, Mark, Observed, LossHalts, Breaches, AccountOf, BaselineOf;
    var bar, candle := Bar(symbol, candles, answers), candles[|candles| - 1];
    var w := Run(cfg, mode, book, events);
    DayIsRemembered(cfg, mode, book, events);
    ObservedBaseline(cfg, w.pipe, symbol, candle);
    BreachIsALoss(cfg, Observed(cfg, w.pipe, symbol, candle));
    PipelineSafety.RunOneMore(cfg, mode, book, events, bar);
    StepMovesSwitch(cfg, w, bar);
  }

  /** A day turns at half past six in the evening of universal time, which is midnight in India. */
  lemma DayTurnsAtIndianMidnight(now: Timestamp)
    ensures IstDay(now) != IstDay(now - 1) <==> now % 86_400_000 == 66_600_000
    ensures IstDay(now) - IstDay(now - 1) <= 1
  {
  }

  /** Below the day's first equity by exactly the limit, and the peak far enough: the session halts. */
  lemma DayLossHalts(limits: Limits)
    requires limits.dailyLossLimitFraction == 0.02 && limits.maxDrawdownFraction == 0.15
    ensures LossHalts(limits, 978500, 1000000, 1100000) && !LossHalts(limits, 980500, 1000000, 1100000)
  {
    hide MulRate;
    assert MulRate(1000000, 0.02) == 20000;
  }
}
