// Whole histories of the pipeline: how long a halt lasts, what it lets through, and the equity peak.
module PipelineRuns {
  import opened Money
  import opened Domain
  import opened Portfolios
  import opened Risk
  import opened RiskEngines
  import opened Pipelines
  import Sizing

  /**
   * What happens to a pipeline. What a call writes to the state store is an event of its own: it
   * lands after the call returned to the event loop, or never. `Snapshot` is the write of everything
   * captured, which comes after bars and fills and never after an approval.
   */
  datatype Event =
    | Bar(symbol: Symbol, candles: seq<Candle>, answers: Answers)
    | Approve(key: Key, now: Timestamp, marketOpen: bool, dataIsStale: bool)
    | Decline(key: Key)
    | SetMode(mode: Mode)
    | ModeStored(mode: Mode)
    | OperatorStop(at: Timestamp)
    | StopStored(at: Timestamp)
    | OperatorRelease
    | ReleaseStored
    | TradeClosed(pnl: int, at: Timestamp)
    | FillApplied(fill: Fill)
    | Acknowledged(at: Timestamp)
    | Snapshot
    | Restarted(rebuilt: Book)

  /** The pipeline, what the state store holds, and the equity a new process starts from. */
  datatype World = World(pipe: Pipe, storedStop: Option<Timestamp>, storedMode: Mode, saved: Option<Saved>, opening: Paise)

  /** A rebuilt book is a book. */
  ghost predicate Sane(e: Event) {
    e.Restarted? ==> e.rebuilt.Valid()
  }

  ghost predicate AllSane(events: seq<Event>) {
    forall e :: e in events ==> Sane(e)
  }

  /** A new process before anything is restored into it. */
  function Blank(w: World, rebuilt: Book): Pipe {
    Pipe(w.storedMode, [], w.opening, w.opening, None, NO_LOSSES, w.storedStop, rebuilt, [])
  }

  /** A new process: stored mode, stored stop, replayed book, and the last snapshot written. */
  function Rebooted(w: World, rebuilt: Book): Pipe
    requires rebuilt.Valid()
  {
    if w.saved.None? then Blank(w, rebuilt) else Restored(Blank(w, rebuilt), w.saved.value)
  }

  ghost function Step(cfg: Config, w: World, e: Event): World
    requires w.pipe.book.Valid() && Sane(e)
  {
    var p := w.pipe;
    match e
    case Bar(symbol, candles, answers) => w.(pipe := OnBar(cfg, p, symbol, candles, answers).0)
    case Approve(key, now, marketOpen, stale) => w.(pipe := OnApprove(cfg, p, key, now, marketOpen, stale).0)
    case Decline(key) => w.(pipe := p.(approvals := Drop(p.approvals, key)))
    case SetMode(mode) => w.(pipe := p.(mode := mode))
    case ModeStored(mode) => w.(storedMode := mode)
    case OperatorStop(at) => w.(pipe := p.(engagedAt := if p.engagedAt.Some? then p.engagedAt else Some(at)))
    case StopStored(at) => w.(storedStop := Some(at))
    case OperatorRelease => w.(pipe := p.(engagedAt := None))
    case ReleaseStored => w.(storedStop := None)
    case TradeClosed(pnl, at) =>
      w.(pipe := p.(streak := Recorded(cfg.limits.maxConsecutiveLosses, p.streak, pnl, at)))
    case FillApplied(fill) => w.(pipe := p.(book := Booked(p.book, fill)))
    case Acknowledged(at) => w.(pipe := p.(submissions := p.submissions + [at]))
    case Snapshot => w.(saved := Some(Captured(p)))
    case Restarted(rebuilt) => w.(pipe := Rebooted(w, rebuilt))
  }

  lemma StepKeepsBook(cfg: Config, w: World, e: Event)
    requires w.pipe.book.Valid() && Sane(e)
    ensures Step(cfg, w, e).pipe.book.Valid()
  {
    hide Breaches, Judged, BuildRequest, Settle, Total, Equity;
    match e
    case FillApplied(fill) =>
      if fill.quantity > 0 {
        FillMovesOnePosition(Cost, w.pipe.book, fill);
      }
    case _ =>
  }

  /** A new pipeline over a portfolio: its equity is the first peak. */
  function Begin(mode: Mode, book: Book): Pipe
    requires book.Valid()
  {
    Pipe(mode, [], Equity(book), Equity(book), None, NO_LOSSES, None, book, [])
  }

  ghost function Run(cfg: Config, mode: Mode, book: Book, events: seq<Event>): (w: World)
    requires book.Valid() && AllSane(events)
    ensures w.pipe.book.Valid()
  {
    if events == [] then World(Begin(mode, book), None, mode, None, Equity(book))
    else
      var before := Run(cfg, mode, book, events[..|events| - 1]);
      StepKeepsBook(cfg, before, events[|events| - 1]);
      Step(cfg, before, events[|events| - 1])
  }

  // ----- How long a halt lasts -----

  /** The bar at which the account breaches a loss limit. */
  ghost predicate BreachAt(cfg: Config, w: World, e: Event)
    requires w.pipe.book.Valid()
  {
    && e.Bar? && e.candles != []
    && Breaches(cfg.limits, AccountOf(Observed(cfg, w.pipe, e.symbol, e.candles[|e.candles| - 1]))) != []
  }

  /** A stop was written to the store and its release was not written since. */
  predicate StoredInForce(events: seq<Event>) {
    exists i :: 0 <= i < |events| && events[i].StopStored? && NoReleaseStored(events, i)
  }

  predicate NoReleaseStored(events: seq<Event>, i: nat) {
    forall j :: i < j < |events| ==> !events[j].ReleaseStored?
  }

  /** An operator's stop, a breach of a loss limit, or a restart that finds a stop in the store. */
  ghost predicate Causes(cfg: Config, mode: Mode, book: Book, before: seq<Event>, e: Event)
    requires book.Valid() && AllSane(before)
  {
    || e.OperatorStop?
    || BreachAt(cfg, Run(cfg, mode, book, before), e)
    || (e.Restarted? && StoredInForce(before))
  }

  /** Nobody released the switch since, and the process that engaged it is still running. */
  predicate Outstanding(events: seq<Event>, i: nat) {
    forall j :: i < j < |events| ==> !events[j].OperatorRelease? && !events[j].Restarted?
  }

  ghost predicate CausedAt(cfg: Config, mode: Mode, book: Book, events: seq<Event>, i: nat)
    requires book.Valid() && AllSane(events) && i < |events|
  {
    Causes(cfg, mode, book, events[..i], events[i])
  }

  ghost predicate StopInForce(cfg: Config, mode: Mode, book: Book, events: seq<Event>)
    requires book.Valid() && AllSane(events)
  {
    exists i :: 0 <= i < |events| && CausedAt(cfg, mode, book, events, i) && Outstanding(events, i)
  }

  /** How one step moves the switch and the stored stop. */
  lemma StepMovesSwitch(cfg: Config, w: World, e: Event)
    requires w.pipe.book.Valid() && Sane(e)
    ensures var next := Step(cfg, w, e);
      && (next.storedStop.Some? <==> e.StopStored? || (w.storedStop.Some? && !e.ReleaseStored?))
      && (next.pipe.engagedAt.Some? <==>
            if e.Restarted? then w.storedStop.Some?
            else e.OperatorStop? || BreachAt(cfg, w, e) || (w.pipe.engagedAt.Some? && !e.OperatorRelease?))
  {
    hide Breaches, Judged, BuildRequest, Settle, Equity, Observed, AccountOf;
  }

  lemma StoredSnoc(before: seq<Event>, e: Event)
    ensures StoredInForce(before + [e]) <==> e.StopStored? || (StoredInForce(before) && !e.ReleaseStored?)
  {
    var events := before + [e];
    assert forall j :: 0 <= j < |before| ==> events[j] == before[j];
    if StoredInForce(events) && !e.StopStored? {
      var i :| 0 <= i < |events| && events[i].StopStored? && NoReleaseStored(events, i);
      assert !events[|before|].ReleaseStored?;
      forall j | i < j < |before|
        ensures !before[j].ReleaseStored?
      {
        assert !events[j].ReleaseStored?;
      }
      assert NoReleaseStored(before, i);
    }
    if e.StopStored? {
      assert events[|before|].StopStored? && NoReleaseStored(events, |before|);
    } else if StoredInForce(before) && !e.ReleaseStored? {
      var i :| 0 <= i < |before| && before[i].StopStored? && NoReleaseStored(before, i);
      assert events[i].StopStored? && NoReleaseStored(events, i);
    }
  }

  lemma {:induction false} StoredStopIsExact(cfg: Config, mode: Mode, book: Book, events: seq<Event>)
    requires book.Valid() && AllSane(events)
    ensures Run(cfg, mode, book, events).storedStop.Some? <==> StoredInForce(events)
  {
    hide Step, StoredInForce;
    if events != [] {
      var before, last := events[..|events| - 1], events[|events| - 1];
      assert events == before + [last];
      StoredStopIsExact(cfg, mode, book, before);
      StepMovesSwitch(cfg, Run(cfg, mode, book, before), last);
      StoredSnoc(before, last);
    } else {
      NothingStored();
    }
  }

  lemma NothingStored()
    ensures !StoredInForce([])
  {
  }

  lemma OutstandingSnoc(before: seq<Event>, e: Event, i: nat)
    requires i < |before|
    ensures Outstanding(before + [e], i) <==> Outstanding(before, i) && !e.OperatorRelease? && !e.Restarted?
  {
    var events := before + [e];
    assert events[|before|] == e;
    assert forall j :: 0 <= j < |before| ==> events[j] == before[j];
    if Outstanding(events, i) {
      forall j | i < j < |before|
        ensures !before[j].OperatorRelease? && !before[j].Restarted?
      {
        assert !events[j].OperatorRelease? && !events[j].Restarted?;
      }
    }
  }

  lemma CausedAtSnoc(cfg: Config, mode: Mode, book: Book, before: seq<Event>, e: Event, i: nat)
    requires book.Valid() && AllSane(before + [e]) && AllSane(before) && i <= |before|
    ensures CausedAt(cfg, mode, book, before + [e], i) <==>
            if i < |before| then CausedAt(cfg, mode, book, before, i) else Causes(cfg, mode, book, before, e)
  {
    hide Run, Causes;
    var events := before + [e];
    if i < |before| {
      assert events[..i] == before[..i];
    } else {
      assert events[..i] == before;
    }
  }

  /** A stop in force after one more event was in force before it, or is caused by it. */
  lemma InForceSnoc(cfg: Config, mode: Mode, book: Book, before: seq<Event>, e: Event)
    requires book.Valid() && AllSane(before + [e]) && AllSane(before)
    ensures StopInForce(cfg, mode, book, before + [e]) <==>
            || Causes(cfg, mode, book, before, e)
            || (StopInForce(cfg, mode, book, before) && !e.OperatorRelease? && !e.Restarted?)
  {
    hide Outstanding, CausedAt, Causes, Run, AllSane;
    var events := before + [e];
    CausedAtSnoc(cfg, mode, book, before, e, |before|);
    LastIsOutstanding(events);
    if Causes(cfg, mode, book, before, e) {
      assert CausedAt(cfg, mode, book, events, |before|) && Outstanding(events, |before|);
    } else if StopInForce(cfg, mode, book, before) && !e.OperatorRelease? && !e.Restarted? {
      var i :| 0 <= i < |before| && CausedAt(cfg, mode, book, before, i) && Outstanding(before, i);
      CausedAtSnoc(cfg, mode, book, before, e, i);
      OutstandingSnoc(before, e, i);
      assert CausedAt(cfg, mode, book, events, i) && Outstanding(events, i);
    }
    if StopInForce(cfg, mode, book, events) && !Causes(cfg, mode, book, before, e) {
      var i :| 0 <= i < |events| && CausedAt(cfg, mode, book, events, i) && Outstanding(events, i);
      CausedAtSnoc(cfg, mode, book, before, e, i);
      OutstandingSnoc(before, e, i);
      assert CausedAt(cfg, mode, book, before, i) && Outstanding(before, i);
    }
  }

  lemma LastIsOutstanding(events: seq<Event>)
    requires events != []
    ensures Outstanding(events, |events| - 1)
  {
  }

  /**
   * After any history the switch is engaged exactly when some stop is outstanding in this process:
   * an operator's, a breach of a loss limit, or one the process found in the store when it started.
   */
  lemma {:induction false} HaltIsExact(cfg: Config, mode: Mode, book: Book, events: seq<Event>)
    requires book.Valid() && AllSane(events)
    ensures Run(cfg, mode, book, events).pipe.engagedAt.Some? <==> StopInForce(cfg, mode, book, events)
  {
    hide Step, StopInForce, StoredInForce, BreachAt;
    if events != [] {
      var before, last := events[..|events| - 1], events[|events| - 1];
      assert events == before + [last];
      HaltIsExact(cfg, mode, book, before);
      StoredStopIsExact(cfg, mode, book, before);
      StepMovesSwitch(cfg, Run(cfg, mode, book, before), last);
      BreachIsABar(cfg, Run(cfg, mode, book, before), last);
      InForceSnoc(cfg, mode, book, before, last);
    } else {
      NothingInForce(cfg, mode, book);
    }
  }

  lemma BreachIsABar(cfg: Config, w: World, e: Event)
    requires w.pipe.book.Valid()
    ensures BreachAt(cfg, w, e) ==> e.Bar?
  {
  }

  lemma NothingInForce(cfg: Config, mode: Mode, book: Book)
    requires book.Valid()
    ensures !StopInForce(cfg, mode, book, [])
  {
  }

  /** A restart comes up halted exactly when the store still holds an operator's stop. */
  lemma RestartsHaltedExactly(cfg: Config, mode: Mode, book: Book, events: seq<Event>, rebuilt: Book)
    requires book.Valid() && AllSane(events) && rebuilt.Valid()
    ensures AllSane(events + [Restarted(rebuilt)])
    ensures Run(cfg, mode, book, events + [Restarted(rebuilt)]).pipe.engagedAt.Some? <==> StoredInForce(events)
  {
    hide Step, StoredInForce;
    var restarted := events + [Restarted(rebuilt)];
    assert restarted[..|events|] == events;
    StepMovesSwitch(cfg, Run(cfg, mode, book, events), Restarted(rebuilt));
    StoredStopIsExact(cfg, mode, book, events);
  }
}
