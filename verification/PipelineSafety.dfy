// What the pipeline can send: reductions only while halted, exits always, entries within the risk budget.
module PipelineSafety {
  import opened Money
  import opened Domain
  import opened Portfolios
  import opened Risk
  import opened RiskEngines
  import opened Pipelines
  import opened Histories = PipelineRuns
  import Sizing

  ghost function OutcomeOf(cfg: Config, w: World, e: Histories.Event): Outcome
    requires w.pipe.book.Valid()
  {
    match e
    case Bar(symbol, candles, answers) => OnBar(cfg, w.pipe, symbol, candles, answers).1
    case Approve(key, now, marketOpen, stale) => OnApprove(cfg, w.pipe, key, now, marketOpen, stale).1
    case _ => NoSignal
  }

  lemma AccountHolds(p: Pipe, symbol: Symbol)
    requires p.book.Valid()
    ensures Held(symbol, AccountOf(p).positions) == p.book.Quantity(symbol)
  {
    hide Equity, OpenPositions;
    HeldInBook(p.book.symbols, p.book.positions, symbol);
  }

  lemma MarkKeepsQuantities(b: Book, symbol: Symbol, price: Paise, s: Symbol)
    ensures Mark(b, symbol, price).Quantity(s) == b.Quantity(s)
  {
  }

  /** An order judged on an account with the switch engaged goes through only as a pure reduction. */
  lemma JudgedWhileHalted(cfg: Config, p: Pipe, request: OrderRequest, signal: Signal, now: Timestamp, marketOpen: bool, stale: bool)
    requires p.book.Valid() && p.engagedAt.Some?
    requires Judged(cfg, p, request, signal, now, marketOpen, stale).approved
    ensures IsPureReduction(request, p.book.Quantity(request.symbol))
    ensures Judged(cfg, p, request, signal, now, marketOpen, stale).approvedQuantity == request.quantity
  {
    hide Evaluated, AccountOf, IsPureReduction;
    AccountHolds(p, request.symbol);
    EngagedApprovesOnlyReductions(cfg.limits,
      Context(request, signal.referencePrice, signal.stopLoss, now, marketOpen, stale), AccountOf(p));
  }

  /** What `BuildRequest` asks for: an exact exit, or an entry from flat on the signal's side. */
  lemma PlannedOrders(cfg: Config, p: Pipe, signal: Signal, symbol: Symbol)
    requires p.book.Valid()
    requires BuildRequest(cfg, p, signal, symbol).Success? && BuildRequest(cfg, p, signal, symbol).value.Some?
    ensures var r, held := BuildRequest(cfg, p, signal, symbol).value.value, p.book.Quantity(symbol);
      && r == MarketOrder(signal.strategyId, symbol, r.side, r.quantity, signal.timestamp)
      && r.quantity > 0
      && (if signal.direction.FLAT? then held + Signed(r.side, r.quantity) == 0 && held != 0
          else held == 0 && (r.side.BUY? <==> signal.direction.LONG?))
  {
    hide Sizing.SizePosition, SizingInput;
  }

  lemma DecidedKeepsSwitch(cfg: Config, p: Pipe, symbol: Symbol, signal: Signal, now: Timestamp, marketOpen: bool, stale: bool)
    requires p.book.Valid()
    ensures Decided(cfg, p, symbol, signal, now, marketOpen, stale).0.engagedAt == p.engagedAt
  {
    hide BuildRequest, Judged, Put;
  }

  lemma ExitIsPlanned(cfg: Config, p: Pipe, signal: Signal, symbol: Symbol)
    requires p.book.Valid() && signal.direction.FLAT? && p.book.Quantity(symbol) != 0
    ensures BuildRequest(cfg, p, signal, symbol).Success? && BuildRequest(cfg, p, signal, symbol).value.Some?
    ensures var r := BuildRequest(cfg, p, signal, symbol).value.value;
      && r.symbol == symbol && r.quantity > 0
      && p.book.Quantity(symbol) + Signed(r.side, r.quantity) == 0
  {
  }

  lemma HandedWhileHalted(cfg: Config, w: World, e: Histories.Event)
    requires w.pipe.book.Valid() && Sane(e)
    requires Step(cfg, w, e).pipe.engagedAt.Some? && OutcomeOf(cfg, w, e).Handed?
    ensures var r := OutcomeOf(cfg, w, e).request; IsPureReduction(r, w.pipe.book.Quantity(r.symbol))
  {
    hide Judged, BuildRequest, Observed, Drop, IsPureReduction, Find, Book.Quantity, Decided;
    match e
    case Bar(symbol, candles, answers) =>
      var candle, signal := candles[|candles| - 1], answers.signal.value;
      var q := Observed(cfg, w.pipe, symbol, candle);
      JudgedIsPlaced(cfg, q, symbol, signal, candle.timestamp, answers.marketOpen, answers.dataIsStale);
      DecidedKeepsSwitch(cfg, q, symbol, signal, candle.timestamp, answers.marketOpen, answers.dataIsStale);
      var request := BuildRequest(cfg, q, signal, symbol).value.value;
      PlannedOrders(cfg, q, signal, symbol);
      JudgedWhileHalted(cfg, q, request, signal, candle.timestamp, answers.marketOpen, answers.dataIsStale);
      MarkKeepsQuantities(w.pipe.book, symbol, candle.close, symbol);
    case Approve(key, now, marketOpen, stale) =>
      var staged := w.pipe.approvals[Find(w.pipe.approvals, key)];
      JudgedWhileHalted(cfg, Looked(cfg, w.pipe, now), staged.request, staged.signal, now, marketOpen, stale);
  }

  /**
   * Halt safety over whole histories. While any stop is outstanding, from the very bar that breached
   * a limit, every order handed over only shrinks a position that is held at that moment.
   */
  lemma HaltSafety(cfg: Config, mode: Mode, book: Book, events: seq<Histories.Event>, i: nat)
    requires book.Valid() && AllSane(events) && i < |events|
    requires StopInForce(cfg, mode, book, events[..i + 1])
    ensures var w := Run(cfg, mode, book, events[..i]);
      OutcomeOf(cfg, w, events[i]).Handed? ==>
        var r := OutcomeOf(cfg, w, events[i]).request;
        IsPureReduction(r, w.pipe.book.Quantity(r.symbol))
  {
    hide Step, StopInForce, OutcomeOf, IsPureReduction;
    var w := Run(cfg, mode, book, events[..i]);
    HaltIsExact(cfg, mode, book, events[..i + 1]);
    assert events[..i + 1][..i] == events[..i];
    assert events[i] in events;
    if OutcomeOf(cfg, w, events[i]).Handed? {
      HandedWhileHalted(cfg, w, events[i]);
    }
  }

  /**
   * A halt that a breached limit caused does not survive a restart, nor does an operator's stop that
   * was not yet written: the new process comes up halted exactly when the store holds a stop.
   */
  lemma BreachHaltEndsAtRestart(cfg: Config, mode: Mode, book: Book, events: seq<Histories.Event>, bar: Histories.Event, rebuilt: Book)
    requires book.Valid() && AllSane(events) && rebuilt.Valid()
    requires BreachAt(cfg, Run(cfg, mode, book, events), bar)
    ensures AllSane(events + [bar]) && AllSane(events + [bar] + [Restarted(rebuilt)])
    ensures Run(cfg, mode, book, events + [bar]).pipe.engagedAt.Some?
    ensures Run(cfg, mode, book, events + [bar] + [Restarted(rebuilt)]).pipe.engagedAt.Some? <==> StoredInForce(events)
  {
    hide Step, BreachAt, StoredInForce;
    BreachIsABar(cfg, Run(cfg, mode, book, events), bar);
    var halted := events + [bar];
    assert halted[..|events|] == events;
    StepMovesSwitch(cfg, Run(cfg, mode, book, events), bar);
    StoredSnoc(events, bar);
    RestartsHaltedExactly(cfg, mode, book, halted, rebuilt);
  }

  /** The staged or sent order of an outcome, if there is one. */
  function Placed(o: Outcome): Option<OrderRequest> {
    match o
    case AwaitingApproval(r) => Some(r)
    case Handed(r) => Some(r)
    case _ => None
  }

  /** A planned order is placed exactly when it is judged fit, at the approved quantity. */
  lemma JudgedIsPlaced(cfg: Config, p: Pipe, symbol: Symbol, signal: Signal, now: Timestamp, marketOpen: bool, stale: bool)
    requires p.book.Valid()
    ensures var plan := BuildRequest(cfg, p, signal, symbol);
      Placed(Decided(cfg, p, symbol, signal, now, marketOpen, stale).1) ==
        if plan.Failure? || plan.value.None? then None
        else
          var request := plan.value.value;
          var decision := Judged(cfg, p, request, signal, now, marketOpen, stale);
          if decision.approved
          then Some(MarketOrder(request.strategyId, symbol, request.side, decision.approvedQuantity, signal.timestamp))
          else None
  {
    hide BuildRequest, Judged, Put;
  }

  /** An exit on usable data is never refused, whatever limits are breached: it flattens exactly. */
  lemma ExitsAlwaysPass(cfg: Config, p: Pipe, symbol: Symbol, candles: seq<Candle>, answers: Answers)
    requires p.book.Valid() && candles != [] && answers.signal.Some? && answers.allowed
    requires answers.signal.value.direction.FLAT? && p.book.Quantity(symbol) != 0
    ensures var o := OnBar(cfg, p, symbol, candles, answers).1;
      && (Placed(o).Some? <==> answers.signal.value.referencePrice > 0 && !answers.dataIsStale)
      && (Placed(o).Some? ==>
            var r := Placed(o).value;
            r.symbol == symbol && p.book.Quantity(symbol) + Signed(r.side, r.quantity) == 0)
  {
    hide Observed, Evaluated, AccountOf, Mark, BuildRequest, Decided;
    var candle, signal := candles[|candles| - 1], answers.signal.value;
    var q := Observed(cfg, p, symbol, candle);
    MarkKeepsQuantities(p.book, symbol, candle.close, symbol);
    AccountHolds(q, symbol);
    ExitIsPlanned(cfg, q, signal, symbol);
    JudgedIsPlaced(cfg, q, symbol, signal, candle.timestamp, answers.marketOpen, answers.dataIsStale);
    var request := BuildRequest(cfg, q, signal, symbol).value.value;
    var context := Context(request, signal.referencePrice, signal.stopLoss, candle.timestamp, answers.marketOpen, answers.dataIsStale);
    ReductionsAreNeverTrapped(cfg.limits, q.engagedAt.Some?, context, AccountOf(q));
  }

  /** The stop-out loss a signal may cost: its share of the risk budget. */
  function RiskBudget(cfg: Config, p: Pipe, signal: Signal, symbol: Symbol): Paise
    requires p.book.Valid() && signal.stopLoss.Some?
  {
    Sizing.Budget(SizingInput(cfg, p, signal, symbol), Sizing.Risk)
  }

  /** Whatever the risk layer scales it to, an entry loses at its stop no more than the budget. */
  lemma EntriesRiskAtMostTheBudget(cfg: Config, p: Pipe, symbol: Symbol, candles: seq<Candle>, answers: Answers)
    requires p.book.Valid() && candles != [] && answers.signal.Some?
    requires !answers.signal.value.direction.FLAT?
    requires Placed(OnBar(cfg, p, symbol, candles, answers).1).Some?
    ensures var q := Observed(cfg, p, symbol, candles[|candles| - 1]);
      var r, signal := Placed(OnBar(cfg, p, symbol, candles, answers).1).value, answers.signal.value;
      && p.book.Quantity(symbol) == 0 && r.quantity > 0 && signal.stopLoss.Some?
      && r.quantity * Abs(signal.referencePrice - signal.stopLoss.value) <= RiskBudget(cfg, q, signal, symbol)
  {
    hide Observed, Evaluated, AccountOf, Mark, BuildRequest, Decided, RiskBudget;
    var candle, signal := candles[|candles| - 1], answers.signal.value;
    var q := Observed(cfg, p, symbol, candle);
    MarkKeepsQuantities(p.book, symbol, candle.close, symbol);
    JudgedIsPlaced(cfg, q, symbol, signal, candle.timestamp, answers.marketOpen, answers.dataIsStale);
    PlannedOrders(cfg, q, signal, symbol);
    var request := BuildRequest(cfg, q, signal, symbol).value.value;
    var context := Context(request, signal.referencePrice, signal.stopLoss, candle.timestamp, answers.marketOpen, answers.dataIsStale);
    ApprovedIsPositive(cfg.limits, q.engagedAt.Some?, context, AccountOf(q));
    SizedEntry(cfg, q, signal, symbol, Placed(OnBar(cfg, p, symbol, candles, answers).1).value.quantity);
  }

  /** The caps one entry is judged against. */
  function CapsFor(cfg: Config, p: Pipe, request: OrderRequest, signal: Signal, candle: Candle, answers: Answers): seq<SizeCap>
    requires p.book.Valid()
  {
    SizeCaps(cfg.limits, Context(request, signal.referencePrice, signal.stopLoss, candle.timestamp, answers.marketOpen, answers.dataIsStale),
             AccountOf(p))
  }

  lemma ApprovedQuantityIsLeast(cfg: Config, p: Pipe, request: OrderRequest, signal: Signal, candle: Candle, answers: Answers)
    requires p.book.Valid() && p.book.Quantity(request.symbol) == 0
    requires Judged(cfg, p, request, signal, candle.timestamp, answers.marketOpen, answers.dataIsStale).approved
    ensures signal.referencePrice > 0 && CapsFor(cfg, p, request, signal, candle, answers) != []
    ensures Judged(cfg, p, request, signal, candle.timestamp, answers.marketOpen, answers.dataIsStale).approvedQuantity ==
            Min(request.quantity, Affordable(CapsFor(cfg, p, request, signal, candle, answers), signal.referencePrice))
  {
    hide StateRejections, SizeCaps, PickBindingCode, Shrink, Affordable, AccountOf, Held;
    AccountHolds(p, request.symbol);
    CashIsACap(cfg, p, request, signal, candle, answers);
    if signal.referencePrice > 0 && request.quantity > 0 {
      ShrinkIsLeast(request.quantity, CapsFor(cfg, p, request, signal, candle, answers), signal.referencePrice);
    }
  }

  lemma CashIsACap(cfg: Config, p: Pipe, request: OrderRequest, signal: Signal, candle: Candle, answers: Answers)
    requires p.book.Valid()
    ensures CapsFor(cfg, p, request, signal, candle, answers) != []
  {
    hide MulRate, Headroom, ComputeExposure, AccountOf;
  }

  /**
   * An entry is sized in whole lots and then scaled without them. What is placed is the least of the
   * size and what the caps pay for, so it is a whole number of lots exactly when the caps pay for the
   * size or themselves end on a whole lot.
   */
  lemma EntriesAreWholeLotsExactly(cfg: Config, p: Pipe, symbol: Symbol, candles: seq<Candle>, answers: Answers)
    requires p.book.Valid() && candles != [] && answers.signal.Some?
    requires !answers.signal.value.direction.FLAT?
    requires Placed(OnBar(cfg, p, symbol, candles, answers).1).Some?
    ensures var candle, signal := candles[|candles| - 1], answers.signal.value;
      var q, lot := Observed(cfg, p, symbol, candle), if symbol in cfg.lotSizes then cfg.lotSizes[symbol] else 1;
      && BuildRequest(cfg, q, signal, symbol).Success? && BuildRequest(cfg, q, signal, symbol).value.Some?
      && var sized := BuildRequest(cfg, q, signal, symbol).value.value;
         var caps, placed := CapsFor(cfg, q, sized, signal, candle, answers), Placed(OnBar(cfg, p, symbol, candles, answers).1).value;
         && signal.referencePrice > 0 && caps != [] && lot >= 1
         && placed.quantity == Min(sized.quantity, Affordable(caps, signal.referencePrice))
         && (placed.quantity % lot == 0 <==>
               sized.quantity <= Affordable(caps, signal.referencePrice) || Affordable(caps, signal.referencePrice) % lot == 0)
  {
    hide Observed, Evaluated, AccountOf, Mark, BuildRequest, Decided, CapsFor, Affordable, Judged;
    var candle, signal := candles[|candles| - 1], answers.signal.value;
    var q := Observed(cfg, p, symbol, candle);
    MarkKeepsQuantities(p.book, symbol, candle.close, symbol);
    JudgedIsPlaced(cfg, q, symbol, signal, candle.timestamp, answers.marketOpen, answers.dataIsStale);
    PlannedOrders(cfg, q, signal, symbol);
    var sized := BuildRequest(cfg, q, signal, symbol).value.value;
    ApprovedQuantityIsLeast(cfg, q, sized, signal, candle, answers);
    SizedInLots(cfg, q, signal, symbol);
  }

  // ----- A broken lot -----

  /** Every fraction allows everything but for gross exposure, which may reach half the equity. */
  const HalfGross := Limits(1.0, 1.0, 0.5, 1.0, 1.0, 1.0, 1.0, 1, 1, 1, 1, false)

  const LotsOfTen := Config(HalfGross, map["S" := 10])

  function Long(at: Timestamp): Signal {
    Signal("S", "", LONG, 1.0, at, 100, Some(99))
  }

  /** The account of a process that opened with a thousand paise and saw one bar. */
  lemma QuietBar(p: Pipe, candle: Candle)
    requires p == Begin(AUTOMATIC, Opening(1000)) && candle.close == 100
    ensures p.book.Valid()
    ensures var q := Observed(LotsOfTen, p, "S", candle);
      && q.book == Opening(1000) && q.mode.AUTOMATIC? && q.engagedAt.None?
      && AccountOf(q) == Account(1000, 1000, 1000, 1000, [], 0, 0, [], map[], map[])
  {
    assert Equity(p.book) == 1000;
    assert Mark(p.book, "S", 100) == p.book;
  }

  lemma TenAreSized(p: Pipe, at: Timestamp)
    requires p.book == Opening(1000)
    ensures p.book.Valid()
    ensures BuildRequest(LotsOfTen, p, Long(at), "S") == Success(Some(MarketOrder("", "S", BUY, 10, at)))
  {
    assert Equity(p.book) == 1000;
    hide MulRate;
    var input := SizingInput(LotsOfTen, p, Long(at), "S");
    assert input == Sizing.Input(1000, 100, 99, 1.0, 1.0, 1000, 10, 1.0);
    TenLots(input);
  }

  lemma TenLots(input: Sizing.Input)
    requires input == Sizing.Input(1000, 100, 99, 1.0, 1.0, 1000, 10, 1.0)
    ensures Sizing.SizePosition(input).Success? && Sizing.SizePosition(input).value.quantity == 10
  {
    hide MulRate;
    assert MulRate(1000, 1.0) == 1000;
  }

  /** Half the equity pays for five shares. */
  lemma FiveAreAffordable(context: Context, account: Account)
    requires account == Account(1000, 1000, 1000, 1000, [], 0, 0, [], map[], map[])
    requires context.request.quantity == 10 && context.request.symbol == "S" && context.request.side.BUY?
    requires context.referencePrice == 100 && context.marketOpen && !context.dataIsStale
    ensures Evaluated(HalfGross, false, context, account).approved
    ensures Evaluated(HalfGross, false, context, account).approvedQuantity == 5
  {
    hide MulRate;
    assert MulRate(1000, 1.0) == 1000 && MulRate(1000, 0.5) == 500;
    var caps := SizeCaps(HalfGross, context, account);
    assert caps == [SizeCap(PositionValue, 1000), SizeCap(SymbolConcentration, 1000), SizeCap(GrossExposure, 500),
                    SizeCap(NetExposure, 1000), SizeCap(AvailableCash, 1000)];
    ShrinkIsLeast(10, caps, 100);
    FiveCaps(caps, 100);
    assert StateRejections(HalfGross, false, context, account) == [];
  }

  lemma FiveCaps(caps: seq<SizeCap>, price: Paise)
    requires |caps| == 5 && price > 0
    ensures Affordable(caps, price) ==
            Min(Min(Min(Min(caps[0].amount / price, caps[1].amount / price), caps[2].amount / price), caps[3].amount / price),
                caps[4].amount / price)
  {
    assert caps[..4][..3] == caps[..3] && caps[..3][..2] == caps[..2] && caps[..2][..1] == caps[..1];
    assert Affordable(caps[..1], price) == caps[0].amount / price;
    assert Affordable(caps[..2], price) == Min(caps[0].amount / price, caps[1].amount / price);
    assert Affordable(caps[..3], price) == Min(Affordable(caps[..2], price), caps[2].amount / price);
    assert Affordable(caps[..4], price) == Min(Affordable(caps[..3], price), caps[3].amount / price);
  }

  /** Sized at one lot of ten, an entry is handed over as half a lot. */
  lemma BrokenLotIsPlaced(candle: Candle, at: Timestamp)
    requires candle.close == 100
    ensures var p := Begin(AUTOMATIC, Opening(1000));
      && p.book.Valid()
      && OnBar(LotsOfTen, p, "S", [candle], Answers(Some(Long(at)), true, true, false)).1 == Handed(MarketOrder("", "S", BUY, 5, at))
  {
    hide Observed, BuildRequest, Evaluated, AccountOf;
    var p := Begin(AUTOMATIC, Opening(1000));
    QuietBar(p, candle);
    var q := Observed(LotsOfTen, p, "S", candle);
    TenAreSized(q, at);
    FiveAreAffordable(Context(MarketOrder("", "S", BUY, 10, at), 100, Some(99), candle.timestamp, true, false), AccountOf(q));
  }

  lemma SizedInLots(cfg: Config, p: Pipe, signal: Signal, symbol: Symbol)
    requires p.book.Valid() && !signal.direction.FLAT?
    requires BuildRequest(cfg, p, signal, symbol).Success? && BuildRequest(cfg, p, signal, symbol).value.Some?
    ensures var lot := if symbol in cfg.lotSizes then cfg.lotSizes[symbol] else 1;
      lot >= 1 && BuildRequest(cfg, p, signal, symbol).value.value.quantity % lot == 0
  {
    hide Equity, Sizing.SizePosition, BuildRequest;
    PlannedSize(cfg, p, signal, symbol);
    assert Sizing.Refusal(SizingInput(cfg, p, signal, symbol)).None?;
  }

  lemma PlannedSize(cfg: Config, p: Pipe, signal: Signal, symbol: Symbol)
    requires p.book.Valid() && !signal.direction.FLAT?
    requires BuildRequest(cfg, p, signal, symbol).Success? && BuildRequest(cfg, p, signal, symbol).value.Some?
    ensures signal.stopLoss.Some?
    ensures var sized := Sizing.SizePosition(SizingInput(cfg, p, signal, symbol));
      && sized.Success?
      && sized.value.quantity == BuildRequest(cfg, p, signal, symbol).value.value.quantity
  {
    hide Sizing.SizePosition, SizingInput;
  }

  lemma SizedEntry(cfg: Config, p: Pipe, signal: Signal, symbol: Symbol, quantity: int)
    requires p.book.Valid() && !signal.direction.FLAT?
    requires BuildRequest(cfg, p, signal, symbol).Success? && BuildRequest(cfg, p, signal, symbol).value.Some?
    requires 0 < quantity <= BuildRequest(cfg, p, signal, symbol).value.value.quantity
    ensures signal.stopLoss.Some?
    ensures quantity * Abs(signal.referencePrice - signal.stopLoss.value) <= RiskBudget(cfg, p, signal, symbol)
  {
    hide Sizing.Budget, Equity, Sizing.SizePosition;
    PlannedSize(cfg, p, signal, symbol);
    var input := SizingInput(cfg, p, signal, symbol);
    Sizing.SizeIsAffordable(input);
    SizedLoss(input);
    var size := Sizing.SizePosition(input).value.quantity;
    SmallerLosesLess(quantity, size, Sizing.StopDistance(input));
  }

  lemma SmallerLosesLess(q: nat, size: nat, distance: nat)
    requires q <= size
    ensures q * distance <= size * distance
  {
    assert (size - q) * distance >= 0;
  }

  lemma SizedLoss(input: Sizing.Input)
    requires Sizing.SizePosition(input).Success?
    ensures var s := Sizing.SizePosition(input).value; s.riskAmount == s.quantity * Sizing.StopDistance(input)
  {
    hide Sizing.Budget, Sizing.ByRisk, DivFloor, Sizing.WholeLots, Sizing.StopDistance;
  }

  // ----- The peak -----

  /** The equity a step measures against the peak, if it measures one. */
  ghost function EquitySeen(w: World, e: Histories.Event): Option<Paise>
    requires w.pipe.book.Valid() && Sane(e)
  {
    match e
    case Bar(symbol, candles, answers) =>
      if candles == [] then None
      else
        MarkKeepsCost(w.pipe.book, symbol, candles[|candles| - 1].close);
        Some(Equity(Mark(w.pipe.book, symbol, candles[|candles| - 1].close)))
    case Restarted(rebuilt) => if w.saved.Some? then Some(Equity(rebuilt)) else None
    case _ => None
  }

  function Raised(peak: Paise, seen: Option<Paise>): Paise {
    if seen.Some? then Max(peak, seen.value) else peak
  }

  lemma StepMovesPeak(cfg: Config, w: World, e: Histories.Event)
    requires w.pipe.book.Valid() && Sane(e)
    ensures var next := Step(cfg, w, e);
      && next.opening == w.opening
      && next.saved == (if e.Snapshot? then Some(Captured(w.pipe)) else w.saved)
      && next.pipe.peak == Raised(if !e.Restarted? then w.pipe.peak else if w.saved.Some? then w.saved.value.peak else w.opening,
                                  EquitySeen(w, e))
  {
    hide Breaches, Judged, BuildRequest, Settle, Total, Equity, Observed, AccountOf, Mark, Put, Drop, PutAll, Find;
  }

  ghost function SeenAt(cfg: Config, mode: Mode, book: Book, events: seq<Histories.Event>, i: nat): Option<Paise>
    requires book.Valid() && AllSane(events) && i < |events|
  {
    assert events[i] in events;
    EquitySeen(Run(cfg, mode, book, events[..i]), events[i])
  }

  predicate SnapshotBetween(events: seq<Histories.Event>, i: nat, r: nat)
    requires r <= |events|
  {
    exists j :: i < j < r && events[j].Snapshot?
  }

  /** A measurement survives: every restart since came after a snapshot that followed the measurement. */
  predicate Kept(events: seq<Histories.Event>, i: nat) {
    forall r :: i < r < |events| && events[r].Restarted? ==> SnapshotBetween(events, i, r)
  }

  /** It is in memory, or also in the store. */
  predicate Counts(stored: bool, events: seq<Histories.Event>, i: nat) {
    Kept(events, i) && (stored ==> SnapshotBetween(events, i, |events|))
  }

  lemma SnapshotSnoc(before: seq<Histories.Event>, e: Histories.Event, i: nat, r: nat)
    requires r <= |before|
    ensures SnapshotBetween(before + [e], i, r) <==> SnapshotBetween(before, i, r)
    ensures i < |before| ==>
      (SnapshotBetween(before + [e], i, |before| + 1) <==> SnapshotBetween(before, i, |before|) || e.Snapshot?)
  {
    var events := before + [e];
    assert forall j :: 0 <= j < |before| ==> events[j] == before[j];
    assert events[|before|] == e;
  }

  lemma KeptSnoc(before: seq<Histories.Event>, e: Histories.Event, i: nat)
    requires i < |before|
    ensures Kept(before + [e], i) <==> Kept(before, i) && (e.Restarted? ==> SnapshotBetween(before, i, |before|))
  {
    hide SnapshotBetween;
    var events := before + [e];
    assert events[|before|] == e;
    forall r | 0 <= r <= |before|
      ensures SnapshotBetween(events, i, r) <==> SnapshotBetween(before, i, r)
    {
      SnapshotSnoc(before, e, i, r);
    }
    if Kept(events, i) {
      forall r | i < r < |before| && before[r].Restarted?
        ensures SnapshotBetween(before, i, r)
      {
        assert events[r].Restarted?;
      }
      if e.Restarted? {
        assert events[|before|].Restarted?;
      }
    }
  }

  lemma CountsSnoc(before: seq<Histories.Event>, e: Histories.Event, i: nat)
    requires i <= |before|
    ensures Counts(false, before + [e], i) <==> if i < |before| then Counts(e.Restarted?, before, i) else true
    ensures Counts(true, before + [e], i) <==> i < |before| && Counts(!e.Snapshot?, before, i)
  {
    hide SnapshotBetween, Kept;
    if i < |before| {
      KeptSnoc(before, e, i);
      SnapshotSnoc(before, e, i, |before|);
    } else {
      NothingAfterLast(before + [e]);
    }
  }

  lemma NothingAfterLast(events: seq<Histories.Event>)
    requires events != []
    ensures Kept(events, |events| - 1) && !SnapshotBetween(events, |events| - 1, |events|)
  {
  }

  // ----- Highest of what counts -----

  /** The greatest of a base and the counted ones among what was seen. */
  ghost predicate IsHighest(base: Paise, seen: seq<Option<Paise>>, counted: seq<bool>, peak: Paise)
    requires |seen| == |counted|
  {
    && base <= peak
    && (forall i :: 0 <= i < |seen| && counted[i] && seen[i].Some? ==> seen[i].value <= peak)
    && (peak == base || exists i :: 0 <= i < |seen| && counted[i] && seen[i] == Some(peak))
  }

  lemma HighestSnoc(base: Paise, seen: seq<Option<Paise>>, counted: seq<bool>, peak: Paise, x: Option<Paise>, counts: bool)
    requires |seen| == |counted| && IsHighest(base, seen, counted, peak)
    ensures IsHighest(base, seen + [x], counted + [counts], if counts then Raised(peak, x) else peak)
  {
    var s, c := seen + [x], counted + [counts];
    var top := if counts then Raised(peak, x) else peak;
    assert forall i :: 0 <= i < |seen| ==> s[i] == seen[i] && c[i] == counted[i];
    if top == peak && peak != base {
      var i :| 0 <= i < |seen| && counted[i] && seen[i] == Some(peak);
      assert c[i] && s[i] == Some(top);
    } else if top != peak {
      assert c[|seen|] && s[|seen|] == Some(top);
    }
  }

  ghost function SeenList(cfg: Config, mode: Mode, book: Book, events: seq<Histories.Event>): (r: seq<Option<Paise>>)
    requires book.Valid() && AllSane(events)
    ensures |r| == |events|
  {
    if events == [] then []
    else
      var before := events[..|events| - 1];
      SeenList(cfg, mode, book, before) + [EquitySeen(Run(cfg, mode, book, before), events[|events| - 1])]
  }

  lemma {:induction false} SeenListAt(cfg: Config, mode: Mode, book: Book, events: seq<Histories.Event>, i: nat)
    requires book.Valid() && AllSane(events) && i < |events|
    ensures SeenList(cfg, mode, book, events)[i] == SeenAt(cfg, mode, book, events, i)
  {
    hide EquitySeen, Run;
    if i < |events| - 1 {
      var before := events[..|events| - 1];
      assert before[..i] == events[..i];
      SeenListAt(cfg, mode, book, before, i);
    }
  }

  function CountList(stored: bool, events: seq<Histories.Event>): (r: seq<bool>)
    ensures |r| == |events|
  {
    seq(|events|, i requires 0 <= i < |events| => Counts(stored, events, i))
  }

  lemma CountListSnoc(before: seq<Histories.Event>, e: Histories.Event)
    ensures CountList(false, before + [e]) == CountList(e.Restarted?, before) + [true]
    ensures CountList(true, before + [e]) == CountList(!e.Snapshot?, before) + [false]
  {
    hide Counts;
    forall i | 0 <= i <= |before|
      ensures CountList(false, before + [e])[i] == (CountList(e.Restarted?, before) + [true])[i]
      ensures CountList(true, before + [e])[i] == (CountList(!e.Snapshot?, before) + [false])[i]
    {
      CountsSnoc(before, e, i);
    }
  }

  ghost predicate PeaksAreHighest(w: World, seen: seq<Option<Paise>>, inMemory: seq<bool>, inStore: seq<bool>, base: Paise)
    requires |seen| == |inMemory| == |inStore|
  {
    && w.opening == base
    && IsHighest(base, seen, inMemory, w.pipe.peak)
    && (if w.saved.Some? then IsHighest(base, seen, inStore, w.saved.value.peak) else IsHighest(base, seen, inStore, base))
  }

  lemma {:induction false} PeaksStayHighest(cfg: Config, mode: Mode, book: Book, events: seq<Histories.Event>)
    requires book.Valid() && AllSane(events)
    ensures PeaksAreHighest(Run(cfg, mode, book, events), SeenList(cfg, mode, book, events),
                            CountList(false, events), CountList(true, events), Equity(book))
  {
    hide Step, EquitySeen, Equity, Counts, IsHighest, CountList;
    if events == [] {
      NothingCounted(Equity(book));
    } else {
      var before, last := events[..|events| - 1], events[|events| - 1];
      assert events == before + [last];
      PeaksStayHighest(cfg, mode, book, before);
      var w := Run(cfg, mode, book, before);
      StepMovesPeak(cfg, w, last);
      CountListSnoc(before, last);
      var seen, x := SeenList(cfg, mode, book, before), EquitySeen(w, last);
      var stored := if w.saved.Some? then w.saved.value.peak else w.opening;
      NoneSeenUnstored(w, last);
      HighestSnoc(Equity(book), seen, CountList(last.Restarted?, before), if last.Restarted? then stored else w.pipe.peak, x, true);
      HighestSnoc(Equity(book), seen, CountList(!last.Snapshot?, before), if last.Snapshot? then w.pipe.peak else stored, x, false);
    }
  }

  lemma NothingCounted(base: Paise)
    ensures CountList(false, []) == [] && CountList(true, []) == [] && IsHighest(base, [], [], base)
  {
  }

  lemma NoneSeenUnstored(w: World, e: Histories.Event)
    requires w.pipe.book.Valid() && Sane(e)
    ensures e.Restarted? && w.saved.None? ==> EquitySeen(w, e) == None
  {
  }

  /**
   * Through any history, the peak is the highest of the opening equity and every equity measured by a
   * bar or by a restart that found a snapshot, except those lost: a measurement is lost exactly when
   * a restart came before any snapshot of it was written.
   */
  lemma PeakIsHighestKept(cfg: Config, mode: Mode, book: Book, events: seq<Histories.Event>)
    requires book.Valid() && AllSane(events)
    ensures var peak := Run(cfg, mode, book, events).pipe.peak;
      && Equity(book) <= peak
      && (forall i, v :: 0 <= i < |events| && Kept(events, i) && SeenAt(cfg, mode, book, events, i) == Some(v) ==> v <= peak)
      && (peak == Equity(book)
          || exists i :: 0 <= i < |events| && Kept(events, i) && SeenAt(cfg, mode, book, events, i) == Some(peak))
  {
    hide Run, EquitySeen, Equity, Kept, SeenAt, SeenList;
    PeaksStayHighest(cfg, mode, book, events);
    forall i | 0 <= i < |events|
      ensures SeenList(cfg, mode, book, events)[i] == SeenAt(cfg, mode, book, events, i)
      ensures CountList(false, events)[i] == Kept(events, i)
    {
      SeenListAt(cfg, mode, book, events, i);
    }
  }

  // ----- What a restart keeps -----

  lemma {:induction false} StagedKeysAreDistinct(cfg: Config, mode: Mode, book: Book, events: seq<Histories.Event>)
    requires book.Valid() && AllSane(events)
    ensures var w := Run(cfg, mode, book, events);
      Restorable(Captured(w.pipe)) && Restorable(OnFile(w))
  {
    hide Step;
    if events != [] {
      StagedKeysAreDistinct(cfg, mode, book, events[..|events| - 1]);
      StepKeepsKeys(cfg, Run(cfg, mode, book, events[..|events| - 1]), events[|events| - 1]);
    }
  }

  predicate Restorable(saved: Saved) {
    DistinctKeys(saved.approvals) && saved.streak.losses >= 0
  }

  lemma StepKeepsKeys(cfg: Config, w: World, e: Histories.Event)
    requires w.pipe.book.Valid() && Sane(e)
    requires Restorable(Captured(w.pipe)) && Restorable(OnFile(w))
    ensures Restorable(Captured(Step(cfg, w, e).pipe)) && Restorable(OnFile(Step(cfg, w, e)))
  {
    hide Breaches, Judged, BuildRequest, Settle, Equity, AccountOf, Mark, Put, Drop, PutAll, DistinctKeys, Find;
    PutAllDistinct(OnFile(w).approvals);
    NothingStagedIsDistinct();
    match e
    case Bar(symbol, candles, answers) =>
      if Placed(OutcomeOf(cfg, w, e)).Some? {
        var candle := candles[|candles| - 1];
        PutKeepsDistinct(w.pipe.approvals,
          PendingApproval(Placed(OutcomeOf(cfg, w, e)).value, answers.signal.value, candle.timestamp));
      }
    case Approve(key, now, marketOpen, stale) => DropKeepsDistinct(w.pipe.approvals, key);
    case Decline(key) => DropKeepsDistinct(w.pipe.approvals, key);
    case _ =>
  }

  lemma NothingStagedIsDistinct()
    ensures DistinctKeys([])
  {
  }

  /** What a new process is given: the last snapshot, or the values it is constructed with. */
  function OnFile(w: World): Saved {
    if w.saved.Some? then w.saved.value else Saved(None, w.opening, w.opening, NO_LOSSES, [])
  }

  /** The index of the last snapshot. */
  function LastSnapshot(events: seq<Histories.Event>): (j: Option<nat>)
    ensures j.Some? ==> j.value < |events| && events[j.value].Snapshot?
    ensures forall k :: 0 <= k < |events| && events[k].Snapshot? ==> j.Some? && k <= j.value
  {
    if events == [] then None
    else if events[|events| - 1].Snapshot? then Some(|events| - 1)
    else LastSnapshot(events[..|events| - 1])
  }

  /** The store holds what was captured at the last snapshot. */
  lemma {:induction false} OnFileIsTheLastSnapshot(cfg: Config, mode: Mode, book: Book, events: seq<Histories.Event>)
    requires book.Valid() && AllSane(events)
    ensures Run(cfg, mode, book, events).opening == Equity(book)
    ensures var j := LastSnapshot(events);
      Run(cfg, mode, book, events).saved ==
      if j.Some? then Some(Captured(Run(cfg, mode, book, events[..j.value]).pipe)) else None
  {
    hide Step, Captured, Equity;
    if events != [] {
      var before, last := events[..|events| - 1], events[|events| - 1];
      assert events == before + [last];
      OnFileIsTheLastSnapshot(cfg, mode, book, before);
      StepMovesPeak(cfg, Run(cfg, mode, book, before), last);
      if !last.Snapshot? && LastSnapshot(before).Some? {
        assert events[..LastSnapshot(before).value] == before[..LastSnapshot(before).value];
      }
    }
  }

  /** The same day, baseline, streak and staged orders. */
  predicate SameObservations(a: Saved, b: Saved) {
    a.day == b.day && a.startOfDay == b.startOfDay && a.streak == b.streak && a.approvals == b.approvals
  }

  /**
   * A restart keeps the day, its baseline, the streak and the staged orders exactly when none of them
   * changed since the last snapshot. It lowers the peak exactly when the snapshot's was lower and the
   * rebuilt equity does not make up for it.
   */
  lemma RestartKeepsExactly(cfg: Config, mode: Mode, book: Book, events: seq<Histories.Event>, rebuilt: Book)
    requires book.Valid() && AllSane(events) && rebuilt.Valid()
    ensures var w := Run(cfg, mode, book, events);
      var p := Step(cfg, w, Restarted(rebuilt)).pipe;
      && (SameObservations(Captured(p), Captured(w.pipe)) <==> SameObservations(OnFile(w), Captured(w.pipe)))
      && (p.peak < w.pipe.peak <==>
            OnFile(w).peak < w.pipe.peak && (w.saved.Some? ==> Equity(rebuilt) < w.pipe.peak))
  {
    hide Run, Equity, DistinctKeys, PutAll;
    var w := Run(cfg, mode, book, events);
    StagedKeysAreDistinct(cfg, mode, book, events);
    PutAllDistinct(OnFile(w).approvals);
  }

  predicate Staged(approvals: seq<PendingApproval>, key: Key) {
    Find(approvals, key) < |approvals|
  }

  lemma StagedIsMember(approvals: seq<PendingApproval>, key: Key)
    ensures Staged(approvals, key) <==> exists a :: a in approvals && KeyOf(a) == key
  {
    if a :| a in approvals && KeyOf(a) == key {
      var k :| 0 <= k < |approvals| && approvals[k] == a;
    }
  }

  /**
   * An order that was approved or declined is no longer staged, and a restart stages it again exactly
   * when the last snapshot still has it.
   */
  lemma DecidedOrderReturnsExactly(cfg: Config, mode: Mode, book: Book, events: seq<Histories.Event>, e: Histories.Event, rebuilt: Book)
    requires book.Valid() && AllSane(events) && rebuilt.Valid() && (e.Approve? || e.Decline?)
    ensures var w := Run(cfg, mode, book, events);
      var decided := Step(cfg, w, e);
      && decided.pipe.book.Valid()
      && !Staged(decided.pipe.approvals, e.key)
      && (Staged(Step(cfg, decided, Restarted(rebuilt)).pipe.approvals, e.key) <==> Staged(OnFile(w).approvals, e.key))
  {
    hide Run, Equity, DistinctKeys, PutAll, Judged, Drop, Staged;
    var w := Run(cfg, mode, book, events);
    StepKeepsBook(cfg, w, e);
    StagedKeysAreDistinct(cfg, mode, book, events);
    PutAllDistinct(OnFile(w).approvals);
    DroppedIsNotStaged(w.pipe.approvals, e.key);
  }

  lemma DroppedIsNotStaged(approvals: seq<PendingApproval>, key: Key)
    requires DistinctKeys(approvals)
    ensures !Staged(Drop(approvals, key), key)
    ensures Find(approvals, key) == |approvals| ==> !Staged(approvals, key)
  {
    hide Drop, DistinctKeys;
    DropKeepsDistinct(approvals, key);
    StagedIsMember(Drop(approvals, key), key);
  }

  /** On fresh data a staged reduction is always approved, and handed over as it was staged. */
  lemma StagedReductionIsHanded(cfg: Config, p: Pipe, key: Key, now: Timestamp, marketOpen: bool)
    requires p.book.Valid() && Staged(p.approvals, key)
    requires var a := p.approvals[Find(p.approvals, key)];
      && a.request.quantity > 0 && a.signal.referencePrice > 0
      && IsPureReduction(a.request, p.book.Quantity(a.request.symbol))
    ensures OnApprove(cfg, p, key, now, marketOpen, false).1 == Handed(p.approvals[Find(p.approvals, key)].request)
  {
    hide Evaluated, AccountOf, IsPureReduction, Drop, Find, Book.Quantity;
    var a := p.approvals[Find(p.approvals, key)];
    var q := Looked(cfg, p, now);
    AccountHolds(q, a.request.symbol);
    ReductionsAreNeverTrapped(cfg.limits, q.engagedAt.Some?,
      Context(a.request, a.signal.referencePrice, a.signal.stopLoss, now, marketOpen, false), AccountOf(q));
  }

  lemma RunOneMore(cfg: Config, mode: Mode, book: Book, before: seq<Histories.Event>, e: Histories.Event)
    requires book.Valid() && AllSane(before) && Sane(e)
    ensures AllSane(before + [e]) && Run(cfg, mode, book, before + [e]) == Step(cfg, Run(cfg, mode, book, before), e)
  {
    hide Step;
    assert (before + [e])[..|before|] == before;
  }

  /** An exit outside automatic mode is staged, alone, with the signal that asked for it. */
  lemma ExitIsStaged(cfg: Config, p: Pipe, symbol: Symbol, candles: seq<Candle>, answers: Answers)
    requires p.book.Valid() && p.approvals == [] && !p.mode.AUTOMATIC?
    requires candles != [] && answers.signal.Some? && answers.allowed && !answers.dataIsStale
    requires answers.signal.value.direction.FLAT? && answers.signal.value.referencePrice > 0
    requires p.book.Quantity(symbol) != 0
    ensures var (q, o) := OnBar(cfg, p, symbol, candles, answers);
      && o.AwaitingApproval?
      && q.approvals == [PendingApproval(o.request, answers.signal.value, candles[|candles| - 1].timestamp)]
      && q.book.Valid() && q.book.Quantity(symbol) == p.book.Quantity(symbol)
      && o.request.symbol == symbol && o.request.quantity > 0
      && p.book.Quantity(symbol) + Signed(o.request.side, o.request.quantity) == 0
  {
    hide Observed, Judged, Mark, BuildRequest;
    var candle, signal := candles[|candles| - 1], answers.signal.value;
    ExitsAlwaysPass(cfg, p, symbol, candles, answers);
    var q := Observed(cfg, p, symbol, candle);
    MarkKeepsQuantities(p.book, symbol, candle.close, symbol);
    JudgedIsPlaced(cfg, q, symbol, signal, candle.timestamp, answers.marketOpen, answers.dataIsStale);
    PlannedOrders(cfg, q, signal, symbol);
    ApprovedIsPositive(cfg.limits, q.engagedAt.Some?,
      Context(BuildRequest(cfg, q, signal, symbol).value.value, signal.referencePrice, signal.stopLoss, candle.timestamp,
              answers.marketOpen, answers.dataIsStale), AccountOf(q));
  }

  /**
   * Approve, restart, approve: nothing is written after an approval, so a restart stages the order
   * again, and while the exchange has not filled it the second approval hands the same order over.
   */
  lemma ApprovedExitIsHandedTwice(cfg: Config, mode: Mode, book: Book, symbol: Symbol, candles: seq<Candle>, answers: Answers,
                                  approvedAt: Timestamp, rebuilt: Book, againAt: Timestamp)
    requires book.Valid() && rebuilt.Valid() && !mode.AUTOMATIC?
    requires candles != [] && answers.signal.Some? && answers.allowed && !answers.dataIsStale
    requires answers.signal.value.direction.FLAT? && answers.signal.value.referencePrice > 0
    requires book.Quantity(symbol) != 0 && rebuilt.Quantity(symbol) == book.Quantity(symbol)
    ensures var staged := OnBar(cfg, Begin(mode, book), symbol, candles, answers).1;
      && staged.AwaitingApproval?
      && var key := staged.request.idempotencyKey;
         var before := [Bar(symbol, candles, answers), Snapshot];
         var between := before + [Approve(key, approvedAt, true, false), Restarted(rebuilt)];
         && AllSane(before) && AllSane(between)
         && OutcomeOf(cfg, Run(cfg, mode, book, before), Approve(key, approvedAt, true, false)) == Handed(staged.request)
         && OutcomeOf(cfg, Run(cfg, mode, book, between), Approve(key, againAt, true, false)) == Handed(staged.request)
  {
    hide Run, OnBar, OnApprove, IsPureReduction, Book.Quantity, Equity, PutAll, Find;
    var p := Begin(mode, book);
    ExitIsStaged(cfg, p, symbol, candles, answers);
    var (q, staged) := OnBar(cfg, p, symbol, candles, answers);
    var r := staged.request;
    var key := r.idempotencyKey;
    ExactExitReduces(r, book.Quantity(symbol));
    FirstIsFound(q.approvals);
    PutAllDistinct(q.approvals);
    var none: seq<Histories.Event> := [];
    var e1 := none + [Bar(symbol, candles, answers)];
    var e2 := e1 + [Snapshot];
    var e3 := e2 + [Approve(key, approvedAt, true, false)];
    var e4 := e3 + [Restarted(rebuilt)];
    NothingRunYet(cfg, mode, book);
    RunOneMore(cfg, mode, book, none, Bar(symbol, candles, answers));
    RunOneMore(cfg, mode, book, e1, Snapshot);
    RunOneMore(cfg, mode, book, e2, Approve(key, approvedAt, true, false));
    RunOneMore(cfg, mode, book, e3, Restarted(rebuilt));
    assert e2 == [Bar(symbol, candles, answers), Snapshot];
    assert e4 == e2 + [Approve(key, approvedAt, true, false), Restarted(rebuilt)];
    var w2, w4 := Run(cfg, mode, book, e2), Run(cfg, mode, book, e4);
    assert w2.pipe == q && w2.saved == Some(Captured(q));
    StagedReductionIsHanded(cfg, w2.pipe, key, approvedAt, true);
    assert w4.pipe.approvals == q.approvals && w4.pipe.book == rebuilt;
    StagedReductionIsHanded(cfg, w4.pipe, key, againAt, true);
  }

  lemma NothingRunYet(cfg: Config, mode: Mode, book: Book)
    requires book.Valid()
    ensures AllSane([]) && Run(cfg, mode, book, []).pipe == Begin(mode, book)
  {
  }

  lemma FirstIsFound(approvals: seq<PendingApproval>)
    requires |approvals| == 1
    ensures DistinctKeys(approvals) && Find(approvals, KeyOf(approvals[0])) == 0 && Staged(approvals, KeyOf(approvals[0]))
  {
  }

  lemma ExactExitReduces(request: OrderRequest, held: int)
    requires request.quantity > 0 && held + Signed(request.side, request.quantity) == 0
    ensures IsPureReduction(request, held)
  {
  }
}
