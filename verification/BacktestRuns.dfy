// What every bar of every backtest keeps: stops guard positions, orders open from flat or flatten.
module BacktestRuns {
  import opened Money
  import opened Domain
  import opened Portfolios
  import opened Backtests
  import Oms
  import Ledgers
  import Pipelines
  import Sizing
  import PB = PaperBrokers

  /** Nothing rests at the broker and the three ledgers agree. */
  ghost predicate Quiet(d: Ledgers.Desk, opening: Paise) {
    Ledgers.Balanced(d, opening) && d.broker.resting == []
  }

  lemma QuietPublishChangesNothing(cfg: Config, bt: Bt, opening: Paise, symbol: Symbol, price: nat)
    requires cfg.Valid() && bt.Valid() && Quiet(bt.desk, opening)
    ensures Publish(cfg, bt, symbol, price) == bt
  {
    hide Ledgers.Balanced, Oms.State.Valid;
    var d := bt.desk;
    assert Ledgers.Produced(cfg.broker, d.broker, PB.Quote(symbol, price, None)) == [];
    assert d.broker.fills + [] == d.broker.fills;
    assert PB.Publish(cfg.broker, d.broker, PB.Quote(symbol, price, None)) == d.broker;
  }

  lemma MarkKeepsQuiet(d: Ledgers.Desk, opening: Paise, symbol: Symbol, price: Paise)
    requires Quiet(d, opening)
    ensures Quiet(d.(book := Mark(d.book, symbol, price)), opening)
    ensures forall s :: Mark(d.book, symbol, price).Quantity(s) == d.book.Quantity(s)
  {
    hide Ledgers.Mirrors, Ledgers.SameRequests, Ledgers.NetBought;
  }

  lemma ClockKeepsQuiet(cfg: Config, d: Ledgers.Desk, opening: Paise, now: Timestamp)
    requires cfg.Valid() && Quiet(d, opening) && d.oms.Valid()
    ensures Quiet(d.(broker := d.broker.(clock := now)), opening)
  {
    hide Ledgers.Balanced, Oms.State.Valid;
    Ledgers.StepBalances(cfg.broker, cfg.maxRetries, d, opening, Ledgers.Clock(now));
  }

  lemma SubmissionsKeepMirrors(oms: Oms.State, submissions: seq<Timestamp>, seen: map<Key, Id>, done: set<Id>, delivered: seq<Fill>)
    requires Ledgers.Mirrors(oms, seen, done, delivered)
    ensures Ledgers.Mirrors(oms.(submissions := submissions), seen, done, delivered)
  {
    hide Ledgers.Folded, Ledgers.StatusFor;
    var t := oms.(submissions := submissions);
    forall p | p in t.orders
      ensures Ledgers.Mirrored(t, seen, done, delivered, p)
    {
      assert Ledgers.Mirrored(oms, seen, done, delivered, p);
    }
  }

  lemma SubmissionsKeepQuiet(d: Ledgers.Desk, opening: Paise, submissions: seq<Timestamp>)
    requires Quiet(d, opening)
    ensures Quiet(d.(oms := d.oms.(submissions := submissions)), opening)
  {
    hide Ledgers.SameMoney, Ledgers.Mirrors, Ledgers.BrokerOrder;
    var t := d.oms.(submissions := submissions);
    SubmissionsKeepMirrors(d.oms, submissions, d.broker.seenKeys, d.broker.completed.Keys, d.broker.fills);
    forall o | Ledgers.BrokerOrder(d.broker, o)
      ensures Ledgers.KnownAs(t, o.request)
    {
      assert Ledgers.KnownAs(d.oms, o.request);
    }
  }

  // ----- One market order, sent and worked at once -----

  predicate IsMarket(request: OrderRequest) {
    request.orderType.MARKET? && request.quantity > 0
  }

  lemma DuplicateChangesNothing(cfg: Config, bt: Bt, request: OrderRequest, now: Timestamp)
    requires cfg.Valid() && bt.Valid() && request.idempotencyKey in bt.desk.oms.registry
    ensures Send(cfg, bt, request, now).desk == bt.desk
  {
  }

  lemma AcceptedAlone(d: Ledgers.Desk, opening: Paise, request: OrderRequest)
    requires Quiet(d, opening) && IsMarket(request) && request.idempotencyKey !in d.oms.registry
    ensures PB.Acceptable(d.broker, request)
    ensures PB.Accept(d.broker, request).0.resting ==
            [Order(Venue(d.broker.sequence + 1), request, OPEN, Some(Venue(d.broker.sequence + 1)), 0, None)]
  {
    hide Ledgers.Balanced;
    Ledgers.NewKeyIsFresh(d, opening, request.idempotencyKey);
  }

  /** A market order without a volume cap is filled whole by the first price. */
  lemma MarketOrderFillsWhole(cfg: PB.Config, clock: Timestamp, o: Order, price: nat)
    requires cfg.Valid() && IsMarket(o.request) && o.filledQuantity == 0
    ensures var w := PB.WorkOrder(cfg, clock, o, PB.Quote(o.request.symbol, price, None));
      && !w.rests && w.fill.Some?
      && w.fill.value.symbol == o.request.symbol && w.fill.value.side == o.request.side
      && w.fill.value.quantity == o.request.quantity
  {
    hide PB.ApplySlippage, PB.Turnover;
  }

  lemma OneOrderPass(cfg: PB.Config, clock: Timestamp, o: Order, quote: PB.Quote)
    requires cfg.Valid() && !PB.WorkOrder(cfg, clock, o, quote).rests && PB.WorkOrder(cfg, clock, o, quote).fill.Some?
    ensures PB.WorkQueue(cfg, clock, [o], quote).kept == []
    ensures PB.WorkQueue(cfg, clock, [o], quote).fills == [PB.WorkOrder(cfg, clock, o, quote).fill.value]
  {
    hide PB.WorkOrder;
    assert [o][..0] == [];
    assert PB.WorkQueue(cfg, clock, [], quote) == PB.Pass([], [], []);
  }

  lemma FilledKeepsRegistry(oms: Oms.State, fill: Fill)
    requires oms.Valid() && fill.quantity > 0
    ensures Oms.Filled(oms, fill).0.registry == oms.registry
  {
    hide Oms.AfterFill, Oms.Seen, Oms.FindByBrokerId;
  }

  lemma OneFillDelivered(oms: Oms.State, book: Book, fill: Fill)
    requires oms.Valid() && fill.quantity > 0
    ensures Ledgers.Deliver(oms, [fill]).registry == oms.registry
    ensures Ledgers.BookAll(book, [fill]) == Booked(book, fill)
  {
    hide Oms.Filled, Booked, Oms.State.Valid;
    assert [fill][..0] == [];
    assert Ledgers.BookAll(book, []) == book;
    assert Ledgers.Deliver(oms, []) == oms;
    FilledKeepsRegistry(oms, fill);
  }

  /** A new market order sent and then worked moves the position by exactly its signed quantity. */
  lemma SentIsFilled(cfg: Config, bt: Bt, opening: Paise, request: OrderRequest, now: Timestamp, price: nat)
    requires cfg.Valid() && bt.Valid() && Quiet(bt.desk, opening)
    requires IsMarket(request) && request.idempotencyKey !in bt.desk.oms.registry
    ensures var t := Publish(cfg, Send(cfg, bt, request, now), request.symbol, price);
      && Quiet(t.desk, opening)
      && t.Held(request.symbol) == bt.Held(request.symbol) + Signed(request.side, request.quantity)
      && t.desk.oms.registry.Keys == bt.desk.oms.registry.Keys + {request.idempotencyKey}
  {
    hide Ledgers.Balanced, Oms.Submitted, Oms.State.Valid, PB.WorkQueue, PB.WorkOrder, Booked, Signed, IsMarket;
    var d := bt.desk;
    var quote := PB.Quote(request.symbol, price, None);
    var sent := Ledgers.Step(cfg.broker, cfg.maxRetries, d, Ledgers.Submit(request, now));
    Ledgers.StepBalances(cfg.broker, cfg.maxRetries, d, opening, Ledgers.Submit(request, now));
    Ledgers.NewKeyIsFresh(d, opening, request.idempotencyKey);
    Ledgers.SubmissionPlaces(d.oms, d.broker, request, cfg.maxRetries, now);
    AcceptedAlone(d, opening, request);
    var o := sent.broker.resting[0];
    SubmitKeepsValid(cfg, d, request, now);
    Ledgers.StepBalances(cfg.broker, cfg.maxRetries, sent, opening, Ledgers.Quoted(quote));
    MarketOrderFillsWhole(cfg.broker, sent.broker.clock, o, price);
    OneOrderPass(cfg.broker, sent.broker.clock, o, quote);
    var fill := PB.WorkOrder(cfg.broker, sent.broker.clock, o, quote).fill.value;
    assert Ledgers.Produced(cfg.broker, sent.broker, quote) == [fill];
    PositiveQuantity(request);
    OneFillDelivered(sent.oms, sent.book, fill);
    Ledgers.BookedQuantity(sent.book, fill, request.symbol);
  }

  lemma PositiveQuantity(request: OrderRequest)
    requires IsMarket(request)
    ensures request.quantity > 0
  {
  }

  // ----- The parts of the invariant -----

  /** Keys of stop orders were issued no later than a moment. */
  predicate StopKeysUpTo(keys: set<Key>, t: Timestamp) {
    forall k :: k in keys && k.strategyId == STOP_ID ==> k.decisionBar <= t
  }

  predicate Matches(direction: Direction, held: int) {
    (held > 0 <==> direction.LONG?) && (held < 0 <==> direction.SHORT?)
  }

  /** An open position has a stop on its side. */
  predicate Guarded(held: int, openRisk: Option<OpenRisk>) {
    held != 0 ==> openRisk.Some? && Matches(openRisk.value.direction, held)
  }

  predicate WholeLots(held: int, lotSize: int) {
    lotSize >= 1 && LotFloor(Abs(held), lotSize) == Abs(held)
  }

  predicate OpensOrFlattens(s: Sent) {
    s.request.quantity > 0 && (s.held == 0 || s.held + Signed(s.request.side, s.request.quantity) == 0)
  }

  predicate AllOpenOrFlatten(sent: seq<Sent>) {
    forall i :: 0 <= i < |sent| ==> OpensOrFlattens(sent[i])
  }

  /** What was decided fits what is held: an exact exit, or a guarded entry from flat. */
  predicate PendingFits(p: Pending, symbol: Symbol, held: int) {
    && p.symbol == symbol && p.quantity > 0 && p.strategyId != STOP_ID
    && (if p.direction.FLAT? then held != 0 && held + Signed(p.side, p.quantity) == 0 && p.stop.None?
        else held == 0 && p.stop.Some? && Matches(p.direction, Signed(p.side, p.quantity)))
  }

  /** The stop that guards the bar after a state: a pending entry's own, or the one in force. */
  function StopAhead(bt: Bt): Option<OpenRisk> {
    if bt.pending.Some? && !bt.pending.value.direction.FLAT? && bt.pending.value.stop.Some?
    then Some(OpenRisk(bt.pending.value.stop.value, bt.pending.value.direction))
    else bt.openRisk
  }

  /** What holds inside a bar. */
  ghost predicate Inside(cfg: Config, bt: Bt, opening: Paise, symbol: Symbol) {
    && bt.Valid() && Quiet(bt.desk, opening)
    && Guarded(bt.Held(symbol), bt.openRisk)
    && WholeLots(bt.Held(symbol), cfg.lotSize)
    && AllOpenOrFlatten(bt.sent)
  }

  /** What holds between bars. */
  ghost predicate Between(cfg: Config, bt: Bt, opening: Paise, symbol: Symbol, t: Timestamp) {
    && Inside(cfg, bt, opening, symbol)
    && (bt.Held(symbol) != 0 <==> bt.openRisk.Some?)
    && StopKeysUpTo(bt.desk.oms.registry.Keys, t)
    && (bt.pending.Some? ==> PendingFits(bt.pending.value, symbol, bt.Held(symbol)))
  }

  // ----- Lots -----

  lemma LotFloorSettles(q: int, lotSize: int)
    requires lotSize >= 1
    ensures LotFloor(LotFloor(q, lotSize), lotSize) == LotFloor(q, lotSize)
  {
    var n := q / lotSize;
    var m := n * lotSize;
    DivisionBounds(m, lotSize);
    var k := m / lotSize;
    if k < n {
      StrictProduct(k, n, lotSize);
    } else if n < k {
      StrictProduct(n, k, lotSize);
    }
  }

  lemma LotFloorOfPositive(q: int, lotSize: int)
    requires lotSize >= 1 && q > 0
    ensures 0 <= LotFloor(q, lotSize) <= q
  {
    DivisionBounds(q, lotSize);
    assert q / lotSize >= 0;
    assert (q / lotSize) * lotSize >= 0;
  }

  // ----- The stages of a bar -----

  lemma BeginStage(cfg: Config, bt: Bt, opening: Paise, symbol: Symbol, t: Timestamp, now: Timestamp)
    requires cfg.Valid() && Between(cfg, bt, opening, symbol, t)
    ensures var r := BeginBar(bt, now);
      && Between(cfg, r, opening, symbol, t) && r.desk.oms == bt.desk.oms
      && r.Held(symbol) == bt.Held(symbol) && r.openRisk == bt.openRisk && r.pending == bt.pending && r.sent == bt.sent
  {
    hide Ledgers.Balanced, Oms.State.Valid, Equity, PendingFits, WholeLots, AllOpenOrFlatten, StopKeysUpTo, Guarded;
    ClockKeepsQuiet(cfg, bt.desk, opening, now);
  }

  lemma SentSnoc(sent: seq<Sent>, x: Sent)
    requires AllOpenOrFlatten(sent) && OpensOrFlattens(x)
    ensures AllOpenOrFlatten(sent + [x])
  {
  }

  lemma StopKeysAdd(keys: set<Key>, key: Key, t: Timestamp)
    requires StopKeysUpTo(keys, t) && (key.strategyId == STOP_ID ==> key.decisionBar <= t)
    ensures StopKeysUpTo(keys + {key}, t)
  {
  }

  /** What the submission of a pending order leaves, once it has been worked. */
  lemma PendingStage(cfg: Config, bt: Bt, opening: Paise, symbol: Symbol, t: Timestamp, now: Timestamp, price: nat)
    requires cfg.Valid() && Between(cfg, bt, opening, symbol, t) && bt.pending.Some?
    ensures var p := bt.pending.value;
      var r := Publish(cfg, SubmitPending(cfg, bt, p, now), symbol, price);
      && r.Valid() && Quiet(r.desk, opening) && r.openRisk == bt.openRisk
      && AllOpenOrFlatten(r.sent)
      && StopKeysUpTo(r.desk.oms.registry.Keys, t)
      && (if p.direction.FLAT? then r.Held(symbol) == bt.Held(symbol) || r.Held(symbol) == 0
          else r.Held(symbol) == 0 || (WholeLots(r.Held(symbol), cfg.lotSize) && Matches(p.direction, r.Held(symbol))))
  {
    hide Ledgers.Balanced, Oms.State.Valid, StopKeysUpTo, AllOpenOrFlatten, LotFloor, Publish, Send, Quiet;
    var p := bt.pending.value;
    var quantity := LotFloor(p.quantity, cfg.lotSize);
    PendingQuantity(cfg, p, symbol, bt.Held(symbol));
    if quantity <= 0 {
      QuietPublishChangesNothing(cfg, bt, opening, symbol, price);
    } else {
      var request := Pipelines.MarketOrder(p.strategyId, p.symbol, p.side, quantity, p.decisionBar);
      var sent := Send(cfg, bt, request, now);
      SendShape(cfg, bt, request, now);
      PublishShape(cfg, sent, symbol, price);
      SentSnoc(bt.sent, Sent(bt.Held(symbol), request));
      if request.idempotencyKey in bt.desk.oms.registry {
        DuplicateChangesNothing(cfg, bt, request, now);
        QuietPublishChangesNothing(cfg, sent, opening, symbol, price);
      } else {
        SentIsFilled(cfg, bt, opening, request, now, price);
        StopKeysAdd(bt.desk.oms.registry.Keys, request.idempotencyKey, t);
      }
    }
  }

  lemma SendShape(cfg: Config, bt: Bt, request: OrderRequest, now: Timestamp)
    requires cfg.Valid() && bt.Valid()
    ensures var r := Send(cfg, bt, request, now);
      r == bt.(desk := r.desk, sent := bt.sent + [Sent(bt.Held(request.symbol), request)])
  {
  }

  lemma PublishShape(cfg: Config, bt: Bt, symbol: Symbol, price: nat)
    requires cfg.Valid() && bt.Valid()
    ensures Publish(cfg, bt, symbol, price) == bt.(desk := Publish(cfg, bt, symbol, price).desk)
  {
  }

  /** The quantity actually sent: an exit sends exactly what is held, an entry a whole number of lots. */
  lemma PendingQuantity(cfg: Config, p: Pending, symbol: Symbol, held: int)
    requires cfg.Valid() && PendingFits(p, symbol, held) && WholeLots(held, cfg.lotSize)
    ensures var q := LotFloor(p.quantity, cfg.lotSize);
      && 0 <= q <= p.quantity
      && (p.direction.FLAT? ==> q == p.quantity && held + Signed(p.side, q) == 0)
      && (!p.direction.FLAT? && q > 0 ==> WholeLots(Signed(p.side, q), cfg.lotSize) && Matches(p.direction, Signed(p.side, q)))
  {
    hide LotFloor;
    LotFloorOfPositive(p.quantity, cfg.lotSize);
    LotFloorSettles(p.quantity, cfg.lotSize);
  }

  /** Flat is a whole number of lots. */
  lemma NoLots(lotSize: int)
    requires lotSize >= 1
    ensures WholeLots(0, lotSize)
  {
  }

  /** After the open the stop ahead is in force, and what is held is what was, or was just opened or closed. */
  lemma OpenStage(cfg: Config, bt: Bt, opening: Paise, symbol: Symbol, c: Candle, t: Timestamp)
    requires cfg.Valid() && Quotable(c) && Between(cfg, bt, opening, symbol, t)
    ensures var r := OpenBar(cfg, bt, symbol, c);
      && Inside(cfg, r, opening, symbol) && r.pending.None? && r.openRisk == StopAhead(bt)
      && StopKeysUpTo(r.desk.oms.registry.Keys, t)
      && (bt.Held(symbol) != 0 ==> r.Held(symbol) == bt.Held(symbol) || r.Held(symbol) == 0)
  {
    hide Ledgers.Balanced, Oms.State.Valid, StopKeysUpTo, AllOpenOrFlatten, WholeLots, Publish, SubmitPending;
    QuietPublishChangesNothing(cfg, bt, opening, symbol, c.open);
    NoLots(cfg.lotSize);
    if bt.pending.Some? {
      PendingStage(cfg, bt, opening, symbol, t, c.timestamp, c.open);
      PublishShape(cfg, SubmitPending(cfg, bt, bt.pending.value, c.timestamp), symbol, c.open);
    }
  }

  lemma TouchStage(cfg: Config, bt: Bt, opening: Paise, symbol: Symbol, price: nat)
    requires cfg.Valid() && Inside(cfg, bt, opening, symbol)
    ensures var r := Touch(cfg, bt, symbol, price);
      && Inside(cfg, r, opening, symbol) && r.Held(symbol) == bt.Held(symbol)
      && r == bt.(desk := r.desk) && r.desk.oms == bt.desk.oms
  {
    hide Ledgers.Balanced, Oms.State.Valid, AllOpenOrFlatten, WholeLots, Publish, Guarded;
    QuietPublishChangesNothing(cfg, bt, opening, symbol, price);
    MarkKeepsQuiet(bt.desk, opening, symbol, price);
  }

  lemma StopOrderIsNew(keys: set<Key>, t: Timestamp, now: Timestamp, request: OrderRequest)
    requires StopKeysUpTo(keys, t) && t < now
    requires request.idempotencyKey.strategyId == STOP_ID && request.idempotencyKey.decisionBar == now
    ensures request.idempotencyKey !in keys
  {
  }

  lemma StopKeysLater(keys: set<Key>, t: Timestamp, now: Timestamp)
    requires StopKeysUpTo(keys, t) && t <= now
    ensures StopKeysUpTo(keys, now)
  {
  }

  /**
   * Enforcing a stop: afterwards a position is either untouched, its stop not reached, or closed.
   */
  lemma EnforceStage(cfg: Config, bt: Bt, opening: Paise, symbol: Symbol, price: nat, now: Timestamp, t: Timestamp)
    requires cfg.Valid() && Inside(cfg, bt, opening, symbol) && t < now
    requires StopKeysUpTo(bt.desk.oms.registry.Keys, if bt.openRisk.Some? then t else now)
    ensures var r := EnforceStop(cfg, bt, symbol, price, now);
      && Inside(cfg, r, opening, symbol) && r.pending == bt.pending
      && StopKeysUpTo(r.desk.oms.registry.Keys, if r.openRisk.Some? then t else now)
      && (r.Held(symbol) != 0 <==> r.openRisk.Some?)
      && (r.Held(symbol) != 0 ==>
            && r.Held(symbol) == bt.Held(symbol) && r.openRisk == bt.openRisk
            && !Sizing.IsStopTriggered(price, bt.openRisk.value.stop, bt.openRisk.value.direction))
  {
    hide Ledgers.Balanced, Oms.State.Valid, StopKeysUpTo, AllOpenOrFlatten, WholeLots, Publish, Send, Sizing.IsStopTriggered, Quiet;
    var held := bt.Held(symbol);
    StopKeysSoFar(bt.desk.oms.registry.Keys, bt.openRisk.Some?, t, now);
    NoLots(cfg.lotSize);
    if held != 0 && Sizing.IsStopTriggered(price, bt.openRisk.value.stop, bt.openRisk.value.direction) {
      var request := Pipelines.MarketOrder(STOP_ID, symbol, if held > 0 then SELL else BUY, Abs(held), now);
      StopOrderIsNew(bt.desk.oms.registry.Keys, t, now, request);
      SendShape(cfg, bt, request, now);
      PublishShape(cfg, Send(cfg, bt, request, now), symbol, price);
      SentIsFilled(cfg, bt, opening, request, now, price);
      SentSnoc(bt.sent, Sent(held, request));
      StopKeysAdd(bt.desk.oms.registry.Keys, request.idempotencyKey, now);
    }
  }

  lemma StopKeysSoFar(keys: set<Key>, live: bool, t: Timestamp, now: Timestamp)
    requires StopKeysUpTo(keys, if live then t else now) && t < now
    ensures StopKeysUpTo(keys, now) && (live ==> StopKeysUpTo(keys, t))
  {
  }

  lemma ExtremeStage(cfg: Config, bt: Bt, opening: Paise, symbol: Symbol, price: nat, now: Timestamp, t: Timestamp)
    requires cfg.Valid() && Inside(cfg, bt, opening, symbol) && t < now
    requires StopKeysUpTo(bt.desk.oms.registry.Keys, if bt.openRisk.Some? then t else now)
    ensures var r := Extreme(cfg, bt, symbol, price, now);
      && Inside(cfg, r, opening, symbol) && r.pending == bt.pending
      && StopKeysUpTo(r.desk.oms.registry.Keys, if r.openRisk.Some? then t else now)
      && (r.Held(symbol) != 0 <==> r.openRisk.Some?)
      && (r.Held(symbol) != 0 ==>
            && r.Held(symbol) == bt.Held(symbol) && r.openRisk == bt.openRisk
            && !Sizing.IsStopTriggered(price, bt.openRisk.value.stop, bt.openRisk.value.direction))
  {
    hide Inside, StopKeysUpTo, Touch, EnforceStop, Sizing.IsStopTriggered, Bt.Valid;
    TouchStage(cfg, bt, opening, symbol, price);
    InsideIsValid(cfg, bt, opening, symbol);
    InsideIsValid(cfg, Touch(cfg, bt, symbol, price), opening, symbol);
    EnforceStage(cfg, Touch(cfg, bt, symbol, price), opening, symbol, price, now, t);
  }

  lemma InsideIsValid(cfg: Config, bt: Bt, opening: Paise, symbol: Symbol)
    requires Inside(cfg, bt, opening, symbol)
    ensures bt.Valid()
  {
  }

  /** Neither extreme of a bar reached the stop of a position that survived it. */
  predicate Survived(c: Candle, r: OpenRisk) {
    !Sizing.IsStopTriggered(c.low, r.stop, r.direction) && !Sizing.IsStopTriggered(c.high, r.stop, r.direction)
  }

  lemma ExtremesStage(cfg: Config, bt: Bt, opening: Paise, symbol: Symbol, c: Candle, t: Timestamp)
    requires cfg.Valid() && Quotable(c) && Inside(cfg, bt, opening, symbol) && t < c.timestamp
    requires StopKeysUpTo(bt.desk.oms.registry.Keys, t)
    ensures var r := Extremes(cfg, bt, symbol, c);
      && Inside(cfg, r, opening, symbol) && r.pending == bt.pending
      && StopKeysUpTo(r.desk.oms.registry.Keys, c.timestamp)
      && (r.Held(symbol) != 0 <==> r.openRisk.Some?)
      && (r.Held(symbol) != 0 ==>
            r.Held(symbol) == bt.Held(symbol) && r.openRisk == bt.openRisk && Survived(c, bt.openRisk.value))
  {
    hide Inside, StopKeysUpTo, Extreme, Sizing.IsStopTriggered, Bt.Valid;
    InsideIsValid(cfg, bt, opening, symbol);
    StopKeysLater(bt.desk.oms.registry.Keys, t, c.timestamp);
    var now := c.timestamp;
    var isShort := bt.Held(symbol) < 0;
    var p, q := if isShort then c.high else c.low, if isShort then c.low else c.high;
    var first := Extreme(cfg, bt, symbol, p, now);
    ExtremeStage(cfg, bt, opening, symbol, p, now, t);
    InsideIsValid(cfg, first, opening, symbol);
    ExtremeStage(cfg, first, opening, symbol, q, now, t);
    StopKeysSoFar(Extreme(cfg, first, symbol, q, now).desk.oms.registry.Keys,
                  Extreme(cfg, first, symbol, q, now).openRisk.Some?, t, now);
  }

  lemma TrailedStopTightens(cfg: Config, r: OpenRisk, c: Candle)
    ensures TrailedStop(cfg, r, c).direction == r.direction
    ensures Sizing.AtLeastAsTight(TrailedStop(cfg, r, c).stop, r.stop, r.direction)
  {
    hide RoundHalfUp;
  }

  lemma CloseStage(cfg: Config, bt: Bt, opening: Paise, symbol: Symbol, c: Candle)
    requires cfg.Valid() && Quotable(c) && Inside(cfg, bt, opening, symbol)
    requires bt.Held(symbol) != 0 <==> bt.openRisk.Some?
    ensures var r := CloseBar(cfg, bt, symbol, c);
      && Inside(cfg, r, opening, symbol) && r.Held(symbol) == bt.Held(symbol)
      && r.pending == bt.pending && r.desk.oms == bt.desk.oms
      && (r.Held(symbol) != 0 <==> r.openRisk.Some?)
      && (r.openRisk.Some? ==>
            && r.openRisk.value.direction == bt.openRisk.value.direction
            && Sizing.AtLeastAsTight(r.openRisk.value.stop, bt.openRisk.value.stop, bt.openRisk.value.direction))
  {
    hide Ledgers.Balanced, Oms.State.Valid, AllOpenOrFlatten, WholeLots, Touch, Equity, RecordTrades, TrailedStop, Quiet;
    TouchStage(cfg, bt, opening, symbol, c.close);
    if bt.openRisk.Some? {
      TrailedStopTightens(cfg, bt.openRisk.value, c);
    }
  }

  /**
   * What one bar does to a position that is open when it ends: the stop that was ahead guarded it
   * on its side, neither extreme reached that stop, and the stop left behind is at least as tight.
   */
  predicate BarKeepsGuard(before: Bt, after: Bt, symbol: Symbol, c: Candle) {
    after.Held(symbol) != 0 ==>
      var ahead := StopAhead(before);
      && ahead.Some? && after.openRisk.Some?
      && Matches(ahead.value.direction, after.Held(symbol)) && Survived(c, ahead.value)
      && after.openRisk.value.direction == ahead.value.direction
      && Sizing.AtLeastAsTight(after.openRisk.value.stop, ahead.value.stop, ahead.value.direction)
  }

  /** A position held before and after a bar is the same position, guarded by its own stop. */
  predicate BarKeepsPosition(before: Bt, after: Bt, symbol: Symbol) {
    before.Held(symbol) != 0 && after.Held(symbol) != 0 ==>
      after.Held(symbol) == before.Held(symbol) && StopAhead(before) == before.openRisk
  }

  lemma WalkStage(cfg: Config, bt: Bt, opening: Paise, symbol: Symbol, c: Candle, t: Timestamp)
    requires cfg.Valid() && Quotable(c) && Between(cfg, bt, opening, symbol, t) && t < c.timestamp
    ensures var r := WalkBar(cfg, bt, symbol, c);
      && Between(cfg, r, opening, symbol, c.timestamp) && r.pending.None?
      && BarKeepsGuard(bt, r, symbol, c) && BarKeepsPosition(bt, r, symbol)
  {
    hide Inside, StopKeysUpTo, BeginBar, OpenBar, Extremes, CloseBar, Bt.Valid, Survived, Sizing.AtLeastAsTight, PendingFits;
    InsideIsValid(cfg, bt, opening, symbol);
    var begun := BeginBar(bt, c.timestamp);
    BeginStage(cfg, bt, opening, symbol, t, c.timestamp);
    InsideIsValid(cfg, begun, opening, symbol);
    var quoted := OpenBar(cfg, begun, symbol, c);
    OpenStage(cfg, begun, opening, symbol, c, t);
    InsideIsValid(cfg, quoted, opening, symbol);
    InsideIsGuarded(cfg, quoted, opening, symbol);
    var passed := Extremes(cfg, quoted, symbol, c);
    ExtremesStage(cfg, quoted, opening, symbol, c, t);
    InsideIsValid(cfg, passed, opening, symbol);
    CloseStage(cfg, passed, opening, symbol, c);
    HeldPendingIsAnExit(bt, symbol);
  }

  lemma InsideIsGuarded(cfg: Config, bt: Bt, opening: Paise, symbol: Symbol)
    requires Inside(cfg, bt, opening, symbol)
    ensures Guarded(bt.Held(symbol), bt.openRisk)
  {
  }

  lemma HeldPendingIsAnExit(bt: Bt, symbol: Symbol)
    requires bt.pending.Some? ==> PendingFits(bt.pending.value, symbol, bt.Held(symbol))
    ensures bt.Held(symbol) != 0 ==> StopAhead(bt) == bt.openRisk
  {
  }

  lemma PlanFits(cfg: Config, bt: Bt, symbol: Symbol, signal: Signal, now: Timestamp)
    requires bt.desk.book.Valid() && signal.strategyId != STOP_ID
    ensures var plan := PlanOrder(cfg, bt, symbol, signal, now);
      plan.Success? && plan.value.Some? ==> PendingFits(plan.value.value, symbol, bt.Held(symbol))
  {
    hide Sizing.SizePosition, SizingInput, AccountOf, Risk.Evaluated;
    var held := bt.Held(symbol);
    if !signal.direction.FLAT? && held == 0 && signal.stopLoss.Some? {
      var sizing := Sizing.SizePosition(SizingInput(cfg, bt, signal));
      if sizing.Success? && sizing.value.quantity > 0 {
        var side := if signal.direction.LONG? then BUY else SELL;
        var request := Pipelines.MarketOrder(signal.strategyId, symbol, side, sizing.value.quantity, signal.timestamp);
        Risk.ApprovedIsPositive(cfg.limits, false,
          Risk.Context(request, signal.referencePrice, signal.stopLoss, now, true, false), AccountOf(bt));
      }
    }
  }

  lemma DecideStage(cfg: Config, bt: Bt, opening: Paise, symbol: Symbol, advice: Advice, now: Timestamp)
    requires cfg.Valid() && Between(cfg, bt, opening, symbol, now) && bt.pending.None?
    requires advice.signal.Some? ==> advice.signal.value.strategyId != STOP_ID
    ensures var r := Decide(cfg, bt, symbol, advice, now);
      r.Success? ==>
        && Between(cfg, r.value, opening, symbol, now)
        && r.value.Held(symbol) == bt.Held(symbol) && r.value.openRisk == bt.openRisk
  {
    hide Ledgers.Balanced, Oms.State.Valid, AllOpenOrFlatten, WholeLots, PlanOrder, PendingFits, StopKeysUpTo, Guarded, Oms.Recent, Quiet;
    if advice.signal.Some? && advice.allowed {
      var heard := bt.(signals := bt.signals + [advice.signal.value]);
      var looked := Looked(cfg, heard, now);
      SubmissionsKeepQuiet(bt.desk, opening, Oms.Recent(bt.desk.oms.submissions, now));
      SubmissionsKeepOmsValid(bt.desk.oms, Oms.Recent(bt.desk.oms.submissions, now));
      PlanFits(cfg, looked, symbol, advice.signal.value, now);
    }
  }

  lemma SubmissionsKeepOmsValid(oms: Oms.State, submissions: seq<Timestamp>)
    requires oms.Valid()
    ensures oms.(submissions := submissions).Valid()
  {
  }

  // ----- Whole runs -----

  /** A strategy never signs its signals with the identifier reserved for stops. */
  ghost predicate WellNamed<P(!new)>(strategy: Strategy<P>) {
    forall ctx, p :: strategy.evaluate(ctx, p).Some? ==> strategy.evaluate(ctx, p).value.strategyId != STOP_ID
  }

  predicate Increasing(candles: seq<Candle>) {
    forall i, j :: 0 <= i < j < |candles| ==> candles[i].timestamp < candles[j].timestamp
  }

  lemma AtTheStart(cfg: Config, symbol: Symbol, t: Timestamp)
    requires cfg.Valid()
    ensures Between(cfg, Start(cfg), cfg.openingCash, symbol, t)
  {
    hide Ledgers.Balanced;
    Ledgers.StartBalanced(cfg.openingCash);
    NoLots(cfg.lotSize);
  }

  lemma BarStage(cfg: Config, bt: Bt, opening: Paise, symbol: Symbol, c: Candle, last: bool, advise: Option<Position> -> Advice, t: Timestamp)
    requires cfg.Valid() && Quotable(c) && Between(cfg, bt, opening, symbol, t) && t < c.timestamp
    requires forall p :: advise(p).signal.Some? ==> advise(p).signal.value.strategyId != STOP_ID
    ensures bt.Valid()
    ensures var r := Bar(cfg, bt, symbol, c, last, advise);
      r.Success? ==>
        && Between(cfg, r.value, opening, symbol, c.timestamp)
        && BarKeepsGuard(bt, r.value, symbol, c) && BarKeepsPosition(bt, r.value, symbol)
  {
    hide Inside, StopKeysUpTo, WalkBar, Decide, Bt.Valid, Survived, Sizing.AtLeastAsTight, StopAhead, PendingFits, Matches;
    InsideIsValid(cfg, bt, opening, symbol);
    WalkStage(cfg, bt, opening, symbol, c, t);
    var walked := WalkBar(cfg, bt, symbol, c);
    InsideIsValid(cfg, walked, opening, symbol);
    if !last {
      DecideKeepsValid(cfg, walked, symbol, advise(PositionOf(walked.desk.book, symbol)), c.timestamp);
      DecideStage(cfg, walked, opening, symbol, advise(PositionOf(walked.desk.book, symbol)), c.timestamp);
    }
  }

  /**
   * After every bar of every run over strictly later bars: a position is open exactly when a stop is
   * set on its side, every order ever sent opened from flat or flattened exactly, the position is a
   * whole number of lots, and nothing is left resting at the broker.
   */
  lemma {:induction false} EveryBarIsGuarded<P(!new)>(cfg: Config, strategy: Strategy<P>, gate: Gate, candles: seq<Candle>, n: nat)
    requires cfg.Valid() && candles != [] && AllQuotable(candles) && n <= |candles|
    requires Increasing(candles) && WellNamed(strategy)
    ensures var r := Run(cfg, strategy, gate, candles, n);
      r.Success? ==>
        Between(cfg, r.value, cfg.openingCash, candles[0].symbol,
                if n == 0 then candles[0].timestamp - 1 else candles[n - 1].timestamp)
  {
    hide Between, Bar;
    var symbol := candles[0].symbol;
    if n == 0 {
      AtTheStart(cfg, symbol, candles[0].timestamp - 1);
    } else {
      EveryBarIsGuarded(cfg, strategy, gate, candles, n - 1);
      var before := Run(cfg, strategy, gate, candles, n - 1);
      if before.Success? {
        BarStage(cfg, before.value, cfg.openingCash, symbol, candles[n - 1], n == |candles|,
                 Advisor(strategy, gate, candles, symbol, n - 1),
                 if n == 1 then candles[0].timestamp - 1 else candles[n - 2].timestamp);
      }
    }
  }

  /**
   * Across any bar of a run: a position open at its end was guarded during the whole bar by a stop
   * on its side that neither extreme reached, and stops only tighten while the position lives.
   */
  lemma StopsGuardEveryBar<P(!new)>(cfg: Config, strategy: Strategy<P>, gate: Gate, candles: seq<Candle>, n: nat)
    requires cfg.Valid() && candles != [] && AllQuotable(candles) && n < |candles|
    requires Increasing(candles) && WellNamed(strategy)
    ensures var before, after := Run(cfg, strategy, gate, candles, n), Run(cfg, strategy, gate, candles, n + 1);
      after.Success? ==>
        && before.Success?
        && BarKeepsGuard(before.value, after.value, candles[0].symbol, candles[n])
        && BarKeepsPosition(before.value, after.value, candles[0].symbol)
  {
    hide Between, Bar, BarKeepsGuard, BarKeepsPosition;
    var symbol := candles[0].symbol;
    EveryBarIsGuarded(cfg, strategy, gate, candles, n);
    var before := Run(cfg, strategy, gate, candles, n);
    if before.Success? {
      BarStage(cfg, before.value, cfg.openingCash, symbol, candles[n], n + 1 == |candles|,
               Advisor(strategy, gate, candles, symbol, n),
               if n == 0 then candles[0].timestamp - 1 else candles[n - 1].timestamp);
    }
  }
}
