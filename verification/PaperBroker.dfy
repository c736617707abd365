// The simulated exchange: resting orders, matching against published prices, partial fills.
module PaperBrokers {
  import opened Money
  import opened Domain
  import opened Averages
  import Costs

  datatype Config = Config(slippage: real, schedule: Costs.Schedule, participation: real)
  {
    /** Slippage is a fraction: a market order never sells below zero. */
    predicate Valid() {
      0.0 <= slippage <= 1.0
    }
  }

  /** Orders rest in the order they were accepted. */
  datatype State = State(
    resting: seq<Order>,
    completed: map<Id, Order>,
    seenKeys: map<Key, Id>,
    fills: seq<Fill>,
    clock: Timestamp,
    sequence: nat,
    cash: Paise)

  function Fresh(openingCash: Paise): State {
    State([], map[], map[], [], 0, 0, openingCash)
  }

  // ----- Prices -----

  /** A price moved against a side by a fraction of itself, to the paisa, and on to the next tick against it. */
  predicate Slipped(fraction: real, side: Side, price: Paise, r: Paise) {
    && r % TICK_SIZE_PAISE == 0
    && if side.BUY? then
         price as real * (1.0 + fraction) - 0.5 <= r as real < price as real * (1.0 + fraction) + 0.5 + TICK_SIZE_PAISE as real
       else
         price as real * (1.0 - fraction) - 0.5 - (TICK_SIZE_PAISE as real) < r as real <= price as real * (1.0 - fraction) + 0.5
  }

  lemma SlipsByFraction(price: Paise, fraction: real)
    ensures price as real * (1.0 + fraction) == price as real + price as real * fraction
    ensures price as real * (1.0 - fraction) == price as real - price as real * fraction
  {
  }

  /** A market order trades at a price moved against it, then snapped to the grid against it. */
  function ApplySlippage(cfg: Config, price: Paise, side: Side): (r: Paise)
    requires cfg.Valid() && price >= 0
    ensures Slipped(cfg.slippage, side, price, r)
    ensures r >= 0
    ensures side.BUY? ==> r >= price
    ensures side.SELL? ==> r <= price
    ensures r % TICK_SIZE_PAISE == 0
  {
    MulRateAtMost(price, cfg.slippage);
    SlipsByFraction(price, cfg.slippage);
    var drift := MulRate(price, cfg.slippage);
    if side.BUY? then RoundToTick(price + drift, Up) else RoundToTick(price - drift, Down)
  }

  /** The price an order would trade at, if it would trade. */
  function ResolveFillPrice(cfg: Config, request: OrderRequest, price: Paise): (r: Option<Paise>)
    requires cfg.Valid() && price >= 0
    ensures r.Some? ==> r.value >= 0
    ensures r.Some? ==> WithinLimit(request, r.value)
    ensures r.Some? <==> Trades(request, price)
    ensures r.Some? ==> FairPrice(cfg.slippage, request, price, r.value)
    ensures r.Some? && request.orderType.LIMIT? ==> request.limitPrice.Some? && price != request.limitPrice.value
  {
    match request.orderType
    case MARKET => Some(ApplySlippage(cfg, price, request.side))
    case LIMIT =>
      if request.limitPrice.None? then None
      else if request.side.BUY? && price < request.limitPrice.value then Some(RoundToTick(price, Down))
      else if request.side.SELL? && price > request.limitPrice.value then Some(RoundToTick(price, Up))
      else None
    case STOP =>
      if Triggered(request, price) then Some(ApplySlippage(cfg, price, request.side)) else None
    case STOP_LIMIT =>
      if request.limitPrice.None? || !Triggered(request, price) then None
      else if request.side.BUY? && price <= request.limitPrice.value then Some(RoundToTick(price, Down))
      else if request.side.SELL? && price >= request.limitPrice.value then Some(RoundToTick(price, Up))
      else None
  }

  predicate Triggered(request: OrderRequest, price: Paise) {
    && request.triggerPrice.Some?
    && if request.side.BUY? then price >= request.triggerPrice.value else price <= request.triggerPrice.value
  }

  /** Whether an order would trade at a price at all: a limit is traded through, a stop's limit only touched. */
  predicate Trades(request: OrderRequest, price: Paise) {
    match request.orderType
    case MARKET => true
    case LIMIT =>
      && request.limitPrice.Some?
      && if request.side.BUY? then price < request.limitPrice.value else price > request.limitPrice.value
    case STOP => Triggered(request, price)
    case STOP_LIMIT =>
      && request.limitPrice.Some? && Triggered(request, price)
      && if request.side.BUY? then price <= request.limitPrice.value else price >= request.limitPrice.value
  }

  /** The price an order gets from a published one: slipped at the market, within a tick in its favour at a limit. */
  predicate FairPrice(fraction: real, request: OrderRequest, price: Paise, r: Paise) {
    if request.orderType.MARKET? || request.orderType.STOP? then Slipped(fraction, request.side, price, r)
    else
      && r % TICK_SIZE_PAISE == 0
      && if request.side.BUY? then r <= price < r + TICK_SIZE_PAISE else r - TICK_SIZE_PAISE < price <= r
  }

  /** A price a limit order may trade at. Orders without a limit accept any price. */
  predicate WithinLimit(request: OrderRequest, price: Paise) {
    (request.orderType.LIMIT? || request.orderType.STOP_LIMIT?) && request.limitPrice.Some? ==>
      if request.side.BUY? then price <= request.limitPrice.value else price >= request.limitPrice.value
  }

  // ----- Working one order against a price -----

  /** Shares one order may take from a bar. No volume means no cap. */
  function Capacity(cfg: Config, remaining: int, volume: Option<nat>): (r: int)
    ensures volume.None? ==> r == remaining
    ensures volume.Some? && cfg.participation >= 0.0 ==>
              0 <= r && r as real <= volume.value as real * cfg.participation < r as real + 1.0
  {
    if volume.None? then remaining
    else Max(0, (volume.value as real * cfg.participation).Floor)
  }

  /** The order afterwards, whether it still rests, and what it traded. */
  datatype Worked = Worked(order: Order, rests: bool, fill: Option<Fill>)

  datatype Quote = Quote(symbol: Symbol, price: nat, volume: Option<nat>)

  /** The quote is for the order's symbol at a price the order would trade at. */
  predicate Attempted(cfg: Config, order: Order, quote: Quote)
    requires cfg.Valid()
  {
    order.request.symbol == quote.symbol && ResolveFillPrice(cfg, order.request, quote.price).Some?
  }

  function WorkOrder(cfg: Config, clock: Timestamp, order: Order, quote: Quote): (w: Worked)
    requires cfg.Valid()
    ensures w.order.id == order.id && w.order.request == order.request
    ensures w.fill.Some? ==> w.fill.value.orderId == order.id && w.fill.value.quantity > 0
    ensures w.fill.Some? ==> w.fill.value.quantity <= order.request.quantity - order.filledQuantity
    ensures w.order.filledQuantity == order.filledQuantity + if w.fill.Some? then w.fill.value.quantity else 0
    ensures w.fill.Some? ==> (w.order.status.FILLED? <==> w.order.filledQuantity == order.request.quantity)
    ensures !w.rests <==> (w.fill.Some? && w.order.status.FILLED?)
                          || (order.request.timeInForce.IOC? && Attempted(cfg, order, quote))
    ensures w.fill.None? ==> w.order == order.(status := w.order.status) && (w.rests ==> w.order == order)
  {
    var request := order.request;
    var fillPrice := ResolveFillPrice(cfg, request, quote.price);
    if request.symbol != quote.symbol || fillPrice.None? then Worked(order, true, None)
    else
      var remaining := request.quantity - order.filledQuantity;
      var quantity := Min(remaining, Capacity(cfg, remaining, quote.volume));
      if quantity <= 0 then
        if request.timeInForce.IOC? then
          Worked(order.(status := if order.filledQuantity > 0 then PARTIALLY_FILLED else CANCELLED), false, None)
        else Worked(order, true, None)
      else
        var fill := Execution(cfg, clock, order, quantity, fillPrice.value);
        var filled := order.filledQuantity + quantity;
        var average := if order.averageFillPrice.Some? then order.averageFillPrice.value else 0;
        var updated := order.(
          status := if filled >= request.quantity then FILLED else PARTIALLY_FILLED,
          filledQuantity := filled,
          averageFillPrice := Some(Blend(average, order.filledQuantity, quantity, fillPrice.value)));
        Worked(updated, !(updated.status.FILLED? || request.timeInForce.IOC?), Some(fill))
  }

  function Execution(cfg: Config, clock: Timestamp, order: Order, quantity: int, price: Paise): Fill
    requires quantity > 0 && price >= 0
  {
    var turnover := Turnover(quantity, price);
    Fill(order.id, None, order.request.symbol, order.request.side, quantity, price, clock,
         Costs.ComputeCosts(turnover, order.request.side, order.request.product, cfg.schedule).Total())
  }

  function Turnover(quantity: int, price: Paise): (t: Paise)
    requires quantity > 0 && price >= 0
    ensures t >= 0
  {
    quantity * price
  }

  // ----- The book of orders -----

  /** What working a queue of orders leaves resting, completes, and trades, each in queue order. */
  datatype Pass = Pass(kept: seq<Order>, done: seq<Order>, fills: seq<Fill>)

  function Extend(pass: Pass, w: Worked): Pass {
    Pass(if w.rests then pass.kept + [w.order] else pass.kept,
         if w.rests then pass.done else pass.done + [w.order],
         if w.fill.Some? then pass.fills + [w.fill.value] else pass.fills)
  }

  function WorkQueue(cfg: Config, clock: Timestamp, orders: seq<Order>, quote: Quote): (pass: Pass)
    requires cfg.Valid()
    ensures forall f :: f in pass.fills ==> f.quantity > 0
  {
    if orders == [] then Pass([], [], [])
    else
      var last := |orders| - 1;
      Extend(WorkQueue(cfg, clock, orders[..last], quote), WorkOrder(cfg, clock, orders[last], quote))
  }

  function Archive(completed: map<Id, Order>, done: seq<Order>): map<Id, Order> {
    if done == [] then completed
    else
      var last := |done| - 1;
      Archive(completed, done[..last])[done[last].id := done[last]]
  }

  function CashFlows(fills: seq<Fill>): int {
    if fills == [] then 0 else CashFlows(fills[..|fills| - 1]) + CashFlow(fills[|fills| - 1])
  }

  lemma EmptyPass(completed: map<Id, Order>)
    ensures Archive(completed, []) == completed && CashFlows([]) == 0
  {
  }

  lemma ExtendPass(completed: map<Id, Order>, pass: Pass, w: Worked)
    ensures var p := Extend(pass, w);
      && p.kept == pass.kept + (if w.rests then [w.order] else [])
      && p.fills == pass.fills + (if w.fill.Some? then [w.fill.value] else [])
      && Archive(completed, p.done) == (if w.rests then Archive(completed, pass.done) else Archive(completed, pass.done)[w.order.id := w.order])
      && CashFlows(p.fills) == CashFlows(pass.fills) + (if w.fill.Some? then CashFlow(w.fill.value) else 0)
  {
    hide CashFlow;
    assert (pass.done + [w.order])[..|pass.done|] == pass.done;
    if w.fill.Some? {
      assert (pass.fills + [w.fill.value])[..|pass.fills|] == pass.fills;
    }
  }

  /** Publishing a price works every resting order for the symbol. */
  function Publish(cfg: Config, s: State, quote: Quote): State
    requires cfg.Valid()
  {
    var pass := WorkQueue(cfg, s.clock, s.resting, quote);
    s.(resting := pass.kept,
       completed := Archive(s.completed, pass.done),
       fills := s.fills + pass.fills,
       cash := s.cash + CashFlows(pass.fills))
  }

  predicate Acceptable(s: State, request: OrderRequest) {
    && request.idempotencyKey !in s.seenKeys
    && request.quantity > 0
    && (request.orderType.LIMIT? || request.orderType.STOP_LIMIT? ==> request.limitPrice.Some?)
    && (request.orderType.STOP? || request.orderType.STOP_LIMIT? ==> request.triggerPrice.Some?)
  }

  /** An order is acknowledged here, never filled; a key is accepted at most once. */
  function Accept(s: State, request: OrderRequest): (State, Reply) {
    if !Acceptable(s, request) then (s, Refused(false))
    else
      var id := Venue(s.sequence + 1);
      (s.(sequence := s.sequence + 1,
          seenKeys := s.seenKeys[request.idempotencyKey := id],
          resting := s.resting + [Order(id, request, OPEN, Some(id), 0, None)]),
       Ack(id))
  }

  function IndexOf(orders: seq<Order>, id: Id): (i: nat)
    ensures i <= |orders|
    ensures i < |orders| ==> orders[i].id == id
    ensures forall k :: 0 <= k < i ==> orders[k].id != id
  {
    if orders == [] || orders[0].id == id then 0 else 1 + IndexOf(orders[1..], id)
  }

  predicate IsResting(s: State, id: Id) {
    IndexOf(s.resting, id) < |s.resting|
  }

  /** Only a resting order can be cancelled; anything else is refused. */
  function Cancelled(s: State, id: Id): State {
    var i := IndexOf(s.resting, id);
    if i == |s.resting| then s
    else s.(resting := s.resting[..i] + s.resting[i + 1..],
            completed := s.completed[id := s.resting[i].(status := CANCELLED)])
  }

  function Find(s: State, id: Id): Option<Order> {
    var i := IndexOf(s.resting, id);
    if i < |s.resting| then Some(s.resting[i])
    else if id in s.completed then Some(s.completed[id])
    else None
  }

  // ----- The object -----

  class PaperBroker {
    const cfg: Config
    var resting: seq<Order>
    var completed: map<Id, Order>
    var seenKeys: map<Key, Id>
    var fills: seq<Fill>
    var clock: Timestamp
    var sequence: nat
    var cash: Paise

    ghost function Model(): State
      reads this
    {
      State(resting, completed, seenKeys, fills, clock, sequence, cash)
    }

    ghost predicate Valid()
      reads this
    {
      cfg.Valid()
    }

    constructor (cfg: Config, openingCash: Paise)
      requires cfg.Valid()
      ensures this.cfg == cfg
      ensures Valid() && Model() == Fresh(openingCash)
    {
      this.cfg := cfg;
      resting, completed, seenKeys, fills := [], map[], map[], [];
      clock, sequence, cash := 0, 0, openingCash;
    }

    method SetClock(timestamp: Timestamp)
      modifies this`clock
      ensures Model() == old(Model()).(clock := timestamp)
    {
      clock := timestamp;
    }

    method Submit(request: OrderRequest) returns (reply: Reply)
      requires Valid()
      modifies this
      ensures Valid() && (Model(), reply) == Accept(old(Model()), request)
    {
      if request.idempotencyKey in seenKeys {
        return Refused(false);
      }
      if request.quantity <= 0 {
        return Refused(false);
      }
      if (request.orderType.LIMIT? || request.orderType.STOP_LIMIT?) && request.limitPrice.None? {
        return Refused(false);
      }
      if (request.orderType.STOP? || request.orderType.STOP_LIMIT?) && request.triggerPrice.None? {
        return Refused(false);
      }
      sequence := sequence + 1;
      var id := Venue(sequence);
      seenKeys := seenKeys[request.idempotencyKey := id];
      resting := resting + [Order(id, request, OPEN, Some(id), 0, None)];
      return Ack(id);
    }

    method Cancel(id: Id) returns (ok: bool)
      requires Valid()
      modifies this
      ensures Valid() && Model() == Cancelled(old(Model()), id)
      ensures ok <==> IsResting(old(Model()), id)
    {
      var i := IndexOf(resting, id);
      if i == |resting| {
        return false;
      }
      completed := completed[id := resting[i].(status := CANCELLED)];
      resting := resting[..i] + resting[i + 1..];
      return true;
    }

    method SetPrice(quote: Quote) returns (produced: seq<Fill>)
      requires Valid()
      modifies this
      ensures Valid() && Model() == Publish(cfg, old(Model()), quote)
      ensures produced == WorkQueue(cfg, old(clock), old(resting), quote).fills
    {
      produced := WorkRestingOrders(quote);
    }

    /** Works the resting orders one at a time, in the order they were accepted. */
    method WorkRestingOrders(quote: Quote) returns (produced: seq<Fill>)
      requires Valid()
      modifies this`fills, this`cash, this`resting, this`completed
      ensures var pass := WorkQueue(cfg, clock, old(resting), quote);
        && produced == pass.fills
        && resting == pass.kept
        && completed == Archive(old(completed), pass.done)
        && fills == old(fills) + pass.fills
        && cash == old(cash) + CashFlows(pass.fills)
    {
      hide WorkOrder, CashFlow, Extend, Archive, CashFlows;
      produced := [];
      var snapshot := resting;
      var kept: seq<Order> := [];
      ghost var pass := Pass([], [], []);
      EmptyPass(completed);
      for i := 0 to |snapshot|
        invariant pass == WorkQueue(cfg, clock, snapshot[..i], quote)
        invariant kept == pass.kept && produced == pass.fills
        invariant resting == kept + snapshot[i..]
        invariant completed == Archive(old(completed), pass.done)
        invariant fills == old(fills) + pass.fills
        invariant cash == old(cash) + CashFlows(pass.fills)
      {
        assert snapshot[..i + 1][..i] == snapshot[..i];
        var w := WorkOne(snapshot[i], quote);
        ExtendPass(old(completed), pass, w);
        kept := Record(w, kept, snapshot[i + 1..]);
        produced := produced + if w.fill.Some? then [w.fill.value] else [];
        pass := Extend(pass, w);
      }
      assert snapshot[..|snapshot|] == snapshot;
    }

    /** Files one worked order: its execution and cash, then the shelf it now belongs on. */
    method Record(w: Worked, kept: seq<Order>, waiting: seq<Order>) returns (resting': seq<Order>)
      modifies this`fills, this`cash, this`resting, this`completed
      ensures fills == old(fills) + if w.fill.Some? then [w.fill.value] else []
      ensures cash == old(cash) + if w.fill.Some? then CashFlow(w.fill.value) else 0
      ensures resting' == kept + if w.rests then [w.order] else []
      ensures resting == resting' + waiting
      ensures completed == if w.rests then old(completed) else old(completed)[w.order.id := w.order]
    {
      if w.fill.Some? {
        fills := fills + [w.fill.value];
        cash := cash + CashFlow(w.fill.value);
      }
      resting' := kept;
      if w.rests {
        resting' := kept + [w.order];
      } else {
        completed := completed[w.order.id := w.order];
      }
      resting := resting' + waiting;
    }

    /** One order against one price. */
    method WorkOne(order: Order, quote: Quote) returns (w: Worked)
      requires cfg.Valid()
      ensures w == WorkOrder(cfg, clock, order, quote)
    {
      hide Blend, Turnover, Costs.ComputeCosts, ResolveFillPrice;
      var request := order.request;
      if request.symbol != quote.symbol {
        return Worked(order, true, None);
      }
      var fillPrice := ResolveFillPrice(cfg, request, quote.price);
      if fillPrice.None? {
        return Worked(order, true, None);
      }
      var remaining := request.quantity - order.filledQuantity;
      var capacity := remaining;
      if quote.volume.Some? {
        capacity := Max(0, (quote.volume.value as real * cfg.participation).Floor);
      }
      var quantity := Min(remaining, capacity);
      if quantity <= 0 {
        if request.timeInForce.IOC? {
          var status := if order.filledQuantity > 0 then PARTIALLY_FILLED else CANCELLED;
          return Worked(order.(status := status), false, None);
        }
        return Worked(order, true, None);
      }
      var turnover := Turnover(quantity, fillPrice.value);
      var costs := Costs.ComputeCosts(turnover, request.side, request.product, cfg.schedule);
      var fill := Fill(order.id, None, quote.symbol, request.side, quantity, fillPrice.value, clock, costs.Total());
      var filledQuantity := order.filledQuantity + quantity;
      var previousAverage := 0;
      if order.averageFillPrice.Some? {
        previousAverage := order.averageFillPrice.value;
      }
      var average := Blend(previousAverage, order.filledQuantity, quantity, fillPrice.value);
      var status := if filledQuantity >= request.quantity then FILLED else PARTIALLY_FILLED;
      var updated := order.(status := status, filledQuantity := filledQuantity, averageFillPrice := Some(average));
      return Worked(updated, !(updated.status.FILLED? || request.timeInForce.IOC?), Some(fill));
    }
  }
}
