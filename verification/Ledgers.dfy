// Three ledgers of the same money: the broker's, the order manager's and the portfolio's.
// Executions flow from the broker to the other two exactly as the backtest wires them.
module Ledgers {
  import opened Money
  import opened Domain
  import opened Averages
  import opened Portfolios
  import PB = PaperBrokers
  import Runs = PaperBrokerRuns
  import Oms

  datatype Desk = Desk(broker: PB.State, oms: Oms.State, book: Book)

  datatype Event =
    | Submit(request: OrderRequest, now: Timestamp)
    | Cancel(id: Id)
    | Clock(timestamp: Timestamp)
    | Quoted(quote: PB.Quote)

  /** The order manager after a batch of executions, delivered one by one. */
  ghost function Deliver(oms: Oms.State, fills: seq<Fill>): (r: Oms.State)
    requires oms.Valid() && PositiveFills(fills)
    ensures r.Valid()
  {
    if fills == [] then oms
    else
      var before := Deliver(oms, fills[..|fills| - 1]);
      Oms.FilledKeepsValid(before, fills[|fills| - 1]);
      Oms.Filled(before, fills[|fills| - 1]).0
  }

  function BookAll(book: Book, fills: seq<Fill>): Book {
    if fills == [] then book else Booked(BookAll(book, fills[..|fills| - 1]), fills[|fills| - 1])
  }

  ghost function Open(cash: Paise): Desk {
    Desk(PB.Fresh(cash), Oms.Empty, Opening(cash))
  }

  function Produced(cfg: PB.Config, b: PB.State, quote: PB.Quote): seq<Fill>
    requires cfg.Valid()
  {
    PB.WorkQueue(cfg, b.clock, b.resting, quote).fills
  }

  ghost function Step(cfg: PB.Config, maxRetries: nat, d: Desk, e: Event): Desk
    requires cfg.Valid() && d.oms.Valid()
  {
    match e
    case Submit(request, now) =>
      var (oms, broker, _) := Oms.Submitted(d.oms, d.broker, request, maxRetries, now);
      Desk(broker, oms, d.book)
    case Cancel(id) =>
      var (oms, broker, _) := Oms.CancelOrder(d.oms, d.broker, id);
      Desk(broker, oms, d.book)
    case Clock(timestamp) => d.(broker := d.broker.(clock := timestamp))
    case Quoted(quote) =>
      var fills := Produced(cfg, d.broker, quote);
      Desk(PB.Publish(cfg, d.broker, quote), Deliver(d.oms, fills), BookAll(d.book, fills))
  }

  // ----- Cash and positions -----

  /** Shares of a symbol bought less shares sold. */
  function NetBought(fills: seq<Fill>, symbol: Symbol): int {
    if fills == [] then 0
    else
      var last := fills[|fills| - 1];
      NetBought(fills[..|fills| - 1], symbol) + if last.symbol == symbol then Signed(last.side, last.quantity) else 0
  }

  lemma {:induction false} NetBoughtAppend(a: seq<Fill>, b: seq<Fill>, symbol: Symbol)
    ensures NetBought(a + b, symbol) == NetBought(a, symbol) + NetBought(b, symbol)
  {
    if b == [] {
      assert a + b == a;
    } else {
      assert (a + b)[..|a + b| - 1] == a + b[..|b| - 1];
      NetBoughtAppend(a, b[..|b| - 1], symbol);
    }
  }

  lemma BookedQuantity(b: Book, fill: Fill, symbol: Symbol)
    requires fill.quantity > 0
    ensures Booked(b, fill).Quantity(symbol) ==
            b.Quantity(symbol) + if fill.symbol == symbol then Signed(fill.side, fill.quantity) else 0
    ensures Booked(b, fill).cash == b.cash + CashFlow(fill)
  {
  }

  lemma {:induction false} BookAllTotals(book: Book, fills: seq<Fill>, symbol: Symbol)
    requires PositiveFills(fills)
    ensures BookAll(book, fills).cash == book.cash + PB.CashFlows(fills)
    ensures BookAll(book, fills).Quantity(symbol) == book.Quantity(symbol) + NetBought(fills, symbol)
  {
    if fills != [] {
      hide Booked, CashFlow;
      BookAllTotals(book, fills[..|fills| - 1], symbol);
      BookedQuantity(BookAll(book, fills[..|fills| - 1]), fills[|fills| - 1], symbol);
    }
  }

  ghost predicate SameMoney(b: PB.State, book: Book) {
    book.cash == b.cash && forall s :: book.Quantity(s) == NetBought(b.fills, s)
  }

  lemma QuoteKeepsMoney(cfg: PB.Config, d: Desk, quote: PB.Quote)
    requires cfg.Valid() && SameMoney(d.broker, d.book)
    ensures SameMoney(PB.Publish(cfg, d.broker, quote), BookAll(d.book, Produced(cfg, d.broker, quote)))
  {
    hide BookAll, PB.WorkQueue, PB.CashFlows, NetBought;
    var fills := Produced(cfg, d.broker, quote);
    forall s
      ensures BookAll(d.book, fills).Quantity(s) == NetBought(d.broker.fills + fills, s)
    {
      BookAllTotals(d.book, fills, s);
      NetBoughtAppend(d.broker.fills, fills, s);
    }
    BookAllTotals(d.book, fills, "");
  }

  // ----- The order manager's mirror of the broker -----

  /** What is left of a list of executions when repeats of time, quantity and price are dropped. */
  function Folded(fills: seq<Fill>): (r: seq<Fill>)
    ensures |r| <= |fills|
    ensures PositiveFills(fills) ==> PositiveFills(r)
  {
    if fills == [] then []
    else
      var before := Folded(fills[..|fills| - 1]);
      if Oms.Seen(before, fills[|fills| - 1]) then before else before + [fills[|fills| - 1]]
  }

  /** No two executions share time, quantity and price. */
  predicate NoRepeats(fills: seq<Fill>) {
    forall i, j :: 0 <= i < j < |fills| ==> !Oms.SameExecution(fills[i], fills[j])
  }

  lemma NoRepeatsSnoc(before: seq<Fill>, last: Fill)
    ensures NoRepeats(before + [last]) <==> NoRepeats(before) && !Oms.Seen(before, last)
  {
    var fills := before + [last];
    assert forall i :: 0 <= i < |before| ==> fills[i] == before[i];
    if NoRepeats(fills) {
      forall i | 0 <= i < |before|
        ensures !Oms.SameExecution(before[i], last)
      {
        assert !Oms.SameExecution(fills[i], fills[|before|]);
      }
      forall i, j | 0 <= i < j < |before|
        ensures !Oms.SameExecution(before[i], before[j])
      {
        assert !Oms.SameExecution(fills[i], fills[j]);
      }
    }
  }

  lemma {:induction false} NoRepeatsFoldWhole(fills: seq<Fill>)
    ensures NoRepeats(fills) <==> Folded(fills) == fills
    ensures Folded(fills) != fills ==> |Folded(fills)| < |fills|
  {
    hide NoRepeats, Oms.Seen;
    if fills == [] {
      NoRepeatsEmpty();
    } else {
      var before, last := fills[..|fills| - 1], fills[|fills| - 1];
      NoRepeatsFoldWhole(before);
      NoRepeatsSnoc(before, last);
      assert fills == before + [last];
      if Folded(before) == before {
        assert Folded(fills) == if Oms.Seen(before, last) then before else fills;
      }
    }
  }

  lemma NoRepeatsEmpty()
    ensures NoRepeats([])
  {
  }

  /** Folding can only lower the filled quantity, and lowers it exactly when something repeats. */
  lemma {:induction false} FoldedQuantity(fills: seq<Fill>)
    requires PositiveFills(fills)
    ensures FilledQuantity(Folded(fills)) <= FilledQuantity(fills)
    ensures FilledQuantity(Folded(fills)) == FilledQuantity(fills) <==> Folded(fills) == fills
  {
    if fills != [] {
      var before, last := fills[..|fills| - 1], fills[|fills| - 1];
      FoldedQuantity(before);
      assert fills == before + [last];
      if !Oms.Seen(Folded(before), last) {
        assert (Folded(before) + [last])[..|Folded(before)|] == Folded(before);
      }
    }
  }

  function StatusFor(filled: int, quantity: int): OrderStatus {
    if filled == 0 then OPEN else if filled >= quantity then FILLED else PARTIALLY_FILLED
  }

  /**
   * One order of the order manager against the executions delivered so far: refused orders never
   * reached the broker; the others carry exactly their folded executions.
   */
  ghost predicate Mirrored(oms: Oms.State, seen: map<Key, Id>, done: set<Id>, delivered: seq<Fill>, p: Id)
    requires p in oms.orders
  {
    var o := oms.orders[p];
    var key := o.request.idempotencyKey;
    var fills := Oms.FillsOf(oms, p);
    && p == Oms.IdFor(key) && key in oms.registry
    && PositiveFills(fills)
    && o.filledQuantity == FilledQuantity(fills)
    && o.averageFillPrice == RecordedAverage(fills)
    && (o.brokerOrderId.None? ==> o.status.REJECTED? && fills == [] && key !in seen)
    && (o.brokerOrderId.Some? ==>
          && key in seen && seen[key] == o.brokerOrderId.value
          && fills == Folded(Runs.FillsFor(delivered, seen[key]))
          && (o.status == StatusFor(o.filledQuantity, o.request.quantity) || (o.status.CANCELLED? && seen[key] in done)))
  }

  ghost predicate Mirrors(oms: Oms.State, seen: map<Key, Id>, done: set<Id>, delivered: seq<Fill>) {
    && oms.Valid()
    && oms.fills.Keys <= oms.orders.Keys
    && (forall k :: k in oms.registry ==> oms.registry[k] == Oms.IdFor(k))
    && (forall k :: k in seen ==> Oms.IdFor(k) in oms.orders && seen[k].Venue?)
    && (forall k, l :: k in seen && l in seen && seen[k] == seen[l] ==> k == l)
    && (forall p :: p in oms.orders ==> Mirrored(oms, seen, done, delivered, p))
  }

  lemma FindsItsOrder(oms: Oms.State, seen: map<Key, Id>, done: set<Id>, delivered: seq<Fill>, k: Key)
    requires Mirrors(oms, seen, done, delivered) && k in seen
    ensures Oms.Lookup(oms, seen[k]) == Some(Oms.IdFor(k))
    ensures oms.orders[Oms.IdFor(k)].brokerOrderId == Some(seen[k])
    ensures oms.orders[Oms.IdFor(k)].request.idempotencyKey == k
  {
    hide Folded, Runs.FillsFor, StatusFor;
    var p := Oms.IdFor(k);
    assert Mirrored(oms, seen, done, delivered, p);
    forall q | q in oms.orders
      ensures q.Platform?
    {
      assert Mirrored(oms, seen, done, delivered, q);
    }
    var found := Oms.FindByBrokerId(oms.ids, oms.orders, seen[k]);
    assert p in oms.ids;
    assert Mirrored(oms, seen, done, delivered, found.value);
  }

  /** What folding one more execution does to the folded list of its own order. */
  lemma FoldNext(delivered: seq<Fill>, f: Fill)
    requires PositiveFills(Runs.FillsFor(delivered, f.orderId)) && f.quantity > 0
    ensures var before := Folded(Runs.FillsFor(delivered, f.orderId));
      && Folded(Runs.FillsFor(delivered + [f], f.orderId)) == (if Oms.Seen(before, f) then before else before + [f])
      && 0 <= FilledQuantity(before) <= FilledQuantity(Runs.FillsFor(delivered, f.orderId))
      && FilledQuantity(before + [f]) == FilledQuantity(before) + f.quantity
      && PositiveFills(before)
      && RecordedAverage(before + [f]) == Some(Blend(RunningAverage(before), FilledQuantity(before), f.quantity, f.price))
      && (before == [] ==> RunningAverage(before) == 0)
      && (before != [] ==> FilledQuantity(before) > 0)
  {
    hide Blend, Oms.Seen;
    Runs.FillsForAppend(delivered, f, f.orderId);
    var all := Runs.FillsFor(delivered, f.orderId);
    assert (all + [f])[..|all|] == all;
    FoldedQuantity(all);
    var before := Folded(all);
    FilledQuantityPositive(before);
    assert (before + [f])[..|before|] == before;
  }

  /** An execution of the order of a key that does not overfill it. */
  predicate HasRoom(oms: Oms.State, seen: map<Key, Id>, delivered: seq<Fill>, k: Key, f: Fill) {
    && k in seen && f.orderId == seen[k] && f.quantity > 0
    && Oms.IdFor(k) in oms.orders
    && PositiveFills(Runs.FillsFor(delivered, f.orderId))
    && FilledQuantity(Runs.FillsFor(delivered, f.orderId)) + f.quantity <= oms.orders[Oms.IdFor(k)].request.quantity
  }

  lemma FilledCases(oms: Oms.State, f: Fill, p: Id)
    requires oms.Valid() && f.quantity > 0 && Oms.Lookup(oms, f.orderId) == Some(p)
    requires Oms.Moves(oms.orders[p].status, Oms.AfterFill(oms.orders[p], f).status)
    ensures Oms.Filled(oms, f) == if Oms.Seen(Oms.FillsOf(oms, p), f) then (oms, None) else (Taken(oms, f, p), None)
  {
    hide Blend, Oms.Lookup, Oms.Seen;
    Oms.AfterFillKeepsIdentity(oms, f);
  }

  function Taken(oms: Oms.State, f: Fill, p: Id): Oms.State
    requires p in oms.orders && f.quantity > 0
  {
    oms.(fills := oms.fills[p := Oms.FillsOf(oms, p) + [f]],
         orders := oms.orders[p := Oms.AfterFill(oms.orders[p], f)])
  }

  lemma NextStatus(filled: nat, wanted: int, more: int)
    requires more > 0 && filled + more <= wanted
    ensures Oms.Moves(StatusFor(filled, wanted), StatusFor(filled + more, wanted))
    ensures StatusFor(filled + more, wanted) == if filled + more >= wanted then FILLED else PARTIALLY_FILLED
  {
  }

  /** An order that takes an execution in, or has it already, mirrors the broker up to it. */
  lemma TakenMirrored(oms: Oms.State, seen: map<Key, Id>, done: set<Id>, delivered: seq<Fill>, k: Key, f: Fill)
    requires HasRoom(oms, seen, delivered, k, f) && f.orderId !in done
    requires Mirrored(oms, seen, done, delivered, Oms.IdFor(k))
    requires oms.orders[Oms.IdFor(k)].brokerOrderId == Some(seen[k]) && oms.orders[Oms.IdFor(k)].request.idempotencyKey == k
    ensures Oms.Moves(oms.orders[Oms.IdFor(k)].status, Oms.AfterFill(oms.orders[Oms.IdFor(k)], f).status)
    ensures Oms.Seen(Oms.FillsOf(oms, Oms.IdFor(k)), f) ==> Mirrored(oms, seen, done, delivered + [f], Oms.IdFor(k))
    ensures !Oms.Seen(Oms.FillsOf(oms, Oms.IdFor(k)), f) ==>
              Mirrored(Taken(oms, f, Oms.IdFor(k)), seen, done, delivered + [f], Oms.IdFor(k))
  {
    hide Blend, Oms.Seen, Folded, Runs.FillsFor, FilledQuantity, RunningAverage, Oms.Moves, StatusFor;
    FoldNext(delivered, f);
    var p := Oms.IdFor(k);
    var o, fills := oms.orders[p], Oms.FillsOf(oms, p);
    NextStatus(o.filledQuantity, o.request.quantity, f.quantity);
    assert o.filledQuantity + f.quantity <= o.request.quantity;
    assert o.status == StatusFor(o.filledQuantity, o.request.quantity);
    if !Oms.Seen(fills, f) {
      assert PositiveFills(fills + [f]);
      assert o.averageFillPrice == RecordedAverage(fills);
      assert Oms.FillsOf(Taken(oms, f, p), p) == fills + [f];
    }
  }

  /** Every other order is untouched, and so still mirrors the broker. */
  lemma OthersMirrored(oms: Oms.State, t: Oms.State, seen: map<Key, Id>, done: set<Id>, delivered: seq<Fill>, f: Fill, p: Id)
    requires p in oms.orders && p in t.orders && t.orders[p] == oms.orders[p]
    requires Oms.FillsOf(t, p) == Oms.FillsOf(oms, p) && t.registry == oms.registry
    requires oms.orders[p].request.idempotencyKey in seen ==> seen[oms.orders[p].request.idempotencyKey] != f.orderId
    requires Mirrored(oms, seen, done, delivered, p)
    ensures Mirrored(t, seen, done, delivered + [f], p)
  {
    hide Folded, StatusFor, Oms.FillsOf, Runs.FillsFor;
    var key := oms.orders[p].request.idempotencyKey;
    if key in seen {
      Runs.FillsForAppend(delivered, f, seen[key]);
    }
  }

  lemma DeliverOne(oms: Oms.State, seen: map<Key, Id>, done: set<Id>, delivered: seq<Fill>, k: Key, f: Fill)
    requires Mirrors(oms, seen, done, delivered) && HasRoom(oms, seen, delivered, k, f) && f.orderId !in done
    ensures f.quantity > 0 && Oms.Filled(oms, f).1.None?
    ensures Mirrors(Oms.Filled(oms, f).0, seen, done, delivered + [f])
    ensures forall q :: q in oms.orders && q != Oms.IdFor(k) ==>
              q in Oms.Filled(oms, f).0.orders && Oms.Filled(oms, f).0.orders[q] == oms.orders[q]
  {
    hide Mirrored, Oms.Filled, Oms.Lookup, Oms.Seen, Oms.AfterFill, Oms.State.Valid, Oms.FillsOf, Oms.Moves, FilledQuantity, Runs.FillsFor;
    var p := Oms.IdFor(k);
    FindsItsOrder(oms, seen, done, delivered, k);
    assert Mirrored(oms, seen, done, delivered, p);
    TakenMirrored(oms, seen, done, delivered, k, f);
    FilledCases(oms, f, p);
    Oms.FilledKeepsValid(oms, f);
    var t := Oms.Filled(oms, f).0;
    assert t.orders.Keys == oms.orders.Keys && t.registry == oms.registry;
    forall q | q in t.orders
      ensures Mirrored(t, seen, done, delivered + [f], q)
    {
      if q != p {
        OtherOrder(oms, seen, done, delivered, f, k, q);
        OthersMirrored(oms, t, seen, done, delivered, f, q);
      }
    }
  }

  lemma OtherOrder(oms: Oms.State, seen: map<Key, Id>, done: set<Id>, delivered: seq<Fill>, f: Fill, k: Key, q: Id)
    requires Mirrors(oms, seen, done, delivered) && HasRoom(oms, seen, delivered, k, f)
    requires q in oms.orders && q != Oms.IdFor(k)
    ensures Mirrored(oms, seen, done, delivered, q)
    ensures oms.orders[q].request.idempotencyKey in seen ==> seen[oms.orders[q].request.idempotencyKey] != f.orderId
    ensures Oms.FillsOf(Taken(oms, f, Oms.IdFor(k)), q) == Oms.FillsOf(oms, q)
  {
    hide Folded, StatusFor, Runs.FillsFor, FilledQuantity;
    assert Mirrored(oms, seen, done, delivered, q);
  }

  lemma SameRequestsAfterFill(oms: Oms.State, f: Fill)
    requires oms.Valid() && f.quantity > 0
    ensures Oms.Filled(oms, f).0.orders.Keys == oms.orders.Keys
    ensures forall p :: p in oms.orders ==> Oms.Filled(oms, f).0.orders[p].request == oms.orders[p].request
  {
    hide Blend, Oms.FindByBrokerId;
  }

  // ----- What a quote does to the broker's orders -----

  predicate BrokerOrder(b: PB.State, o: Order) {
    o in b.resting || (o.id in b.completed && b.completed[o.id] == o)
  }

  ghost predicate WorkedFrom(cfg: PB.Config, clock: Timestamp, orders: seq<Order>, quote: PB.Quote, o: Order)
    requires cfg.Valid()
  {
    exists i :: 0 <= i < |orders| && o == PB.WorkOrder(cfg, clock, orders[i], quote).order
  }

  predicate ExecutedFrom(orders: seq<Order>, f: Fill) {
    exists i :: 0 <= i < |orders| && orders[i].id == f.orderId
  }

  /** Working a queue only updates its orders, and executes only for them. */
  lemma {:induction false} WorkedOrdersAreOld(cfg: PB.Config, clock: Timestamp, orders: seq<Order>, quote: PB.Quote)
    requires cfg.Valid()
    ensures var pass := PB.WorkQueue(cfg, clock, orders, quote);
      && (forall o :: o in pass.kept || o in pass.done ==> WorkedFrom(cfg, clock, orders, quote, o))
      && (forall f :: f in pass.fills ==> ExecutedFrom(orders, f))
  {
    if orders != [] {
      hide PB.WorkOrder;
      var n := |orders| - 1;
      WorkedOrdersAreOld(cfg, clock, orders[..n], quote);
      var before := PB.WorkQueue(cfg, clock, orders[..n], quote);
      var pass := PB.WorkQueue(cfg, clock, orders, quote);
      assert pass == PB.Extend(before, PB.WorkOrder(cfg, clock, orders[n], quote));
      forall o | o in pass.kept || o in pass.done
        ensures WorkedFrom(cfg, clock, orders, quote, o)
      {
        if o in before.kept || o in before.done {
          assert WorkedFrom(cfg, clock, orders[..n], quote, o);
          var i :| 0 <= i < n && o == PB.WorkOrder(cfg, clock, orders[..n][i], quote).order;
          assert orders[i] == orders[..n][i];
        } else {
          assert o == PB.WorkOrder(cfg, clock, orders[n], quote).order;
        }
      }
      forall f | f in pass.fills
        ensures ExecutedFrom(orders, f)
      {
        if f in before.fills {
          assert ExecutedFrom(orders[..n], f);
          var i :| 0 <= i < n && orders[..n][i].id == f.orderId;
          assert orders[i] == orders[..n][i];
        } else {
          assert orders[n].id == f.orderId;
        }
      }
    }
  }

  lemma {:induction false} ArchivedOrder(completed: map<Id, Order>, done: seq<Order>, id: Id)
    requires id in PB.Archive(completed, done)
    ensures PB.Archive(completed, done)[id] in done || (id in completed && PB.Archive(completed, done)[id] == completed[id])
    ensures (forall o :: o in done ==> o.id != id) ==> id in completed && PB.Archive(completed, done)[id] == completed[id]
  {
    if done != [] && done[|done| - 1].id != id {
      ArchivedOrder(completed, done[..|done| - 1], id);
    }
  }

  lemma {:induction false} ArchiveKeepsKeys(completed: map<Id, Order>, done: seq<Order>)
    ensures completed.Keys <= PB.Archive(completed, done).Keys
  {
    if done != [] {
      ArchiveKeepsKeys(completed, done[..|done| - 1]);
    }
  }

  /** Every order after a quote is a worked resting order or an untouched completed one. */
  lemma QuotedOrder(cfg: PB.Config, b: PB.State, opening: Paise, quote: PB.Quote, o: Order)
    requires cfg.Valid() && Runs.Sound(b, opening) && BrokerOrder(PB.Publish(cfg, b, quote), o)
    ensures WorkedFrom(cfg, b.clock, b.resting, quote, o) || (o.id in b.completed && o == b.completed[o.id])
  {
    hide PB.WorkOrder;
    WorkedOrdersAreOld(cfg, b.clock, b.resting, quote);
    if o !in PB.Publish(cfg, b, quote).resting {
      ArchivedOrder(b.completed, PB.WorkQueue(cfg, b.clock, b.resting, quote).done, o.id);
    }
  }

  /** The broker and the order manager agree on what each order asked for. */
  ghost predicate SameRequests(b: PB.State, oms: Oms.State) {
    forall o :: BrokerOrder(b, o) ==> KnownAs(oms, o.request)
  }

  predicate KnownAs(oms: Oms.State, request: OrderRequest) {
    && Oms.IdFor(request.idempotencyKey) in oms.orders
    && oms.orders[Oms.IdFor(request.idempotencyKey)].request == request
  }

  lemma QuoteKeepsRequests(cfg: PB.Config, b: PB.State, opening: Paise, oms: Oms.State, quote: PB.Quote)
    requires cfg.Valid() && Runs.Sound(b, opening) && SameRequests(b, oms)
    ensures SameRequests(PB.Publish(cfg, b, quote), oms)
  {
    hide PB.Publish, PB.WorkOrder, KnownAs;
    var t := PB.Publish(cfg, b, quote);
    forall o | BrokerOrder(t, o)
      ensures KnownAs(oms, o.request)
    {
      QuotedOrder(cfg, b, opening, quote, o);
      if WorkedFrom(cfg, b.clock, b.resting, quote, o) {
        var i :| 0 <= i < |b.resting| && o == PB.WorkOrder(cfg, b.clock, b.resting[i], quote).order;
        assert BrokerOrder(b, b.resting[i]);
      } else {
        assert BrokerOrder(b, b.completed[o.id]);
      }
    }
  }

  lemma {:induction false} FillsForPrefix(fills: seq<Fill>, n: nat, id: Id)
    requires n <= |fills|
    ensures Runs.FillsFor(fills[..n], id) <= Runs.FillsFor(fills, id)
    decreases |fills| - n
  {
    if n == |fills| {
      assert fills[..n] == fills;
    } else {
      FillsForPrefix(fills, n + 1, id);
      assert fills[..n + 1] == fills[..n] + [fills[n]];
      Runs.FillsForAppend(fills[..n], fills[n], id);
    }
  }

  lemma {:induction false} PrefixQuantity(fills: seq<Fill>, n: nat)
    requires PositiveFills(fills) && n <= |fills|
    ensures FilledQuantity(fills[..n]) <= FilledQuantity(fills)
  {
    if n < |fills| {
      PrefixQuantity(fills[..|fills| - 1], n);
      assert fills[..|fills| - 1][..n] == fills[..n];
    } else {
      assert fills[..n] == fills;
    }
  }

  lemma OrderOfKey(b: PB.State, opening: Paise, k: Key) returns (o: Order)
    requires Runs.Sound(b, opening) && k in b.seenKeys
    ensures BrokerOrder(b, o) && o.id == b.seenKeys[k] && o.request.idempotencyKey == k && Runs.SoundOrder(o, b)
  {
    hide Runs.MatchesFills;
    assert Runs.Registered(b, k);
    var id := b.seenKeys[k];
    if id in b.completed {
      assert Runs.Done(b, id);
      o := b.completed[id];
    } else {
      var i := PB.IndexOf(b.resting, id);
      assert Runs.Rests(b, b.resting[i]);
      o := b.resting[i];
    }
  }

  lemma PartOfWhole(some: seq<Fill>, f: Fill, all: seq<Fill>)
    requires PositiveFills(all) && some + [f] <= all
    ensures PositiveFills(some) && FilledQuantity(some) + f.quantity <= FilledQuantity(all)
  {
    var upto := some + [f];
    assert all[..|upto|] == upto && upto[..|some|] == some;
    PrefixQuantity(all, |upto|);
    forall g | g in some
      ensures g.quantity > 0
    {
      assert g in upto && g in all;
    }
  }

  /** Before its last delivery an order has room for what is still to come. */
  lemma RoomForFill(b: PB.State, opening: Paise, k: Key, n: nat)
    requires Runs.Sound(b, opening) && k in b.seenKeys && n < |b.fills| && b.fills[n].orderId == b.seenKeys[k]
    ensures PositiveFills(Runs.FillsFor(b.fills[..n], b.seenKeys[k]))
    ensures exists o :: BrokerOrder(b, o) && o.request.idempotencyKey == k
              && FilledQuantity(Runs.FillsFor(b.fills[..n], b.seenKeys[k])) + b.fills[n].quantity <= o.request.quantity
  {
    hide Runs.Sound, FilledQuantity, Runs.FillsFor, RunningAverage, BrokerOrder;
    var o := OrderOfKey(b, opening, k);
    assert b.fills[..n + 1] == b.fills[..n] + [b.fills[n]];
    Runs.FillsForAppend(b.fills[..n], b.fills[n], b.seenKeys[k]);
    FillsForPrefix(b.fills, n + 1, b.seenKeys[k]);
    PartOfWhole(Runs.FillsFor(b.fills[..n], b.seenKeys[k]), b.fills[n], Runs.FillsFor(b.fills, b.seenKeys[k]));
  }

  /** The order manager `t`, grown out of `oms`, mirrors the broker up to `delivered`. */
  ghost predicate Follows(oms: Oms.State, t: Oms.State, b: PB.State, delivered: seq<Fill>) {
    && Mirrors(t, b.seenKeys, b.completed.Keys, delivered)
    && t.orders.Keys == oms.orders.Keys
    && (forall p :: p in oms.orders ==> t.orders[p].request == oms.orders[p].request)
  }

  lemma FollowsNext(cfg: PB.Config, b: PB.State, opening: Paise, oms: Oms.State, quote: PB.Quote, n: nat, t: Oms.State)
    requires cfg.Valid() && Runs.Sound(b, opening) && SameRequests(b, oms) && n < |Produced(cfg, b, quote)|
    requires t.Valid() && Follows(oms, t, b, b.fills + Produced(cfg, b, quote)[..n])
    ensures var f := Produced(cfg, b, quote)[n];
      f.quantity > 0 && Follows(oms, Oms.Filled(t, f).0, b, b.fills + Produced(cfg, b, quote)[..n] + [f])
  {
    hide Mirrors, Runs.Sound, PB.WorkQueue, Oms.Filled, Oms.State.Valid, SameRequests, FilledQuantity, Runs.FillsFor;
    var f := Produced(cfg, b, quote)[n];
    var delivered := b.fills + Produced(cfg, b, quote)[..n];
    var k := NextFillFits(cfg, b, opening, oms, quote, n);
    assert HasRoom(t, b.seenKeys, delivered, k, f);
    hide HasRoom;
    DeliverOne(t, b.seenKeys, b.completed.Keys, delivered, k, f);
    SameRequestsAfterFill(t, f);
  }

  /** Delivering the executions of a quote, up to any point, mirrors the broker up to that point. */
  lemma {:induction false} DeliverMirrors(cfg: PB.Config, b: PB.State, opening: Paise, oms: Oms.State, quote: PB.Quote, n: nat)
    requires cfg.Valid() && Runs.Sound(b, opening) && SameRequests(b, oms) && oms.Valid()
    requires Mirrors(oms, b.seenKeys, b.completed.Keys, b.fills)
    requires n <= |Produced(cfg, b, quote)|
    ensures Follows(oms, Deliver(oms, Produced(cfg, b, quote)[..n]), b, b.fills + Produced(cfg, b, quote)[..n])
  {
    hide Mirrors, Runs.Sound, PB.WorkQueue, Oms.Filled, Oms.State.Valid, SameRequests;
    var fills := Produced(cfg, b, quote);
    if n == 0 {
      assert b.fills + fills[..0] == b.fills;
    } else {
      hide Follows;
      var t := Deliver(oms, fills[..n - 1]);
      DeliverMirrors(cfg, b, opening, oms, quote, n - 1);
      FollowsNext(cfg, b, opening, oms, quote, n - 1, t);
      assert fills[..n][..n - 1] == fills[..n - 1];
      assert b.fills + fills[..n] == b.fills + fills[..n - 1] + [fills[n - 1]];
    }
  }

  /** The next execution of a quote belongs to a known order that still has room for it. */
  lemma NextFillFits(cfg: PB.Config, b: PB.State, opening: Paise, oms: Oms.State, quote: PB.Quote, n: nat) returns (k: Key)
    requires cfg.Valid() && Runs.Sound(b, opening) && SameRequests(b, oms)
    requires n < |Produced(cfg, b, quote)|
    ensures var f, delivered := Produced(cfg, b, quote)[n], b.fills + Produced(cfg, b, quote)[..n];
      f.orderId !in b.completed && HasRoom(oms, b.seenKeys, delivered, k, f)
  {
    hide PB.WorkQueue, PB.Archive, Runs.Sound, SameRequests, BrokerOrder;
    var fills := Produced(cfg, b, quote);
    var after := PB.Publish(cfg, b, quote);
    Runs.PublishSound(cfg, b, opening, quote);
    QuoteKeepsRequests(cfg, b, opening, oms, quote);
    k := KeyOfFill(cfg, b, opening, quote, n);
    assert after.fills == b.fills + fills && after.seenKeys == b.seenKeys;
    var m := |b.fills| + n;
    assert after.fills[m] == fills[n] && after.fills[..m] == b.fills + fills[..n];
    RoomForFill(after, opening, k, m);
    var o :| BrokerOrder(after, o) && o.request.idempotencyKey == k
             && FilledQuantity(Runs.FillsFor(after.fills[..m], fills[n].orderId)) + fills[n].quantity <= o.request.quantity;
    RequestKnown(after, oms, o);
  }

  lemma RequestKnown(b: PB.State, oms: Oms.State, o: Order)
    requires SameRequests(b, oms) && BrokerOrder(b, o)
    ensures KnownAs(oms, o.request)
  {
  }

  /** Every execution of a quote belongs to an order that was resting, hence not yet done. */
  lemma KeyOfFill(cfg: PB.Config, b: PB.State, opening: Paise, quote: PB.Quote, n: nat) returns (k: Key)
    requires cfg.Valid() && Runs.Sound(b, opening) && n < |Produced(cfg, b, quote)|
    ensures k in b.seenKeys && b.seenKeys[k] == Produced(cfg, b, quote)[n].orderId
    ensures Produced(cfg, b, quote)[n].orderId !in b.completed && Produced(cfg, b, quote)[n].quantity > 0
  {
    hide PB.WorkOrder, Runs.MatchesFills;
    WorkedOrdersAreOld(cfg, b.clock, b.resting, quote);
    var f := Produced(cfg, b, quote)[n];
    assert ExecutedFrom(b.resting, f);
    var i :| 0 <= i < |b.resting| && b.resting[i].id == f.orderId;
    assert Runs.Rests(b, b.resting[i]);
    k := b.resting[i].request.idempotencyKey;
  }

  // ----- The whole desk -----

  ghost predicate Balanced(d: Desk, opening: Paise) {
    && Runs.Sound(d.broker, opening)
    && SameMoney(d.broker, d.book)
    && Mirrors(d.oms, d.broker.seenKeys, d.broker.completed.Keys, d.broker.fills)
    && SameRequests(d.broker, d.oms)
  }

  lemma WiderDone(oms: Oms.State, seen: map<Key, Id>, done: set<Id>, wider: set<Id>, delivered: seq<Fill>)
    requires Mirrors(oms, seen, done, delivered) && done <= wider
    ensures Mirrors(oms, seen, wider, delivered)
  {
    hide Folded, StatusFor, Runs.FillsFor, Oms.FillsOf;
    forall p | p in oms.orders
      ensures Mirrored(oms, seen, wider, delivered, p)
    {
      assert Mirrored(oms, seen, done, delivered, p);
    }
  }

  lemma QuoteBalances(cfg: PB.Config, maxRetries: nat, d: Desk, opening: Paise, quote: PB.Quote)
    requires cfg.Valid() && Balanced(d, opening) && d.oms.Valid()
    ensures Balanced(Step(cfg, maxRetries, d, Quoted(quote)), opening)
  {
    hide Runs.Sound, Mirrors, PB.WorkQueue, PB.Archive, Oms.State.Valid, SameRequests, SameMoney;
    var b := d.broker;
    var fills := Produced(cfg, b, quote);
    var after := PB.Publish(cfg, b, quote);
    var t := Deliver(d.oms, fills);
    Runs.PublishSound(cfg, b, opening, quote);
    QuoteKeepsMoney(cfg, d, quote);
    DeliverMirrors(cfg, b, opening, d.oms, quote, |fills|);
    assert fills[..|fills|] == fills;
    ArchiveKeepsKeys(b.completed, PB.WorkQueue(cfg, b.clock, b.resting, quote).done);
    WiderDone(t, b.seenKeys, b.completed.Keys, after.completed.Keys, after.fills);
    QuoteKeepsRequests(cfg, b, opening, d.oms, quote);
    RequestsCarryOver(after, d.oms, t);
  }

  lemma RequestsCarryOver(b: PB.State, oms: Oms.State, t: Oms.State)
    requires SameRequests(b, oms) && t.orders.Keys == oms.orders.Keys
    requires forall p :: p in oms.orders ==> t.orders[p].request == oms.orders[p].request
    ensures SameRequests(b, t)
  {
    forall o | BrokerOrder(b, o)
      ensures KnownAs(t, o.request)
    {
      assert KnownAs(oms, o.request);
    }
  }

  // ----- Submissions -----

  /** Where a submission of a new key leads: acknowledged and open, or refused. */
  function Placed(oms: Oms.State, b: PB.State, request: OrderRequest, now: Timestamp): Oms.State {
    var key := request.idempotencyKey;
    var p := Oms.IdFor(key);
    var ok := PB.Acceptable(b, request);
    oms.(ids := oms.ids + [p],
         orders := oms.orders[p := Order(p, request, if ok then OPEN else REJECTED,
                                         if ok then Some(Venue(b.sequence + 1)) else None, 0, None)],
         registry := oms.registry[key := p],
         submissions := if ok then oms.submissions + [now] else oms.submissions)
  }

  lemma SubmissionPlaces(oms: Oms.State, b: PB.State, request: OrderRequest, maxRetries: nat, now: Timestamp)
    requires request.idempotencyKey !in oms.registry && Oms.IdFor(request.idempotencyKey) !in oms.orders
    ensures var (oms', b', _) := Oms.Submitted(oms, b, request, maxRetries, now);
      oms' == Placed(oms, b, request, now) && b' == PB.Accept(b, request).0
  {
    hide PB.Acceptable;
  }

  lemma NewKeyIsFresh(d: Desk, opening: Paise, key: Key)
    requires Balanced(d, opening) && key !in d.oms.registry
    ensures Oms.IdFor(key) !in d.oms.orders && key !in d.broker.seenKeys && Oms.FillsOf(d.oms, Oms.IdFor(key)) == []
  {
    hide Folded, StatusFor, Runs.FillsFor, FilledQuantity, Runs.Sound, SameMoney, SameRequests;
    forall q | q in d.oms.orders
      ensures q == Oms.IdFor(d.oms.orders[q].request.idempotencyKey)
      ensures d.oms.orders[q].request.idempotencyKey in d.oms.registry
    {
      assert Mirrored(d.oms, d.broker.seenKeys, d.broker.completed.Keys, d.broker.fills, q);
    }
  }

  lemma NoFillsYet(b: PB.State, opening: Paise)
    requires Runs.Sound(b, opening)
    ensures Runs.FillsFor(b.fills, Venue(b.sequence + 1)) == []
  {
    hide Runs.Rests, Runs.Done, Runs.Registered, PB.CashFlows;
    Runs.FillsForNone(b.fills, Venue(b.sequence + 1));
  }

  lemma MirroredEach(oms: Oms.State, seen: map<Key, Id>, done: set<Id>, delivered: seq<Fill>, p: Id)
    requires Mirrors(oms, seen, done, delivered) && p in oms.orders
    ensures Mirrored(oms, seen, done, delivered, p)
  {
  }

  lemma PlacedMirrored(d: Desk, opening: Paise, request: OrderRequest, now: Timestamp, p: Id)
    requires Balanced(d, opening) && request.idempotencyKey !in d.oms.registry
    requires p in Placed(d.oms, d.broker, request, now).orders
    ensures Mirrored(Placed(d.oms, d.broker, request, now), PB.Accept(d.broker, request).0.seenKeys,
                     d.broker.completed.Keys, d.broker.fills, p)
  {
    hide Mirrors, Runs.Sound, SameMoney, SameRequests, Folded, Runs.FillsFor, FilledQuantity, RunningAverage, PB.Acceptable;
    NewKeyIsFresh(d, opening, request.idempotencyKey);
    if p == Oms.IdFor(request.idempotencyKey) {
      EmptyLists();
      NoFillsYet(d.broker, opening);
    } else {
      MirroredEach(d.oms, d.broker.seenKeys, d.broker.completed.Keys, d.broker.fills, p);
    }
  }

  lemma EmptyLists()
    ensures Folded([]) == [] && FilledQuantity([]) == 0 && RecordedAverage([]) == None
  {
  }

  lemma IssuedSoFar(b: PB.State, opening: Paise, k: Key)
    requires Runs.Sound(b, opening) && k in b.seenKeys
    ensures b.seenKeys[k].Venue? && b.seenKeys[k].number <= b.sequence
  {
    hide Runs.Rests, Runs.Done, PB.CashFlows;
    assert Runs.Registered(b, k);
  }

  lemma SubmitMirrors(d: Desk, opening: Paise, request: OrderRequest, now: Timestamp)
    requires Balanced(d, opening) && request.idempotencyKey !in d.oms.registry
    ensures Mirrors(Placed(d.oms, d.broker, request, now), PB.Accept(d.broker, request).0.seenKeys,
                    d.broker.completed.Keys, d.broker.fills)
  {
    hide Mirrored, Runs.Sound, PB.Acceptable, SameMoney, SameRequests;
    var key := request.idempotencyKey;
    var t := Placed(d.oms, d.broker, request, now);
    var seen := PB.Accept(d.broker, request).0.seenKeys;
    NewKeyIsFresh(d, opening, key);
    forall p | p in t.orders
      ensures Mirrored(t, seen, d.broker.completed.Keys, d.broker.fills, p)
    {
      PlacedMirrored(d, opening, request, now, p);
    }
    forall k | k in d.broker.seenKeys
      ensures d.broker.seenKeys[k].Venue? && d.broker.seenKeys[k].number <= d.broker.sequence
    {
      IssuedSoFar(d.broker, opening, k);
    }
  }

  lemma SubmitKeepsRequests(d: Desk, opening: Paise, request: OrderRequest, now: Timestamp)
    requires Balanced(d, opening) && request.idempotencyKey !in d.oms.registry
    ensures SameRequests(PB.Accept(d.broker, request).0, Placed(d.oms, d.broker, request, now))
  {
    hide Mirrors, Runs.Sound, PB.Acceptable, SameMoney;
    NewKeyIsFresh(d, opening, request.idempotencyKey);
    var t := PB.Accept(d.broker, request).0;
    forall o | BrokerOrder(t, o)
      ensures KnownAs(Placed(d.oms, d.broker, request, now), o.request)
    {
      if BrokerOrder(d.broker, o) {
        assert KnownAs(d.oms, o.request);
      }
    }
  }

  lemma SubmitBalances(cfg: PB.Config, maxRetries: nat, d: Desk, opening: Paise, request: OrderRequest, now: Timestamp)
    requires cfg.Valid() && Balanced(d, opening) && d.oms.Valid()
    ensures Balanced(Step(cfg, maxRetries, d, Submit(request, now)), opening)
  {
    hide Oms.State.Valid, Mirrors, Runs.Sound, SameRequests, PB.Acceptable;
    if request.idempotencyKey !in d.oms.registry {
      NewKeyIsFresh(d, opening, request.idempotencyKey);
      SubmissionPlaces(d.oms, d.broker, request, maxRetries, now);
      hide Oms.Submitted;
      Runs.AcceptSound(d.broker, opening, request);
      SubmitMirrors(d, opening, request, now);
      SubmitKeepsRequests(d, opening, request, now);
    }
  }

  // ----- Cancellations -----

  function CancelledOms(oms: Oms.State, id: Id): Oms.State
    requires id in oms.orders
  {
    oms.(orders := oms.orders[id := oms.orders[id].(status := CANCELLED)])
  }

  lemma CancelMirrored(oms: Oms.State, seen: map<Key, Id>, done: set<Id>, delivered: seq<Fill>, id: Id, p: Id)
    requires id in oms.orders && p in oms.orders && oms.orders[id].brokerOrderId.Some?
    requires Mirrored(oms, seen, done, delivered, p)
    ensures Mirrored(CancelledOms(oms, id), seen, done + {oms.orders[id].brokerOrderId.value}, delivered, p)
  {
    hide Folded, Runs.FillsFor, FilledQuantity, StatusFor, RunningAverage;
    assert Oms.FillsOf(CancelledOms(oms, id), p) == Oms.FillsOf(oms, p);
  }

  lemma CancelMirrors(oms: Oms.State, seen: map<Key, Id>, done: set<Id>, delivered: seq<Fill>, id: Id)
    requires Mirrors(oms, seen, done, delivered) && id in oms.orders && oms.orders[id].brokerOrderId.Some?
    ensures Mirrors(CancelledOms(oms, id), seen, done + {oms.orders[id].brokerOrderId.value}, delivered)
  {
    hide Mirrored;
    forall p | p in oms.orders
      ensures Mirrored(CancelledOms(oms, id), seen, done + {oms.orders[id].brokerOrderId.value}, delivered, p)
    {
      CancelMirrored(oms, seen, done, delivered, id, p);
    }
  }

  lemma CancelKeepsRequests(b: PB.State, oms: Oms.State, id: Id, updated: Order)
    requires SameRequests(b, oms) && updated.id in oms.orders && updated.request == oms.orders[updated.id].request
    ensures SameRequests(PB.Cancelled(b, id), oms.(orders := oms.orders[updated.id := updated]))
  {
    var t := PB.Cancelled(b, id);
    forall o | BrokerOrder(t, o)
      ensures KnownAs(oms.(orders := oms.orders[updated.id := updated]), o.request)
    {
      var i := PB.IndexOf(b.resting, id);
      if BrokerOrder(b, o) {
        assert KnownAs(oms, o.request);
      } else {
        assert BrokerOrder(b, b.resting[i]) && KnownAs(oms, b.resting[i].request);
      }
    }
  }

  /** A cancellation either changes nothing or goes through on both sides. */
  lemma CancelCases(cfg: PB.Config, maxRetries: nat, d: Desk, opening: Paise, id: Id)
    requires cfg.Valid() && Balanced(d, opening) && d.oms.Valid()
    ensures Step(cfg, maxRetries, d, Cancel(id)) == d || WentThrough(d, id, Step(cfg, maxRetries, d, Cancel(id)))
  {
    assert id in d.oms.orders ==> Mirrored(d.oms, d.broker.seenKeys, d.broker.completed.Keys, d.broker.fills, id);
    assert id in d.oms.orders && d.oms.orders[id].brokerOrderId.None? ==> IsTerminal(d.oms.orders[id].status);
    hide Balanced, Mirrored, PB.Cancelled, Oms.State.Valid;
  }

  predicate WentThrough(d: Desk, id: Id, t: Desk) {
    && id in d.oms.orders && d.oms.orders[id].brokerOrderId.Some?
    && PB.IsResting(d.broker, d.oms.orders[id].brokerOrderId.value)
    && t == Desk(PB.Cancelled(d.broker, d.oms.orders[id].brokerOrderId.value), CancelledOms(d.oms, id), d.book)
  }

  lemma CancelBalances(cfg: PB.Config, maxRetries: nat, d: Desk, opening: Paise, id: Id)
    requires cfg.Valid() && Balanced(d, opening) && d.oms.Valid()
    ensures Balanced(Step(cfg, maxRetries, d, Cancel(id)), opening)
  {
    hide Mirrors, Runs.Sound, SameRequests, Step, Oms.State.Valid;
    CancelCases(cfg, maxRetries, d, opening, id);
    var t := Step(cfg, maxRetries, d, Cancel(id));
    if t != d {
      var bid := d.oms.orders[id].brokerOrderId.value;
      CancelMirrors(d.oms, d.broker.seenKeys, d.broker.completed.Keys, d.broker.fills, id);
      CancelledOrderId(d.oms, d.broker.seenKeys, d.broker.completed.Keys, d.broker.fills, id);
      CancelKeepsRequests(d.broker, d.oms, bid, d.oms.orders[id].(status := CANCELLED));
      Runs.CancelSound(d.broker, opening, bid);
      assert t.broker.completed.Keys == d.broker.completed.Keys + {bid};
    }
  }

  lemma CancelledOrderId(oms: Oms.State, seen: map<Key, Id>, done: set<Id>, delivered: seq<Fill>, id: Id)
    requires Mirrors(oms, seen, done, delivered) && id in oms.orders
    ensures oms.orders[id].id == id
  {
  }

  lemma BalancedIsValid(d: Desk, opening: Paise)
    requires Balanced(d, opening)
    ensures d.oms.Valid()
  {
    hide Runs.Sound, SameMoney, SameRequests;
  }

  lemma StepBalances(cfg: PB.Config, maxRetries: nat, d: Desk, opening: Paise, e: Event)
    requires cfg.Valid() && Balanced(d, opening) && d.oms.Valid()
    ensures Balanced(Step(cfg, maxRetries, d, e), opening)
  {
    match e
    case Submit(request, now) => SubmitBalances(cfg, maxRetries, d, opening, request, now);
    case Cancel(id) => CancelBalances(cfg, maxRetries, d, opening, id);
    case Quoted(quote) => QuoteBalances(cfg, maxRetries, d, opening, quote);
    case Clock(timestamp) =>
      hide Mirrors, Runs.Sound;
      Runs.ClockSound(d.broker, opening, timestamp);
      var t := d.broker.(clock := timestamp);
      forall o | BrokerOrder(t, o)
        ensures KnownAs(d.oms, o.request)
      {
        assert BrokerOrder(d.broker, o);
      }
  }

  lemma StartBalanced(cash: Paise)
    ensures Balanced(Open(cash), cash)
  {
  }

  /** The desk after any sequence of events, opened with any cash. */
  ghost function Run(cfg: PB.Config, maxRetries: nat, cash: Paise, events: seq<Event>): (d: Desk)
    requires cfg.Valid()
    ensures Balanced(d, cash)
  {
    if events == [] then
      StartBalanced(cash);
      Open(cash)
    else
      var before := Run(cfg, maxRetries, cash, events[..|events| - 1]);
      BalancedIsValid(before, cash);
      StepBalances(cfg, maxRetries, before, cash, events[|events| - 1]);
      Step(cfg, maxRetries, before, events[|events| - 1])
  }

  // ----- What balance means -----

  /** One broker order and the order manager's view of it. */
  ghost predicate Agree(d: Desk, o: Order) {
    var p := Oms.IdFor(o.request.idempotencyKey);
    var mine := Runs.FillsFor(d.broker.fills, o.id);
    && p in d.oms.orders
    && d.oms.orders[p].request == o.request
    && d.oms.orders[p].brokerOrderId == Some(o.id)
    && d.oms.orders[p].filledQuantity <= o.filledQuantity <= o.request.quantity
    && (d.oms.orders[p].filledQuantity == o.filledQuantity <==> NoRepeats(mine))
    && (NoRepeats(mine) ==> d.oms.orders[p].averageFillPrice == o.averageFillPrice)
  }

  lemma BalancedOrderAgrees(d: Desk, opening: Paise, o: Order)
    requires Balanced(d, opening) && BrokerOrder(d.broker, o)
    ensures Agree(d, o)
  {
    hide PB.CashFlows, SameMoney, Folded, Runs.FillsFor, FilledQuantity, StatusFor, NoRepeats, RunningAverage;
    SoundBrokerOrder(d.broker, opening, o);
    var key := o.request.idempotencyKey;
    FindsItsOrder(d.oms, d.broker.seenKeys, d.broker.completed.Keys, d.broker.fills, key);
    assert KnownAs(d.oms, o.request);
    assert Mirrored(d.oms, d.broker.seenKeys, d.broker.completed.Keys, d.broker.fills, Oms.IdFor(key));
    var mine := Runs.FillsFor(d.broker.fills, o.id);
    FoldedQuantity(mine);
    NoRepeatsFoldWhole(mine);
  }

  lemma SoundBrokerOrder(b: PB.State, opening: Paise, o: Order)
    requires Runs.Sound(b, opening) && BrokerOrder(b, o)
    ensures Runs.SoundOrder(o, b)
    ensures o in b.resting ==> Runs.Rests(b, o)
  {
    hide Runs.MatchesFills, PB.CashFlows;
    if o in b.resting {
      var i :| 0 <= i < |b.resting| && b.resting[i] == o;
      assert Runs.Rests(b, b.resting[i]);
    } else {
      assert Runs.Done(b, o.id);
    }
  }

  /**
   * The three ledgers, in every state any sequence of submissions, cancellations, clock changes and
   * quotes (with any volume caps) reaches: broker cash is portfolio cash, each portfolio position
   * is the signed sum of the broker's executions, no order is ever overfilled, and the order
   * manager's quantity is the broker's exactly when no two executions of the order share time,
   * quantity and price, in which case the averages agree too.
   */
  lemma ThreeLedgers(cfg: PB.Config, maxRetries: nat, cash: Paise, events: seq<Event>)
    requires cfg.Valid()
    ensures var d := Run(cfg, maxRetries, cash, events);
      && d.book.cash == d.broker.cash
      && (forall s :: d.book.Quantity(s) == NetBought(d.broker.fills, s))
      && (forall o :: BrokerOrder(d.broker, o) ==> Agree(d, o))
      && (forall p :: p in d.oms.orders && d.oms.orders[p].brokerOrderId.Some? ==>
            exists o :: BrokerOrder(d.broker, o) && o.id == d.oms.orders[p].brokerOrderId.value && Oms.IdFor(o.request.idempotencyKey) == p)
  {
    hide Run, Agree, Runs.Sound, NetBought;
    var d := Run(cfg, maxRetries, cash, events);
    forall o | BrokerOrder(d.broker, o)
      ensures Agree(d, o)
    {
      BalancedOrderAgrees(d, cash, o);
    }
    forall p | p in d.oms.orders && d.oms.orders[p].brokerOrderId.Some?
      ensures exists o :: BrokerOrder(d.broker, o) && o.id == d.oms.orders[p].brokerOrderId.value && Oms.IdFor(o.request.idempotencyKey) == p
    {
      assert Mirrored(d.oms, d.broker.seenKeys, d.broker.completed.Keys, d.broker.fills, p);
      var o := OrderOfKey(d.broker, cash, d.oms.orders[p].request.idempotencyKey);
    }
  }

  // ----- Where the ledgers part -----

  /** A quote that gives a fresh market order half of what it asks for. */
  ghost predicate HalfFilling(cfg: PB.Config, request: OrderRequest, quote: PB.Quote, half: nat)
    requires cfg.Valid()
  {
    && half > 0 && request.quantity == 2 * half
    && request.orderType.MARKET? && request.timeInForce.DAY? && request.symbol == quote.symbol
    && quote.volume.Some? && PB.Capacity(cfg, request.quantity, quote.volume) == half
  }

  lemma FirstHalf(cfg: PB.Config, clock: Timestamp, o: Order, quote: PB.Quote, half: nat)
    requires cfg.Valid() && HalfFilling(cfg, o.request, quote, half) && o.filledQuantity <= half
    ensures var w := PB.WorkOrder(cfg, clock, o, quote);
      && w.order.id == o.id && w.order.request == o.request && w.order.filledQuantity == o.filledQuantity + half
      && (w.rests <==> o.filledQuantity + half < 2 * half)
      && w.fill == Some(PB.Execution(cfg, clock, o, half, PB.ApplySlippage(cfg, quote.price, o.request.side)))
  {
    hide Blend, PB.ApplySlippage, PB.Execution;
    assert PB.Capacity(cfg, o.request.quantity - o.filledQuantity, quote.volume) == half;
  }

  /** Two executions of one size at one price under one clock are the same to look at. */
  lemma HalvesCoincide(cfg: PB.Config, clock: Timestamp, a: Order, b: Order, half: nat, price: Paise)
    requires half > 0 && price >= 0 && a.id == b.id && a.request == b.request
    ensures PB.Execution(cfg, clock, a, half, price) == PB.Execution(cfg, clock, b, half, price)
  {
    hide PB.Turnover;
  }

  lemma OneOrderQueue(cfg: PB.Config, clock: Timestamp, o: Order, quote: PB.Quote)
    requires cfg.Valid()
    ensures PB.WorkQueue(cfg, clock, [o], quote) == PB.Extend(PB.Pass([], [], []), PB.WorkOrder(cfg, clock, o, quote))
  {
    hide PB.WorkOrder, PB.Extend;
    assert [o][..0] == [];
    assert PB.WorkQueue(cfg, clock, [], quote) == PB.Pass([], [], []);
  }

  /** The broker after the order was accepted and worked by two equal quotes. */
  lemma TwoEqualQuotes(cfg: PB.Config, cash: Paise, request: OrderRequest, quote: PB.Quote, half: nat)
    requires cfg.Valid() && HalfFilling(cfg, request, quote, half)
    ensures var b := PB.Publish(cfg, PB.Publish(cfg, PB.Accept(PB.Fresh(cash), request).0, quote), quote);
      && Venue(1) in b.completed && b.completed[Venue(1)].id == Venue(1) && b.completed[Venue(1)].request == request
      && b.completed[Venue(1)].filledQuantity == 2 * half
      && |b.fills| == 2 && b.fills[0] == b.fills[1] && b.fills[0].orderId == Venue(1)
  {
    hide PB.WorkOrder, PB.CashFlows, PB.ApplySlippage, PB.WorkQueue, PB.Capacity;
    var o := Order(Venue(1), request, OPEN, Some(Venue(1)), 0, None);
    var accepted := PB.Accept(PB.Fresh(cash), request).0;
    assert accepted.resting == [o];
    FirstHalf(cfg, 0, o, quote, half);
    OneOrderQueue(cfg, 0, o, quote);
    var p := PB.WorkOrder(cfg, 0, o, quote).order;
    FirstHalf(cfg, 0, p, quote, half);
    OneOrderQueue(cfg, 0, p, quote);
    HalvesCoincide(cfg, 0, o, p, half, PB.ApplySlippage(cfg, quote.price, request.side));
    hide PB.Execution;
    assert PB.Publish(cfg, accepted, quote).resting == [p];
    LastArchived(map[], PB.WorkOrder(cfg, 0, p, quote).order);
  }

  lemma LastArchived(completed: map<Id, Order>, o: Order)
    ensures PB.Archive(completed, [o]) == completed[o.id := o]
  {
    assert [o][..0] == [];
    assert PB.Archive(completed, []) == completed;
  }

  /**
   * With volume caps two executions of one order can coincide: two equal capped quotes under one
   * clock fill it at the broker, and the order manager takes the second for a repeat of the first.
   */
  lemma CappedQuotesCanCoincide(cfg: PB.Config, maxRetries: nat, cash: Paise, request: OrderRequest, quote: PB.Quote, half: nat)
    requires cfg.Valid() && HalfFilling(cfg, request, quote, half)
    ensures var d := Run(cfg, maxRetries, cash, [Submit(request, 0), Quoted(quote), Quoted(quote)]);
      var p := Oms.IdFor(request.idempotencyKey);
      && Venue(1) in d.broker.completed && d.broker.completed[Venue(1)].filledQuantity == request.quantity
      && p in d.oms.orders && d.oms.orders[p].filledQuantity < request.quantity
  {
    hide Agree, PB.Publish, HalfFilling, Balanced, Step, Run, PB.Accept;
    var none: seq<Event> := [];
    var placed := none + [Submit(request, 0)];
    var once := placed + [Quoted(quote)];
    NothingYet(cfg, maxRetries, cash);
    RunOneMore(cfg, maxRetries, cash, none, Submit(request, 0));
    RunOneMore(cfg, maxRetries, cash, placed, Quoted(quote));
    RunOneMore(cfg, maxRetries, cash, once, Quoted(quote));
    assert [Submit(request, 0), Quoted(quote), Quoted(quote)] == once + [Quoted(quote)];
    SubmittedToFresh(cash, request, maxRetries);
    TwoEqualQuotes(cfg, cash, request, quote, half);
    assert request.quantity == 2 * half by { HalfIsHalf(cfg, request, quote, half); }
    FillsTwice(cfg, maxRetries, cash, once + [Quoted(quote)], Run(cfg, maxRetries, cash, once + [Quoted(quote)]), request, half);
  }

  lemma HalfIsHalf(cfg: PB.Config, request: OrderRequest, quote: PB.Quote, half: nat)
    requires cfg.Valid() && HalfFilling(cfg, request, quote, half)
    ensures request.quantity == 2 * half
  {
  }

  lemma NothingYet(cfg: PB.Config, maxRetries: nat, cash: Paise)
    requires cfg.Valid()
    ensures Run(cfg, maxRetries, cash, []) == Open(cash)
  {
  }

  /** What one more event does to the broker. */
  lemma RunOneMore(cfg: PB.Config, maxRetries: nat, cash: Paise, before: seq<Event>, e: Event)
    requires cfg.Valid()
    ensures var d, next := Run(cfg, maxRetries, cash, before), Run(cfg, maxRetries, cash, before + [e]);
      && (e.Quoted? ==> next.broker == PB.Publish(cfg, d.broker, e.quote))
      && (e.Submit? ==> next.broker == Oms.Submitted(d.oms, d.broker, e.request, maxRetries, e.now).1)
  {
    hide Balanced, Oms.Submitted, Oms.CancelOrder, PB.Publish, Deliver, BookAll;
    assert (before + [e])[..|before|] == before;
  }

  lemma SubmittedToFresh(cash: Paise, request: OrderRequest, maxRetries: nat)
    ensures Oms.Submitted(Oms.Empty, PB.Fresh(cash), request, maxRetries, 0).1 == PB.Accept(PB.Fresh(cash), request).0
  {
    hide PB.Accept, Oms.Conclude;
  }

  lemma FillsTwice(cfg: PB.Config, maxRetries: nat, cash: Paise, events: seq<Event>, d: Desk, request: OrderRequest, half: nat)
    requires cfg.Valid() && d == Run(cfg, maxRetries, cash, events) && request.quantity == 2 * half
    requires Venue(1) in d.broker.completed && d.broker.completed[Venue(1)].id == Venue(1)
    requires d.broker.completed[Venue(1)].request == request && d.broker.completed[Venue(1)].filledQuantity == 2 * half
    requires |d.broker.fills| == 2 && d.broker.fills[0] == d.broker.fills[1] && d.broker.fills[0].orderId == Venue(1)
    ensures Oms.IdFor(request.idempotencyKey) in d.oms.orders
    ensures d.oms.orders[Oms.IdFor(request.idempotencyKey)].filledQuantity < request.quantity
  {
    hide Run, Balanced;
    var o := d.broker.completed[Venue(1)];
    assert BrokerOrder(d.broker, o);
    BalancedOrderAgrees(d, cash, o);
    var f := d.broker.fills[0];
    assert d.broker.fills == ([] + [f]) + [f];
    Runs.FillsForAppend([] + [f], f, Venue(1));
    Runs.FillsForAppend([], f, Venue(1));
    var mine := Runs.FillsFor(d.broker.fills, Venue(1));
    assert mine == [f, f];
    assert Oms.SameExecution(mine[0], mine[1]);
  }
}
