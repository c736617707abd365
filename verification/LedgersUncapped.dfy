// Without volume caps every order trades whole or not at all, and then the broker and the order
// manager tell the same story about every order: status, quantity and average.
module LedgersUncapped {
  import opened Money
  import opened Domain
  import opened Averages
  import opened Ledgers
  import PB = PaperBrokers
  import Runs = PaperBrokerRuns
  import Oms

  predicate Uncapped(events: seq<Event>) {
    forall i :: 0 <= i < |events| && events[i].Quoted? ==> events[i].quote.volume.None?
  }

  /** A completed order traded whole, or was cancelled on both sides before it traded. */
  ghost predicate Concluded(d: Desk, id: Id)
    requires id in d.broker.completed
  {
    var c := d.broker.completed[id];
    var p := Oms.IdFor(c.request.idempotencyKey);
    && |Runs.FillsFor(d.broker.fills, id)| <= 1
    && p in d.oms.orders
    && (c.status.FILLED? ==> !d.oms.orders[p].status.CANCELLED?)
    && (c.status.FILLED? || (c.status.CANCELLED? && c.filledQuantity == 0 && d.oms.orders[p].status.CANCELLED?))
  }

  ghost predicate Whole(d: Desk) {
    && (forall o :: o in d.broker.resting ==> o.filledQuantity == 0)
    && (forall id :: id in d.broker.completed ==> Concluded(d, id))
  }

  // ----- Orders that are done stay as they are -----

  ghost predicate DoneKept(oms: Oms.State, t: Oms.State, done: set<Id>) {
    forall q :: q in oms.orders ==>
      && q in t.orders
      && (oms.orders[q].brokerOrderId.Some? && oms.orders[q].brokerOrderId.value in done ==> t.orders[q] == oms.orders[q])
  }

  lemma {:induction false} DeliverKeepsDone(cfg: PB.Config, b: PB.State, opening: Paise, oms: Oms.State, quote: PB.Quote, n: nat)
    requires cfg.Valid() && Runs.Sound(b, opening) && SameRequests(b, oms) && oms.Valid()
    requires Mirrors(oms, b.seenKeys, b.completed.Keys, b.fills)
    requires n <= |Produced(cfg, b, quote)|
    ensures DoneKept(oms, Deliver(oms, Produced(cfg, b, quote)[..n]), b.completed.Keys)
  {
    hide Mirrors, Runs.Sound, PB.WorkQueue, Oms.Filled, Oms.State.Valid, SameRequests;
    var fills := Produced(cfg, b, quote);
    if n > 0 {
      DeliverKeepsDone(cfg, b, opening, oms, quote, n - 1);
      DeliverMirrors(cfg, b, opening, oms, quote, n - 1);
      hide DoneKept;
      assert fills[..n][..n - 1] == fills[..n - 1];
      DoneKeptByOne(cfg, b, opening, oms, quote, n - 1, Deliver(oms, fills[..n - 1]));
    }
  }

  lemma DoneKeptByOne(cfg: PB.Config, b: PB.State, opening: Paise, oms: Oms.State, quote: PB.Quote, n: nat, t: Oms.State)
    requires cfg.Valid() && Runs.Sound(b, opening) && SameRequests(b, oms) && t.Valid()
    requires n < |Produced(cfg, b, quote)| && Produced(cfg, b, quote)[n].quantity > 0
    requires Mirrors(t, b.seenKeys, b.completed.Keys, b.fills + Produced(cfg, b, quote)[..n])
    requires t.orders.Keys == oms.orders.Keys && forall p :: p in oms.orders ==> t.orders[p].request == oms.orders[p].request
    requires DoneKept(oms, t, b.completed.Keys)
    ensures DoneKept(oms, Oms.Filled(t, Produced(cfg, b, quote)[n]).0, b.completed.Keys)
  {
    hide Mirrors, Runs.Sound, PB.WorkQueue, Oms.Filled, Oms.State.Valid, SameRequests, HasRoom, DoneKept;
    var delivered := b.fills + Produced(cfg, b, quote)[..n];
    var f := Produced(cfg, b, quote)[n];
    var k := NextFillFits(cfg, b, opening, oms, quote, n);
    RoomIsSame(oms, t, b.seenKeys, delivered, k, f);
    DeliverOne(t, b.seenKeys, b.completed.Keys, delivered, k, f);
    KnownFill(oms, b.seenKeys, delivered, k, f);
    FindsItsOrder(t, b.seenKeys, b.completed.Keys, delivered, k);
    SameRequestsAfterFill(t, f);
    DoneKeptNext(oms, t, Oms.Filled(t, f).0, b.completed.Keys, Oms.IdFor(k), f.orderId);
  }

  lemma DoneKeptNext(oms: Oms.State, t: Oms.State, u: Oms.State, done: set<Id>, p: Id, brokerId: Id)
    requires DoneKept(oms, t, done)
    requires p in t.orders && p in u.orders && t.orders[p].brokerOrderId == Some(brokerId) && brokerId !in done
    requires forall q :: q in t.orders && q != p ==> q in u.orders && u.orders[q] == t.orders[q]
    ensures DoneKept(oms, u, done)
  {
  }

  lemma RoomIsSame(oms: Oms.State, t: Oms.State, seen: map<Key, Id>, delivered: seq<Fill>, k: Key, f: Fill)
    requires HasRoom(oms, seen, delivered, k, f) && t.orders.Keys == oms.orders.Keys
    requires forall p :: p in oms.orders ==> t.orders[p].request == oms.orders[p].request
    ensures HasRoom(t, seen, delivered, k, f)
  {
  }

  lemma KnownFill(oms: Oms.State, seen: map<Key, Id>, delivered: seq<Fill>, k: Key, f: Fill)
    requires HasRoom(oms, seen, delivered, k, f)
    ensures k in seen && seen[k] == f.orderId && Oms.IdFor(k) in oms.orders
  {
  }

  // ----- A quote without a cap -----

  /** One pass executes an order at most once. */
  lemma {:induction false} ExecutedOnce(cfg: PB.Config, clock: Timestamp, orders: seq<Order>, quote: PB.Quote, id: Id)
    requires cfg.Valid()
    requires forall i, j :: 0 <= i < j < |orders| ==> orders[i].id != orders[j].id
    ensures |Runs.FillsFor(PB.WorkQueue(cfg, clock, orders, quote).fills, id)| <= 1
    ensures (forall o :: o in orders ==> o.id != id) ==> Runs.FillsFor(PB.WorkQueue(cfg, clock, orders, quote).fills, id) == []
  {
    if orders != [] {
      hide PB.WorkOrder;
      var n := |orders| - 1;
      ExecutedOnce(cfg, clock, orders[..n], quote, id);
      var before := PB.WorkQueue(cfg, clock, orders[..n], quote);
      var w := PB.WorkOrder(cfg, clock, orders[n], quote);
      if w.fill.Some? {
        Runs.FillsForAppend(before.fills, w.fill.value, id);
      }
    }
  }

  lemma {:induction false} FillsForConcat(a: seq<Fill>, b: seq<Fill>, id: Id)
    ensures Runs.FillsFor(a + b, id) == Runs.FillsFor(a, id) + Runs.FillsFor(b, id)
  {
    if b == [] {
      assert a + b == a;
    } else {
      assert (a + b)[..|a + b| - 1] == a + b[..|b| - 1];
      FillsForConcat(a, b[..|b| - 1], id);
    }
  }

  lemma WorkedWhole(cfg: PB.Config, clock: Timestamp, o: Order, quote: PB.Quote)
    requires cfg.Valid() && quote.volume.None? && o.filledQuantity == 0 && o.request.quantity > 0
    ensures var w := PB.WorkOrder(cfg, clock, o, quote);
      w.order == o || (w.order.status.FILLED? && w.order.filledQuantity == o.request.quantity)
  {
    hide Blend, PB.ResolveFillPrice, PB.Execution;
  }

  /** A quote either leaves a completed order alone or completes one that was resting, whole. */
  lemma QuoteConcludes(cfg: PB.Config, maxRetries: nat, d: Desk, opening: Paise, quote: PB.Quote, id: Id)
    requires cfg.Valid() && Balanced(d, opening) && Whole(d) && quote.volume.None?
    requires id in Step(cfg, maxRetries, d, Quoted(quote)).broker.completed
    ensures Concluded(Step(cfg, maxRetries, d, Quoted(quote)), id)
  {
    hide Balanced, Step, PB.Publish, PB.WorkQueue, Runs.FillsFor;
    BalancedIsValid(d, opening);
    QuoteParts(cfg, maxRetries, d, quote);
    FillsForConcat(d.broker.fills, Produced(cfg, d.broker, quote), id);
    if id in d.broker.completed {
      assert Concluded(d, id);
      QuoteLeavesDone(cfg, d, opening, quote, id);
    } else {
      QuoteCompletes(cfg, maxRetries, d, opening, quote, id);
    }
  }

  lemma QuoteParts(cfg: PB.Config, maxRetries: nat, d: Desk, quote: PB.Quote)
    requires cfg.Valid() && d.oms.Valid()
    ensures var t := Step(cfg, maxRetries, d, Quoted(quote));
      && t.broker == PB.Publish(cfg, d.broker, quote) && t.oms == Deliver(d.oms, Produced(cfg, d.broker, quote))
      && t.broker.fills == d.broker.fills + Produced(cfg, d.broker, quote)
  {
    hide PB.WorkQueue, PB.Archive;
  }

  lemma QuoteCompletes(cfg: PB.Config, maxRetries: nat, d: Desk, opening: Paise, quote: PB.Quote, id: Id)
    requires cfg.Valid() && Balanced(d, opening) && Whole(d) && quote.volume.None? && id !in d.broker.completed
    requires id in Step(cfg, maxRetries, d, Quoted(quote)).broker.completed
    ensures var t := Step(cfg, maxRetries, d, Quoted(quote));
      && t.broker.completed[id].status.FILLED?
      && Runs.FillsFor(d.broker.fills, id) == [] && |Runs.FillsFor(Produced(cfg, d.broker, quote), id)| <= 1
      && var p := Oms.IdFor(t.broker.completed[id].request.idempotencyKey);
         p in t.oms.orders && !t.oms.orders[p].status.CANCELLED?
  {
    hide Balanced, Whole, Step, PB.Publish, PB.WorkQueue;
    BalancedIsValid(d, opening);
    var t := Step(cfg, maxRetries, d, Quoted(quote));
    var c := t.broker.completed[id];
    QuoteBalances(cfg, maxRetries, d, opening, quote);
    CompletedOrder(t, opening, id);
    StepIsPublish(cfg, maxRetries, d, opening, quote);
    CompletedWasResting(cfg, d, opening, quote, c);
    BalancedOrderAgrees(t, opening, c);
    NotCancelled(t.oms, d.broker.seenKeys, d.broker.completed.Keys, t.broker.fills, Oms.IdFor(c.request.idempotencyKey), id);
  }

  lemma StepIsPublish(cfg: PB.Config, maxRetries: nat, d: Desk, opening: Paise, quote: PB.Quote)
    requires cfg.Valid() && Balanced(d, opening)
    ensures var t := Step(cfg, maxRetries, d, Quoted(quote));
      t.broker == PB.Publish(cfg, d.broker, quote) && Mirrors(t.oms, d.broker.seenKeys, d.broker.completed.Keys, t.broker.fills)
  {
    hide Mirrors, Runs.Sound, SameRequests, SameMoney, PB.WorkQueue, PB.Archive;
    BalancedIsValid(d, opening);
    var fills := Produced(cfg, d.broker, quote);
    DeliverMirrors(cfg, d.broker, opening, d.oms, quote, |fills|);
    assert fills[..|fills|] == fills;
  }

  lemma CompletedWasResting(cfg: PB.Config, d: Desk, opening: Paise, quote: PB.Quote, c: Order)
    requires cfg.Valid() && Balanced(d, opening) && Whole(d) && quote.volume.None?
    requires c.id !in d.broker.completed && BrokerOrder(PB.Publish(cfg, d.broker, quote), c) && !c.status.OPEN?
    ensures c.status.FILLED?
    ensures Runs.FillsFor(d.broker.fills, c.id) == [] && |Runs.FillsFor(Produced(cfg, d.broker, quote), c.id)| <= 1
  {
    var b := d.broker;
    assert Runs.Sound(b, opening);
    hide Balanced, Whole, Runs.Sound, PB.WorkQueue, PB.Publish, PB.WorkOrder, Runs.FillsFor;
    QuotedOrder(cfg, b, opening, quote, c);
    DistinctResting(b, opening);
    ExecutedOnce(cfg, b.clock, b.resting, quote, c.id);
    var i :| 0 <= i < |b.resting| && c == PB.WorkOrder(cfg, b.clock, b.resting[i], quote).order;
    RestingUnfilled(d, opening, b.resting[i]);
    WorkedWhole(cfg, b.clock, b.resting[i], quote);
  }

  lemma NotCancelled(oms: Oms.State, seen: map<Key, Id>, done: set<Id>, delivered: seq<Fill>, p: Id, id: Id)
    requires Mirrors(oms, seen, done, delivered) && p in oms.orders && oms.orders[p].brokerOrderId == Some(id) && id !in done
    ensures !oms.orders[p].status.CANCELLED?
  {
    hide Folded, Runs.FillsFor, FilledQuantity;
    assert Mirrored(oms, seen, done, delivered, p);
  }

  lemma CompletedOrder(d: Desk, opening: Paise, id: Id)
    requires Balanced(d, opening) && id in d.broker.completed
    ensures d.broker.completed[id].id == id && BrokerOrder(d.broker, d.broker.completed[id])
    ensures !d.broker.completed[id].status.OPEN? && Runs.SoundOrder(d.broker.completed[id], d.broker)
  {
    hide Runs.MatchesFills, Mirrors, SameMoney, SameRequests, PB.CashFlows;
    assert Runs.Done(d.broker, id);
  }

  lemma DistinctResting(b: PB.State, opening: Paise)
    requires Runs.Sound(b, opening)
    ensures forall i, j :: 0 <= i < j < |b.resting| ==> b.resting[i].id != b.resting[j].id
    ensures forall o :: o in b.resting ==> o.id !in b.completed
  {
    hide Runs.MatchesFills, PB.CashFlows;
    forall o | o in b.resting
      ensures o.id !in b.completed
    {
      SoundBrokerOrder(b, opening, o);
    }
  }

  lemma RestingUnfilled(d: Desk, opening: Paise, o: Order)
    requires Balanced(d, opening) && Whole(d) && o in d.broker.resting
    ensures o.filledQuantity == 0 && o.request.quantity > 0 && o.status.OPEN? && Runs.FillsFor(d.broker.fills, o.id) == []
  {
    SoundBrokerOrder(d.broker, opening, o);
    FilledQuantityPositive(Runs.FillsFor(d.broker.fills, o.id));
  }

  /** The broker never touches an order it has already completed. */
  lemma BrokerLeavesDone(cfg: PB.Config, b: PB.State, opening: Paise, quote: PB.Quote, id: Id)
    requires cfg.Valid() && Runs.Sound(b, opening) && id in b.completed
    ensures var after := PB.Publish(cfg, b, quote);
      && id in after.completed && after.completed[id] == b.completed[id]
      && Runs.FillsFor(Produced(cfg, b, quote), id) == []
  {
    hide Runs.Sound, Runs.FillsFor, PB.WorkOrder;
    DistinctResting(b, opening);
    ExecutedOnce(cfg, b.clock, b.resting, quote, id);
    WorkedOrdersAreOld(cfg, b.clock, b.resting, quote);
    var pass := PB.WorkQueue(cfg, b.clock, b.resting, quote);
    hide PB.WorkQueue;
    ArchiveKeepsKeys(b.completed, pass.done);
    forall o | o in pass.done
      ensures o.id != id
    {
      assert WorkedFrom(cfg, b.clock, b.resting, quote, o);
      var i :| 0 <= i < |b.resting| && o == PB.WorkOrder(cfg, b.clock, b.resting[i], quote).order;
      assert b.resting[i] in b.resting;
    }
    ArchivedOrder(b.completed, pass.done, id);
  }

  /** A quote leaves an order that was already done exactly as it was, on both sides. */
  lemma QuoteLeavesDone(cfg: PB.Config, d: Desk, opening: Paise, quote: PB.Quote, id: Id)
    requires cfg.Valid() && Balanced(d, opening) && d.oms.Valid() && id in d.broker.completed
    ensures var after := PB.Publish(cfg, d.broker, quote);
      && id in after.completed && after.completed[id] == d.broker.completed[id]
      && Runs.FillsFor(Produced(cfg, d.broker, quote), id) == []
      && var p := Oms.IdFor(d.broker.completed[id].request.idempotencyKey);
         var oms := Deliver(d.oms, Produced(cfg, d.broker, quote));
         p in d.oms.orders && p in oms.orders && oms.orders[p] == d.oms.orders[p]
  {
    hide Runs.Sound, Mirrors, SameMoney, Runs.FillsFor, PB.WorkQueue, PB.Publish, Oms.State.Valid, SameRequests;
    var fills := Produced(cfg, d.broker, quote);
    BrokerLeavesDone(cfg, d.broker, opening, quote, id);
    CompletedOrder(d, opening, id);
    BalancedOrderAgrees(d, opening, d.broker.completed[id]);
    DeliverKeepsDone(cfg, d.broker, opening, d.oms, quote, |fills|);
    assert fills[..|fills|] == fills;
  }

  lemma QuoteRests(cfg: PB.Config, maxRetries: nat, d: Desk, opening: Paise, quote: PB.Quote, o: Order)
    requires cfg.Valid() && Balanced(d, opening) && Whole(d) && quote.volume.None?
    requires o in PB.Publish(cfg, d.broker, quote).resting
    ensures o.filledQuantity == 0
  {
    hide Runs.Sound, Mirrors, PB.Archive, PB.WorkOrder, SameRequests, SameMoney, Runs.FillsFor;
    var b := d.broker;
    Runs.PublishSound(cfg, b, opening, quote);
    SoundBrokerOrder(PB.Publish(cfg, b, quote), opening, o);
    WorkedOrdersAreOld(cfg, b.clock, b.resting, quote);
    assert WorkedFrom(cfg, b.clock, b.resting, quote, o);
    var i :| 0 <= i < |b.resting| && o == PB.WorkOrder(cfg, b.clock, b.resting[i], quote).order;
    RestingUnfilled(d, opening, b.resting[i]);
    WorkedWhole(cfg, b.clock, b.resting[i], quote);
  }

  // ----- The other events -----

  lemma SubmitWhole(cfg: PB.Config, maxRetries: nat, d: Desk, opening: Paise, request: OrderRequest, now: Timestamp)
    requires cfg.Valid() && Balanced(d, opening) && Whole(d)
    ensures Whole(Step(cfg, maxRetries, d, Submit(request, now)))
  {
    hide Balanced, Oms.Submitted, Oms.State.Valid, PB.Acceptable, Runs.FillsFor;
    BalancedIsValid(d, opening);
    if request.idempotencyKey in d.oms.registry {
      DuplicateChangesNothing(d.oms, d.broker, request, maxRetries, now);
    } else {
      NewKeyIsFresh(d, opening, request.idempotencyKey);
      SubmissionPlaces(d.oms, d.broker, request, maxRetries, now);
      var t := Step(cfg, maxRetries, d, Submit(request, now));
      forall id | id in t.broker.completed
        ensures Concluded(t, id)
      {
        assert Concluded(d, id);
      }
    }
  }

  lemma DuplicateChangesNothing(oms: Oms.State, b: PB.State, request: OrderRequest, maxRetries: nat, now: Timestamp)
    requires request.idempotencyKey in oms.registry
    ensures var (oms', b', _) := Oms.Submitted(oms, b, request, maxRetries, now); oms' == oms && b' == b
  {
  }

  lemma CancelConcludes(d: Desk, opening: Paise, id: Id, t: Desk, c: Id)
    requires Balanced(d, opening) && Whole(d) && WentThrough(d, id, t)
    requires c in t.broker.completed
    ensures Concluded(t, c)
  {
    hide Balanced, Runs.FillsFor;
    CancelledOrder(d, opening, id);
    if c in d.broker.completed {
      assert Concluded(d, c);
      KeepsItsStory(d, opening, c, id);
    }
  }

  /** A cancellation that goes through concerns a resting order, so never one already completed. */
  lemma KeepsItsStory(d: Desk, opening: Paise, c: Id, id: Id)
    requires Balanced(d, opening) && c in d.broker.completed
    ensures id in d.oms.orders && d.oms.orders[id].brokerOrderId.Some? && PB.IsResting(d.broker, d.oms.orders[id].brokerOrderId.value) ==>
              d.oms.orders[id].brokerOrderId.value != c && id != Oms.IdFor(d.broker.completed[c].request.idempotencyKey)
    ensures id in d.oms.orders && d.oms.orders[id].brokerOrderId.None? ==> IsTerminal(d.oms.orders[id].status)
  {
    CompletedOrder(d, opening, c);
    BalancedOrderAgrees(d, opening, d.broker.completed[c]);
    DistinctResting(d.broker, opening);
    if id in d.oms.orders {
      assert Mirrored(d.oms, d.broker.seenKeys, d.broker.completed.Keys, d.broker.fills, id);
    }
    hide Balanced, Runs.FillsFor, Runs.SoundOrder;
  }

  lemma CancelWhole(cfg: PB.Config, maxRetries: nat, d: Desk, opening: Paise, id: Id)
    requires cfg.Valid() && Balanced(d, opening) && Whole(d)
    ensures Whole(Step(cfg, maxRetries, d, Cancel(id)))
  {
    hide Balanced, Concluded, Step;
    BalancedIsValid(d, opening);
    CancelCases(cfg, maxRetries, d, opening, id);
    var t := Step(cfg, maxRetries, d, Cancel(id));
    if t != d {
      forall c | c in t.broker.completed
        ensures Concluded(t, c)
      {
        CancelConcludes(d, opening, id, t, c);
      }
    }
  }

  lemma CancelledOrder(d: Desk, opening: Paise, id: Id)
    requires Balanced(d, opening) && Whole(d) && id in d.oms.orders && d.oms.orders[id].brokerOrderId.Some?
    requires PB.IsResting(d.broker, d.oms.orders[id].brokerOrderId.value)
    ensures var o := d.broker.resting[PB.IndexOf(d.broker.resting, d.oms.orders[id].brokerOrderId.value)];
      && o.filledQuantity == 0 && Oms.IdFor(o.request.idempotencyKey) == id && Runs.FillsFor(d.broker.fills, o.id) == []
  {
    var bid := d.oms.orders[id].brokerOrderId.value;
    var o := d.broker.resting[PB.IndexOf(d.broker.resting, bid)];
    RestingUnfilled(d, opening, o);
    SoundBrokerOrder(d.broker, opening, o);
    assert Mirrored(d.oms, d.broker.seenKeys, d.broker.completed.Keys, d.broker.fills, id);
    hide Mirrored, Runs.Rests, Runs.Done, Runs.Registered, Folded, StatusFor, Runs.FillsFor, FilledQuantity, SameMoney, SameRequests;
  }

  lemma StepWhole(cfg: PB.Config, maxRetries: nat, d: Desk, opening: Paise, e: Event)
    requires cfg.Valid() && Balanced(d, opening) && Whole(d)
    requires e.Quoted? ==> e.quote.volume.None?
    ensures Whole(Step(cfg, maxRetries, d, e))
  {
    BalancedIsValid(d, opening);
    hide Balanced, Concluded, PB.WorkQueue, PB.Archive;
    match e
    case Submit(request, now) => SubmitWhole(cfg, maxRetries, d, opening, request, now);
    case Cancel(id) => CancelWhole(cfg, maxRetries, d, opening, id);
    case Clock(timestamp) => ClockWhole(d, timestamp);
    case Quoted(quote) =>
      var t := Step(cfg, maxRetries, d, e);
      forall o | o in t.broker.resting
        ensures o.filledQuantity == 0
      {
        QuoteRests(cfg, maxRetries, d, opening, quote, o);
      }
      forall id | id in t.broker.completed
        ensures Concluded(t, id)
      {
        QuoteConcludes(cfg, maxRetries, d, opening, quote, id);
      }
  }

  lemma ClockWhole(d: Desk, timestamp: Timestamp)
    requires Whole(d)
    ensures Whole(d.(broker := d.broker.(clock := timestamp)))
  {
    var t := d.(broker := d.broker.(clock := timestamp));
    forall id | id in t.broker.completed
      ensures Concluded(t, id)
    {
      assert Concluded(d, id);
    }
  }

  lemma {:induction false} UncappedRunIsWhole(cfg: PB.Config, maxRetries: nat, cash: Paise, events: seq<Event>)
    requires cfg.Valid() && Uncapped(events)
    ensures Whole(Run(cfg, maxRetries, cash, events))
  {
    hide Balanced, Step;
    if events == [] {
    } else {
      var before := events[..|events| - 1];
      UncappedRunIsWhole(cfg, maxRetries, cash, before);
      StepWhole(cfg, maxRetries, Run(cfg, maxRetries, cash, before), cash, events[|events| - 1]);
    }
  }

  /** Status, quantity and average of one order are the same on both sides. */
  predicate SameStory(d: Desk, o: Order) {
    var p := Oms.IdFor(o.request.idempotencyKey);
    && p in d.oms.orders
    && d.oms.orders[p].brokerOrderId == Some(o.id)
    && d.oms.orders[p].request == o.request
    && d.oms.orders[p].status == o.status
    && d.oms.orders[p].filledQuantity == o.filledQuantity
    && d.oms.orders[p].averageFillPrice == o.averageFillPrice
  }

  lemma WholeTellsSameStory(d: Desk, opening: Paise, o: Order)
    requires Balanced(d, opening) && Whole(d) && BrokerOrder(d.broker, o)
    ensures SameStory(d, o)
  {
    BalancedOrderAgrees(d, opening, o);
    SoundBrokerOrder(d.broker, opening, o);
    var p := Oms.IdFor(o.request.idempotencyKey);
    assert Mirrored(d.oms, d.broker.seenKeys, d.broker.completed.Keys, d.broker.fills, p);
    if o in d.broker.resting {
      RestingUnfilled(d, opening, o);
      DistinctResting(d.broker, opening);
    } else {
      assert Concluded(d, o.id);
    }
    hide Runs.Sound, Mirrors, Folded, Runs.FillsFor, FilledQuantity, SameMoney, SameRequests;
  }

  /** In every state of every run without volume caps the order manager repeats the broker exactly. */
  lemma UncappedLedgersTellSameStory(cfg: PB.Config, maxRetries: nat, cash: Paise, events: seq<Event>)
    requires cfg.Valid() && Uncapped(events)
    ensures forall o :: BrokerOrder(Run(cfg, maxRetries, cash, events).broker, o) ==> SameStory(Run(cfg, maxRetries, cash, events), o)
  {
    hide Balanced, Run, Whole, SameStory;
    UncappedRunIsWhole(cfg, maxRetries, cash, events);
    var d := Run(cfg, maxRetries, cash, events);
    forall o | BrokerOrder(d.broker, o)
      ensures SameStory(d, o)
    {
      WholeTellsSameStory(d, cash, o);
    }
  }
}
