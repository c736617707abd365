// What the order manager's status says of the broker's when quotes may be capped.
module LedgersStatus {
  import opened Money
  import opened Domain
  import opened Averages
  import opened Ledgers
  import opened LedgersUncapped
  import PB = PaperBrokers
  import Runs = PaperBrokerRuns
  import Oms

  /**
   * A completed order: the order manager calls it cancelled only if the broker does, and the broker
   * does so alone only when it dropped an immediate order that traded nothing.
   */
  ghost predicate Ended(d: Desk, id: Id)
    requires id in d.broker.completed
  {
    var c := d.broker.completed[id];
    var p := Oms.IdFor(c.request.idempotencyKey);
    && p in d.oms.orders
    && (d.oms.orders[p].status.CANCELLED? ==> c.status.CANCELLED?)
    && (c.status.CANCELLED? ==> d.oms.orders[p].status.CANCELLED? || (c.request.timeInForce.IOC? && c.filledQuantity == 0))
  }

  ghost predicate AllEnded(d: Desk) {
    forall id :: id in d.broker.completed ==> Ended(d, id)
  }

  // ----- Every event keeps it -----

  lemma SubmitEnded(cfg: PB.Config, maxRetries: nat, d: Desk, opening: Paise, request: OrderRequest, now: Timestamp)
    requires cfg.Valid() && Balanced(d, opening) && d.oms.Valid() && AllEnded(d)
    ensures AllEnded(Step(cfg, maxRetries, d, Submit(request, now)))
  {
    hide Balanced, Oms.Submitted, Oms.State.Valid, PB.Acceptable;
    if request.idempotencyKey in d.oms.registry {
      DuplicateChangesNothing(d.oms, d.broker, request, maxRetries, now);
    } else {
      NewKeyIsFresh(d, opening, request.idempotencyKey);
      SubmissionPlaces(d.oms, d.broker, request, maxRetries, now);
      var t := Step(cfg, maxRetries, d, Submit(request, now));
      forall id | id in t.broker.completed
        ensures Ended(t, id)
      {
        assert Ended(d, id);
      }
    }
  }

  lemma CancelledIsMirrored(d: Desk, opening: Paise, id: Id)
    requires Balanced(d, opening) && id in d.oms.orders && d.oms.orders[id].brokerOrderId.Some?
    requires PB.IsResting(d.broker, d.oms.orders[id].brokerOrderId.value)
    ensures var o := d.broker.resting[PB.IndexOf(d.broker.resting, d.oms.orders[id].brokerOrderId.value)];
            Oms.IdFor(o.request.idempotencyKey) == id
  {
    var bid := d.oms.orders[id].brokerOrderId.value;
    var o := d.broker.resting[PB.IndexOf(d.broker.resting, bid)];
    SoundBrokerOrder(d.broker, opening, o);
    assert Mirrored(d.oms, d.broker.seenKeys, d.broker.completed.Keys, d.broker.fills, id);
    hide Mirrored, Runs.Rests, Runs.Done, Runs.Registered, Folded, StatusFor, Runs.FillsFor, FilledQuantity, SameMoney, SameRequests;
  }

  lemma CancelEnded(cfg: PB.Config, maxRetries: nat, d: Desk, opening: Paise, id: Id)
    requires cfg.Valid() && Balanced(d, opening) && d.oms.Valid() && AllEnded(d)
    ensures AllEnded(Step(cfg, maxRetries, d, Cancel(id)))
  {
    hide Balanced, Step;
    CancelCases(cfg, maxRetries, d, opening, id);
    var t := Step(cfg, maxRetries, d, Cancel(id));
    if t != d {
      CancelledIsMirrored(d, opening, id);
      forall c | c in t.broker.completed
        ensures Ended(t, c)
      {
        if c in d.broker.completed {
          assert Ended(d, c);
          KeepsItsStory(d, opening, c, id);
        }
      }
    }
  }

  /** Working a live order cancels it only if it is immediate and traded nothing. */
  lemma WorkedCancelled(cfg: PB.Config, clock: Timestamp, o: Order, quote: PB.Quote)
    requires cfg.Valid() && (o.status.OPEN? || o.status.PARTIALLY_FILLED?) && o.filledQuantity >= 0
    ensures var w := PB.WorkOrder(cfg, clock, o, quote).order;
            w.status.CANCELLED? ==> w.request.timeInForce.IOC? && w.filledQuantity == 0
  {
    hide Blend, PB.ResolveFillPrice, PB.Execution, PB.Capacity;
  }

  lemma RestingIsLive(b: PB.State, opening: Paise, o: Order)
    requires Runs.Sound(b, opening) && o in b.resting
    ensures (o.status.OPEN? || o.status.PARTIALLY_FILLED?) && o.filledQuantity >= 0 && o.id !in b.completed
  {
    SoundBrokerOrder(b, opening, o);
    FilledQuantityPositive(Runs.FillsFor(b.fills, o.id));
    hide Runs.Sound, Runs.FillsFor, FilledQuantity;
  }

  lemma FreshlyEnded(cfg: PB.Config, b: PB.State, opening: Paise, quote: PB.Quote, c: Order)
    requires cfg.Valid() && Runs.Sound(b, opening) && BrokerOrder(PB.Publish(cfg, b, quote), c) && c.id !in b.completed
    ensures c.status.CANCELLED? ==> c.request.timeInForce.IOC? && c.filledQuantity == 0
  {
    hide Runs.Sound, PB.Publish, PB.WorkOrder, BrokerOrder;
    QuotedOrder(cfg, b, opening, quote, c);
    var i :| 0 <= i < |b.resting| && c == PB.WorkOrder(cfg, b.clock, b.resting[i], quote).order;
    RestingIsLive(b, opening, b.resting[i]);
    WorkedCancelled(cfg, b.clock, b.resting[i], quote);
  }

  lemma QuoteEnds(cfg: PB.Config, maxRetries: nat, d: Desk, opening: Paise, quote: PB.Quote, id: Id)
    requires cfg.Valid() && Balanced(d, opening) && d.oms.Valid() && id !in d.broker.completed
    requires id in Step(cfg, maxRetries, d, Quoted(quote)).broker.completed
    ensures Ended(Step(cfg, maxRetries, d, Quoted(quote)), id)
  {
    var t := Step(cfg, maxRetries, d, Quoted(quote));
    assert Runs.Sound(d.broker, opening);
    hide Balanced, Step, PB.Publish, PB.WorkQueue, Runs.Sound;
    var c := t.broker.completed[id];
    QuoteBalances(cfg, maxRetries, d, opening, quote);
    CompletedOrder(t, opening, id);
    StepIsPublish(cfg, maxRetries, d, opening, quote);
    FreshlyEnded(cfg, d.broker, opening, quote, c);
    BalancedOrderAgrees(t, opening, c);
    NotCancelled(t.oms, d.broker.seenKeys, d.broker.completed.Keys, t.broker.fills, Oms.IdFor(c.request.idempotencyKey), id);
  }

  lemma QuoteEnded(cfg: PB.Config, maxRetries: nat, d: Desk, opening: Paise, quote: PB.Quote)
    requires cfg.Valid() && Balanced(d, opening) && d.oms.Valid() && AllEnded(d)
    ensures AllEnded(Step(cfg, maxRetries, d, Quoted(quote)))
  {
    hide Balanced, Step, PB.Publish, PB.WorkQueue, Runs.FillsFor;
    QuoteParts(cfg, maxRetries, d, quote);
    var t := Step(cfg, maxRetries, d, Quoted(quote));
    forall id | id in t.broker.completed
      ensures Ended(t, id)
    {
      if id in d.broker.completed {
        assert Ended(d, id);
        QuoteLeavesDone(cfg, d, opening, quote, id);
      } else {
        QuoteEnds(cfg, maxRetries, d, opening, quote, id);
      }
    }
  }

  lemma StepEnded(cfg: PB.Config, maxRetries: nat, d: Desk, opening: Paise, e: Event)
    requires cfg.Valid() && Balanced(d, opening) && d.oms.Valid() && AllEnded(d)
    ensures AllEnded(Step(cfg, maxRetries, d, e))
  {
    hide Balanced, PB.Publish, Deliver, Oms.Submitted, Oms.CancelOrder;
    match e
    case Submit(request, now) => SubmitEnded(cfg, maxRetries, d, opening, request, now);
    case Cancel(id) => CancelEnded(cfg, maxRetries, d, opening, id);
    case Quoted(quote) => QuoteEnded(cfg, maxRetries, d, opening, quote);
    case Clock(timestamp) =>
      var t := Step(cfg, maxRetries, d, e);
      forall id | id in t.broker.completed
        ensures Ended(t, id)
      {
        assert Ended(d, id);
      }
  }

  lemma {:induction false} RunEnded(cfg: PB.Config, maxRetries: nat, cash: Paise, events: seq<Event>)
    requires cfg.Valid()
    ensures AllEnded(Run(cfg, maxRetries, cash, events))
  {
    hide Balanced, Step, Ended;
    if events != [] {
      var before := events[..|events| - 1];
      RunEnded(cfg, maxRetries, cash, before);
      BalancedIsValid(Run(cfg, maxRetries, cash, before), cash);
      StepEnded(cfg, maxRetries, Run(cfg, maxRetries, cash, before), cash, events[|events| - 1]);
    }
  }

  // ----- Who cancelled an order -----

  predicate IsCancelled(oms: Oms.State, p: Id) {
    p in oms.orders && oms.orders[p].status.CANCELLED?
  }

  /** A cancellation that goes through: the order is live here and still rests at the exchange. */
  predicate Cancellable(d: Desk, p: Id) {
    && p in d.oms.orders && !IsTerminal(d.oms.orders[p].status)
    && d.oms.orders[p].brokerOrderId.Some? && PB.IsResting(d.broker, d.oms.orders[p].brokerOrderId.value)
  }

  /** Some cancellation of the order went through. */
  ghost predicate Withdrawn(cfg: PB.Config, maxRetries: nat, cash: Paise, events: seq<Event>, p: Id)
    requires cfg.Valid()
  {
    && events != []
    && var before, last := events[..|events| - 1], events[|events| - 1];
       || Withdrawn(cfg, maxRetries, cash, before, p)
       || (last == Cancel(p) && Cancellable(Run(cfg, maxRetries, cash, before), p))
  }

  /** An execution neither cancels an order nor revives a cancelled one. */
  lemma FilledKeepsCancelled(oms: Oms.State, fill: Fill, p: Id)
    requires oms.Valid() && fill.quantity > 0
    ensures IsCancelled(Oms.Filled(oms, fill).0, p) <==> IsCancelled(oms, p)
  {
    hide Blend, Oms.Lookup, Oms.Seen;
  }

  lemma {:induction false} DeliverKeepsCancelled(oms: Oms.State, fills: seq<Fill>, p: Id)
    requires oms.Valid() && PositiveFills(fills)
    ensures IsCancelled(Deliver(oms, fills), p) <==> IsCancelled(oms, p)
  {
    hide Oms.Filled, Oms.State.Valid, IsCancelled;
    if fills != [] {
      DeliverKeepsCancelled(oms, fills[..|fills| - 1], p);
      FilledKeepsCancelled(Deliver(oms, fills[..|fills| - 1]), fills[|fills| - 1], p);
    }
  }

  lemma SubmitKeepsCancelled(cfg: PB.Config, maxRetries: nat, d: Desk, opening: Paise, request: OrderRequest, now: Timestamp, p: Id)
    requires cfg.Valid() && Balanced(d, opening) && d.oms.Valid()
    ensures IsCancelled(Step(cfg, maxRetries, d, Submit(request, now)).oms, p) <==> IsCancelled(d.oms, p)
  {
    hide Balanced, Oms.Submitted, Oms.State.Valid, PB.Acceptable;
    if request.idempotencyKey in d.oms.registry {
      DuplicateChangesNothing(d.oms, d.broker, request, maxRetries, now);
    } else {
      NewKeyIsFresh(d, opening, request.idempotencyKey);
      SubmissionPlaces(d.oms, d.broker, request, maxRetries, now);
    }
  }

  lemma CancelChanges(cfg: PB.Config, maxRetries: nat, d: Desk, opening: Paise, id: Id)
    requires cfg.Valid() && Balanced(d, opening) && d.oms.Valid()
    ensures Step(cfg, maxRetries, d, Cancel(id)) != d <==> Cancellable(d, id)
    ensures Cancellable(d, id) ==> WentThrough(d, id, Step(cfg, maxRetries, d, Cancel(id)))
  {
    CancelCases(cfg, maxRetries, d, opening, id);
    if Cancellable(d, id) {
      var order := d.oms.orders[id];
      assert CancelledOms(d.oms, id).orders[id].status != order.status;
    }
    hide Balanced, PB.Cancelled, Oms.State.Valid;
  }

  lemma CancelCancels(cfg: PB.Config, maxRetries: nat, d: Desk, opening: Paise, id: Id, p: Id)
    requires cfg.Valid() && Balanced(d, opening) && d.oms.Valid()
    ensures IsCancelled(Step(cfg, maxRetries, d, Cancel(id)).oms, p) <==> IsCancelled(d.oms, p) || (id == p && Cancellable(d, p))
  {
    hide Balanced, Step, Cancellable, Oms.State.Valid;
    CancelChanges(cfg, maxRetries, d, opening, id);
  }

  lemma QuoteKeepsCancelled(cfg: PB.Config, maxRetries: nat, d: Desk, quote: PB.Quote, p: Id)
    requires cfg.Valid() && d.oms.Valid()
    ensures IsCancelled(Step(cfg, maxRetries, d, Quoted(quote)).oms, p) <==> IsCancelled(d.oms, p)
  {
    hide Step, Oms.State.Valid, IsCancelled, PB.WorkQueue;
    QuoteParts(cfg, maxRetries, d, quote);
    assert PositiveFills(Produced(cfg, d.broker, quote));
    DeliverKeepsCancelled(d.oms, Produced(cfg, d.broker, quote), p);
  }

  lemma StepCancels(cfg: PB.Config, maxRetries: nat, d: Desk, opening: Paise, e: Event, p: Id)
    requires cfg.Valid() && Balanced(d, opening) && d.oms.Valid()
    ensures IsCancelled(Step(cfg, maxRetries, d, e).oms, p) <==> IsCancelled(d.oms, p) || (e == Cancel(p) && Cancellable(d, p))
  {
    hide Balanced, PB.Publish, Deliver, Oms.Submitted, Oms.CancelOrder, Cancellable, IsCancelled;
    match e
    case Submit(request, now) => SubmitKeepsCancelled(cfg, maxRetries, d, opening, request, now, p);
    case Cancel(id) => CancelCancels(cfg, maxRetries, d, opening, id, p);
    case Quoted(quote) => QuoteKeepsCancelled(cfg, maxRetries, d, quote, p);
    case Clock(_) =>
  }

  /** After any events the order manager holds an order as cancelled exactly when a cancellation of it went through. */
  lemma {:induction false} CancelledExactly(cfg: PB.Config, maxRetries: nat, cash: Paise, events: seq<Event>, p: Id)
    requires cfg.Valid()
    ensures IsCancelled(Run(cfg, maxRetries, cash, events).oms, p) <==> Withdrawn(cfg, maxRetries, cash, events, p)
  {
    hide Balanced, Step, Cancellable;
    if events != [] {
      hide IsCancelled;
      var before := events[..|events| - 1];
      CancelledExactly(cfg, maxRetries, cash, before, p);
      BalancedIsValid(Run(cfg, maxRetries, cash, before), cash);
      StepCancels(cfg, maxRetries, Run(cfg, maxRetries, cash, before), cash, events[|events| - 1], p);
    }
  }

  /** A quote cancels a live order at the exchange exactly when it is immediate, untouched, and finds no volume. */
  lemma DroppedExactly(cfg: PB.Config, clock: Timestamp, o: Order, quote: PB.Quote)
    requires cfg.Valid() && (o.status.OPEN? || o.status.PARTIALLY_FILLED?) && 0 <= o.filledQuantity < o.request.quantity
    ensures PB.WorkOrder(cfg, clock, o, quote).order.status.CANCELLED? <==>
            && o.request.timeInForce.IOC? && PB.Attempted(cfg, o, quote) && o.filledQuantity == 0
            && PB.Capacity(cfg, o.request.quantity, quote.volume) == 0
  {
    hide Blend, PB.ResolveFillPrice, PB.Execution;
  }

  // ----- What it means for the statuses -----

  /** The order manager's status of an order, told from the broker's and from whether it was withdrawn. */
  ghost predicate TellsStatus(d: Desk, o: Order, withdrawn: bool) {
    var p := Oms.IdFor(o.request.idempotencyKey);
    && p in d.oms.orders
    && var mine := d.oms.orders[p].status;
       match o.status
       case FILLED => mine == if NoRepeats(Runs.FillsFor(d.broker.fills, o.id)) then FILLED else PARTIALLY_FILLED
       case CANCELLED => mine == if withdrawn then CANCELLED else OPEN
       case _ => mine == o.status
  }

  /** The broker's status, filled by executions two of which coincide, or cancelled by the broker alone. */
  ghost predicate Parted(d: Desk, o: Order, withdrawn: bool) {
    (o.status.FILLED? && !NoRepeats(Runs.FillsFor(d.broker.fills, o.id))) || (o.status.CANCELLED? && !withdrawn)
  }

  lemma {:induction false} SomethingFoldsToSomething(fills: seq<Fill>)
    ensures Folded(fills) == [] <==> fills == []
  {
    if fills != [] {
      SomethingFoldsToSomething(fills[..|fills| - 1]);
    }
  }

  /** The status a live order has from what it traded. */
  lemma StatusFromFolding(mine: seq<Fill>, quantity: int)
    requires PositiveFills(mine) && FilledQuantity(mine) <= quantity && quantity > 0
    ensures var status := StatusFor(FilledQuantity(Folded(mine)), quantity);
      && (FilledQuantity(mine) == 0 <==> status.OPEN?)
      && (status.FILLED? <==> FilledQuantity(mine) == quantity && NoRepeats(mine))
      && (status.FILLED? || status.OPEN? || status.PARTIALLY_FILLED?)
  {
    hide Folded, NoRepeats, FilledQuantity;
    SomethingFoldsToSomething(mine);
    FoldedQuantity(mine);
    NoRepeatsFoldWhole(mine);
    FilledQuantityPositive(mine);
    FilledQuantityPositive(Folded(mine));
    NothingFilled();
  }

  lemma NothingFilled()
    ensures FilledQuantity([]) == 0
  {
  }

  lemma EndedTells(d: Desk, opening: Paise, o: Order)
    requires Balanced(d, opening) && AllEnded(d) && BrokerOrder(d.broker, o)
    ensures TellsStatus(d, o, IsCancelled(d.oms, Oms.IdFor(o.request.idempotencyKey)))
    ensures o.status.CANCELLED? && !IsCancelled(d.oms, Oms.IdFor(o.request.idempotencyKey)) ==>
              o.request.timeInForce.IOC? && o.filledQuantity == 0
  {
    BalancedOrderAgrees(d, opening, o);
    SoundBrokerOrder(d.broker, opening, o);
    var p := Oms.IdFor(o.request.idempotencyKey);
    assert Mirrored(d.oms, d.broker.seenKeys, d.broker.completed.Keys, d.broker.fills, p);
    assert o.id in d.broker.completed ==> Ended(d, o.id);
    hide Runs.Sound, Mirrors, SameMoney, SameRequests, Folded, FilledQuantity, NoRepeats, Runs.FillsFor, StatusFor, Ended;
    StatusFromFolding(Runs.FillsFor(d.broker.fills, o.id), o.request.quantity);
    EndedOrder(d, opening, o);
  }

  lemma EndedOrder(d: Desk, opening: Paise, o: Order)
    requires Balanced(d, opening) && AllEnded(d) && BrokerOrder(d.broker, o)
    ensures var p := Oms.IdFor(o.request.idempotencyKey);
      && p in d.oms.orders
      && (d.oms.orders[p].status.CANCELLED? ==> o.status.CANCELLED?)
      && (o.status.CANCELLED? ==> d.oms.orders[p].status.CANCELLED? || (o.request.timeInForce.IOC? && o.filledQuantity == 0))
  {
    BalancedOrderAgrees(d, opening, o);
    if o in d.broker.resting {
      RestingIsLive(d.broker, opening, o);
      NotCancelled(d.oms, d.broker.seenKeys, d.broker.completed.Keys, d.broker.fills, Oms.IdFor(o.request.idempotencyKey), o.id);
    } else {
      assert Ended(d, o.id);
    }
  }

  /**
   * In every state of every run, capped or not, the order manager's status of an order follows from
   * the broker's. They differ exactly in two cases: an order filled by executions two of which
   * coincide stays partly filled, and one cancelled at the exchange without a cancellation from here
   * stays open; that one is immediate and traded nothing.
   */
  lemma StatusesAgree(cfg: PB.Config, maxRetries: nat, cash: Paise, events: seq<Event>, o: Order)
    requires cfg.Valid() && BrokerOrder(Run(cfg, maxRetries, cash, events).broker, o)
    ensures var d, p := Run(cfg, maxRetries, cash, events), Oms.IdFor(o.request.idempotencyKey);
      var withdrawn := Withdrawn(cfg, maxRetries, cash, events, p);
      && TellsStatus(d, o, withdrawn)
      && (d.oms.orders[p].status != o.status <==> Parted(d, o, withdrawn))
      && (o.status.CANCELLED? && !withdrawn ==> o.request.timeInForce.IOC? && o.filledQuantity == 0)
  {
    hide Balanced, Run, AllEnded, BrokerOrder, Withdrawn, NoRepeats, Runs.FillsFor, IsCancelled;
    RunEnded(cfg, maxRetries, cash, events);
    CancelledExactly(cfg, maxRetries, cash, events, Oms.IdFor(o.request.idempotencyKey));
    EndedTells(Run(cfg, maxRetries, cash, events), cash, o);
  }

  // ----- The dropped order -----

  /** A quote that would trade an immediate market order, but has no volume for it. */
  ghost predicate Dropping(cfg: PB.Config, request: OrderRequest, quote: PB.Quote)
    requires cfg.Valid()
  {
    && request.quantity > 0 && request.orderType.MARKET? && request.timeInForce.IOC? && request.symbol == quote.symbol
    && quote.volume.Some? && PB.Capacity(cfg, request.quantity, quote.volume) == 0
  }

  lemma DroppedAtBroker(cfg: PB.Config, cash: Paise, request: OrderRequest, quote: PB.Quote)
    requires cfg.Valid() && Dropping(cfg, request, quote)
    ensures var accepted := PB.Accept(PB.Fresh(cash), request).0;
      && accepted.completed == map[]
      && var b := PB.Publish(cfg, accepted, quote);
         && Venue(1) in b.completed && b.completed[Venue(1)].status.CANCELLED? && b.completed[Venue(1)].id == Venue(1)
         && b.completed[Venue(1)].request == request
  {
    hide PB.CashFlows, PB.ApplySlippage, PB.WorkQueue, PB.Execution, Blend;
    var o := Order(Venue(1), request, OPEN, Some(Venue(1)), 0, None);
    assert PB.Accept(PB.Fresh(cash), request).0.resting == [o];
    OneOrderQueue(cfg, 0, o, quote);
    LastArchived(map[], PB.WorkOrder(cfg, 0, o, quote).order);
  }

  /** The other case arises too: the exchange drops the order and the order manager keeps it open. */
  lemma DroppedOrderStaysOpen(cfg: PB.Config, maxRetries: nat, cash: Paise, request: OrderRequest, quote: PB.Quote)
    requires cfg.Valid() && Dropping(cfg, request, quote)
    ensures var d := Run(cfg, maxRetries, cash, [Submit(request, 0), Quoted(quote)]);
      var p := Oms.IdFor(request.idempotencyKey);
      && Venue(1) in d.broker.completed && d.broker.completed[Venue(1)].status.CANCELLED?
      && p in d.oms.orders && d.oms.orders[p].status.OPEN?
  {
    hide Run, Step, Balanced, PB.Publish, PB.Accept, Dropping, Oms.Submitted;
    var none: seq<Event> := [];
    var placed := none + [Submit(request, 0)];
    NothingYet(cfg, maxRetries, cash);
    Ledgers.RunOneMore(cfg, maxRetries, cash, none, Submit(request, 0));
    Ledgers.RunOneMore(cfg, maxRetries, cash, placed, Quoted(quote));
    assert [Submit(request, 0), Quoted(quote)] == placed + [Quoted(quote)];
    SubmittedToFresh(cash, request, maxRetries);
    DroppedAtBroker(cfg, cash, request, quote);
    StaysOpen(cfg, maxRetries, cash, placed, quote);
  }

  /** An order that a quote cancels at the broker is open in the order manager. */
  lemma StaysOpen(cfg: PB.Config, maxRetries: nat, cash: Paise, before: seq<Event>, quote: PB.Quote)
    requires cfg.Valid() && Run(cfg, maxRetries, cash, before).broker.completed == map[]
    requires Venue(1) in Run(cfg, maxRetries, cash, before + [Quoted(quote)]).broker.completed
    requires Run(cfg, maxRetries, cash, before + [Quoted(quote)]).broker.completed[Venue(1)].status.CANCELLED?
    ensures var d := Run(cfg, maxRetries, cash, before + [Quoted(quote)]);
      var p := Oms.IdFor(d.broker.completed[Venue(1)].request.idempotencyKey);
      p in d.oms.orders && d.oms.orders[p].status.OPEN?
  {
    hide Balanced, Step, PB.Publish, TellsStatus, Parted, Withdrawn, IsCancelled, BrokerOrder;
    var events := before + [Quoted(quote)];
    var d0, d := Run(cfg, maxRetries, cash, before), Run(cfg, maxRetries, cash, events);
    assert events[..|events| - 1] == before;
    hide Run;
    BalancedIsValid(d0, cash);
    StepIsPublish(cfg, maxRetries, d0, cash, quote);
    CompletedOrder(d, cash, Venue(1));
    var c := d.broker.completed[Venue(1)];
    BalancedOrderAgrees(d, cash, c);
    NotCancelled(d.oms, d0.broker.seenKeys, d0.broker.completed.Keys, d.broker.fills, Oms.IdFor(c.request.idempotencyKey), Venue(1));
    StatusesAgree(cfg, maxRetries, cash, events, c);
    OpenIfNotCancelled(d, c, Withdrawn(cfg, maxRetries, cash, events, Oms.IdFor(c.request.idempotencyKey)));
  }

  lemma OpenIfNotCancelled(d: Desk, o: Order, withdrawn: bool)
    requires TellsStatus(d, o, withdrawn) && o.status.CANCELLED?
    requires !d.oms.orders[Oms.IdFor(o.request.idempotencyKey)].status.CANCELLED?
    ensures d.oms.orders[Oms.IdFor(o.request.idempotencyKey)].status.OPEN?
  {
  }
}
