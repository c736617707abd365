// What holds of the simulated broker in every state any sequence of calls can reach.
module PaperBrokerRuns {
  import opened Money
  import opened Domain
  import opened Averages
  import opened PaperBrokers

  datatype Event =
    | Submitted(request: OrderRequest)
    | CancelRequested(id: Id)
    | ClockSet(timestamp: Timestamp)
    | Quoted(quote: Quote)

  function Step(cfg: Config, s: State, e: Event): State
    requires cfg.Valid()
  {
    match e
    case Submitted(request) => Accept(s, request).0
    case CancelRequested(id) => Cancelled(s, id)
    case ClockSet(timestamp) => s.(clock := timestamp)
    case Quoted(quote) => Publish(cfg, s, quote)
  }

  /** The executions of one order, in the order they happened. */
  function FillsFor(fills: seq<Fill>, id: Id): seq<Fill> {
    if fills == [] then []
    else
      var before, last := FillsFor(fills[..|fills| - 1], id), fills[|fills| - 1];
      if last.orderId == id then before + [last] else before
  }

  /**
   * An order is exactly what its executions say: quantity, rounded average, never more than was
   * asked for, never beyond its limit, always its own symbol and side.
   */
  ghost predicate MatchesFills(o: Order, fills: seq<Fill>) {
    var mine := FillsFor(fills, o.id);
    && PositiveFills(mine)
    && o.filledQuantity == FilledQuantity(mine) <= o.request.quantity
    && o.averageFillPrice == RecordedAverage(mine)
    && (forall f :: f in mine ==>
          f.symbol == o.request.symbol && f.side == o.request.side && WithinLimit(o.request, f.price))
  }

  predicate Issued(s: State, id: Id) {
    id.Venue? && 1 <= id.number <= s.sequence
  }

  ghost predicate SoundOrder(o: Order, s: State) {
    && Issued(s, o.id)
    && o.brokerOrderId == Some(o.id)
    && o.request.quantity > 0
    && o.request.idempotencyKey in s.seenKeys && s.seenKeys[o.request.idempotencyKey] == o.id
    && MatchesFills(o, s.fills)
    && (o.status.OPEN? ==> o.filledQuantity == 0)
    && (o.status.PARTIALLY_FILLED? ==> 0 < o.filledQuantity < o.request.quantity)
    && (o.status.FILLED? ==> o.filledQuantity == o.request.quantity)
    && !o.status.PENDING_NEW? && !o.status.REJECTED?
  }

  /** The invariant of the broker, for an account opened with the given cash. */
  ghost predicate Sound(s: State, opening: Paise) {
    && (forall i :: 0 <= i < |s.resting| ==> Rests(s, s.resting[i]))
    && (forall i, j :: 0 <= i < j < |s.resting| ==> s.resting[i].id != s.resting[j].id)
    && (forall id :: id in s.completed ==> Done(s, id))
    && (forall k :: k in s.seenKeys ==> Registered(s, k))
    && (forall k, l :: k in s.seenKeys && l in s.seenKeys && s.seenKeys[k] == s.seenKeys[l] ==> k == l)
    && (forall f :: f in s.fills ==> Issued(s, f.orderId))
    && s.cash == opening + CashFlows(s.fills)
  }

  /** A key the broker has seen leads to an order that is still resting or done. */
  ghost predicate Registered(s: State, k: Key)
    requires k in s.seenKeys
  {
    Issued(s, s.seenKeys[k]) && (s.seenKeys[k] in s.completed || IsResting(s, s.seenKeys[k]))
  }

  ghost predicate Rests(s: State, o: Order) {
    && SoundOrder(o, s)
    && o.id !in s.completed
    && o.filledQuantity < o.request.quantity
    && (o.status.OPEN? || o.status.PARTIALLY_FILLED?)
  }

  ghost predicate Done(s: State, id: Id)
    requires id in s.completed
  {
    s.completed[id].id == id && SoundOrder(s.completed[id], s) && !s.completed[id].status.OPEN?
  }

  // ----- One order -----

  lemma FillsForAppend(fills: seq<Fill>, f: Fill, id: Id)
    ensures FillsFor(fills + [f], id) == if f.orderId == id then FillsFor(fills, id) + [f] else FillsFor(fills, id)
  {
    assert (fills + [f])[..|fills|] == fills;
  }

  lemma {:induction false} FillsForNone(fills: seq<Fill>, id: Id)
    requires forall f :: f in fills ==> f.orderId != id
    ensures FillsFor(fills, id) == []
  {
    if fills != [] {
      FillsForNone(fills[..|fills| - 1], id);
    }
  }

  lemma AppendedFillMatches(o: Order, fills: seq<Fill>, f: Fill, updated: Order)
    requires MatchesFills(o, fills) && f.orderId == o.id && f.quantity > 0
    requires f.symbol == o.request.symbol && f.side == o.request.side && WithinLimit(o.request, f.price)
    requires o.filledQuantity + f.quantity <= o.request.quantity
    requires updated.id == o.id && updated.request == o.request
    requires updated.filledQuantity == o.filledQuantity + f.quantity
    requires updated.averageFillPrice == Some(Blend(
               if o.averageFillPrice.Some? then o.averageFillPrice.value else 0, o.filledQuantity, f.quantity, f.price))
    ensures MatchesFills(updated, fills + [f])
  {
    hide Blend, WithinLimit;
    FillsForAppend(fills, f, o.id);
    var mine := FillsFor(fills, o.id);
    assert (mine + [f])[..|mine|] == mine;
    if mine == [] {
      assert RunningAverage(mine) == 0;
    }
  }

  lemma WorkedOrderMatches(cfg: Config, s: State, o: Order, quote: Quote)
    requires cfg.Valid() && Rests(s, o)
    ensures var w := WorkOrder(cfg, s.clock, o, quote);
      && w.order.id == o.id && w.order.request == o.request && w.order.brokerOrderId == o.brokerOrderId
      && MatchesFills(w.order, if w.fill.Some? then s.fills + [w.fill.value] else s.fills)
      && (w.fill.Some? ==> w.fill.value.orderId == o.id)
      && (w.rests ==> w.order.filledQuantity < w.order.request.quantity && (w.order.status.OPEN? || w.order.status.PARTIALLY_FILLED?))
      && (!w.rests ==> !w.order.status.OPEN?)
      && (w.order.status.OPEN? ==> w.order.filledQuantity == 0)
      && (w.order.status.PARTIALLY_FILLED? ==> 0 < w.order.filledQuantity < w.order.request.quantity)
      && (w.order.status.FILLED? ==> w.order.filledQuantity == w.order.request.quantity)
      && !w.order.status.PENDING_NEW? && !w.order.status.REJECTED?
  {
    hide Blend, ResolveFillPrice, MatchesFills, Costs.ComputeCosts, Turnover;
    var w := WorkOrder(cfg, s.clock, o, quote);
    if w.fill.Some? {
      AppendedFillMatches(o, s.fills, w.fill.value, w.order);
    } else {
      assert MatchesFills(w.order, s.fills) by { SameMatches(o, w.order, s.fills); }
    }
  }

  lemma SameMatches(o: Order, p: Order, fills: seq<Fill>)
    requires MatchesFills(o, fills)
    requires p.id == o.id && p.request == o.request && p.filledQuantity == o.filledQuantity && p.averageFillPrice == o.averageFillPrice
    ensures MatchesFills(p, fills)
  {
  }

  lemma OthersKeepMatching(o: Order, fills: seq<Fill>, f: Fill)
    requires MatchesFills(o, fills) && f.orderId != o.id
    ensures MatchesFills(o, fills + [f])
  {
    FillsForAppend(fills, f, o.id);
  }

  // ----- One order inside the book -----

  /** The state once the order between `kept` and `waiting` has been worked. */
  function Recorded(s: State, kept: seq<Order>, w: Worked, waiting: seq<Order>): State {
    s.(resting := kept + (if w.rests then [w.order] else []) + waiting,
       completed := if w.rests then s.completed else s.completed[w.order.id := w.order],
       fills := if w.fill.Some? then s.fills + [w.fill.value] else s.fills,
       cash := s.cash + if w.fill.Some? then CashFlow(w.fill.value) else 0)
  }

  lemma RecordedOrders(cfg: Config, s: State, opening: Paise, kept: seq<Order>, o: Order, waiting: seq<Order>, quote: Quote, p: Order)
    requires cfg.Valid() && Sound(s, opening) && s.resting == kept + [o] + waiting
    requires p in kept || p in waiting
    ensures p.id != o.id
    ensures Rests(Recorded(s, kept, WorkOrder(cfg, s.clock, o, quote), waiting), p)
  {
    hide WorkOrder, MatchesFills;
    WorkedOrderMatches(cfg, s, s.resting[|kept|], quote);
    var w := WorkOrder(cfg, s.clock, o, quote);
    var i: nat;
    if p in kept {
      i :| i < |kept| && kept[i] == p;
    } else {
      var k :| 0 <= k < |waiting| && waiting[k] == p;
      i := |kept| + 1 + k;
    }
    assert s.resting[i] == p && s.resting[|kept|] == o;
    assert Rests(s, s.resting[i]);
    if w.fill.Some? {
      OthersKeepMatching(p, s.fills, w.fill.value);
    }
  }

  lemma RecordedDone(cfg: Config, s: State, opening: Paise, kept: seq<Order>, o: Order, waiting: seq<Order>, quote: Quote, id: Id)
    requires cfg.Valid() && Sound(s, opening) && s.resting == kept + [o] + waiting
    requires id in Recorded(s, kept, WorkOrder(cfg, s.clock, o, quote), waiting).completed
    ensures Done(Recorded(s, kept, WorkOrder(cfg, s.clock, o, quote), waiting), id)
  {
    hide WorkOrder, MatchesFills;
    assert Rests(s, s.resting[|kept|]);
    WorkedOrderMatches(cfg, s, o, quote);
    var w := WorkOrder(cfg, s.clock, o, quote);
    if id != o.id {
      assert Done(s, id);
      if w.fill.Some? {
        OthersKeepMatching(s.completed[id], s.fills, w.fill.value);
      }
    }
  }

  lemma {:induction false} FoundAnywhere(orders: seq<Order>, i: nat)
    requires i < |orders|
    ensures IndexOf(orders, orders[i].id) < |orders|
  {
    if i > 0 && orders[0].id != orders[i].id {
      FoundAnywhere(orders[1..], i - 1);
    }
  }

  /** Working an order loses no order: each is still resting or has been completed. */
  lemma RecordedFinds(s: State, kept: seq<Order>, o: Order, waiting: seq<Order>, w: Worked, id: Id)
    requires s.resting == kept + [o] + waiting && w.order.id == o.id
    requires id in s.completed || IsResting(s, id)
    ensures id in Recorded(s, kept, w, waiting).completed || IsResting(Recorded(s, kept, w, waiting), id)
  {
    var t := Recorded(s, kept, w, waiting);
    if id !in t.completed {
      var i := IndexOf(s.resting, id);
      assert i < |s.resting| && s.resting[i].id == id;
      assert i == |kept| ==> w.rests;
      var j := if i <= |kept| || w.rests then i else i - 1;
      assert t.resting[j].id == id;
      FoundAnywhere(t.resting, j);
    }
  }

  lemma RecordedRests(cfg: Config, s: State, opening: Paise, kept: seq<Order>, o: Order, waiting: seq<Order>, quote: Quote, i: nat)
    requires cfg.Valid() && Sound(s, opening) && s.resting == kept + [o] + waiting
    requires i < |Recorded(s, kept, WorkOrder(cfg, s.clock, o, quote), waiting).resting|
    ensures var t := Recorded(s, kept, WorkOrder(cfg, s.clock, o, quote), waiting); Rests(t, t.resting[i])
  {
    hide WorkOrder, MatchesFills, Done, Registered, CashFlows, CashFlow;
    var w := WorkOrder(cfg, s.clock, o, quote);
    var t := Recorded(s, kept, w, waiting);
    if i == |kept| && w.rests {
      assert Rests(s, s.resting[|kept|]);
      WorkedOrderMatches(cfg, s, o, quote);
    } else {
      assert t.resting[i] in kept || t.resting[i] in waiting;
      RecordedOrders(cfg, s, opening, kept, o, waiting, quote, t.resting[i]);
    }
  }

  lemma RecordedDistinct(cfg: Config, s: State, opening: Paise, kept: seq<Order>, o: Order, waiting: seq<Order>, w: Worked)
    requires Sound(s, opening) && s.resting == kept + [o] + waiting && w.order.id == o.id
    ensures var t := Recorded(s, kept, w, waiting);
      forall i, j :: 0 <= i < j < |t.resting| ==> t.resting[i].id != t.resting[j].id
  {
    hide Rests, Done, Registered, CashFlows, CashFlow;
    var t := Recorded(s, kept, w, waiting);
    forall i, j | 0 <= i < j < |t.resting|
      ensures t.resting[i].id != t.resting[j].id
    {
      var shift := if w.rests then 0 else 1;
      var i', j' := if i < |kept| then i else i + shift, if j < |kept| then j else j + shift;
      assert s.resting[i'].id == t.resting[i].id;
      assert s.resting[j'].id == t.resting[j].id;
    }
  }

  lemma RecordedKeys(s: State, opening: Paise, kept: seq<Order>, o: Order, waiting: seq<Order>, w: Worked, k: Key)
    requires Sound(s, opening) && s.resting == kept + [o] + waiting && w.order.id == o.id && k in s.seenKeys
    ensures Registered(Recorded(s, kept, w, waiting), k)
  {
    hide Rests, Done, CashFlows, CashFlow, IsResting;
    assert Registered(s, k);
    RecordedFinds(s, kept, o, waiting, w, s.seenKeys[k]);
  }

  lemma RecordedMoney(s: State, opening: Paise, kept: seq<Order>, o: Order, waiting: seq<Order>, w: Worked)
    requires Sound(s, opening) && Issued(s, o.id)
    requires w.fill.Some? ==> w.fill.value.orderId == o.id
    ensures var t := Recorded(s, kept, w, waiting);
      (forall f :: f in t.fills ==> Issued(t, f.orderId)) && t.cash == opening + CashFlows(t.fills)
  {
    hide Rests, Done, Registered, CashFlow;
    var t := Recorded(s, kept, w, waiting);
    assert w.fill.Some? ==> t.fills[..|s.fills|] == s.fills;
  }

  lemma WorkingIsIssued(s: State, opening: Paise, kept: seq<Order>, o: Order, waiting: seq<Order>)
    requires Sound(s, opening) && s.resting == kept + [o] + waiting
    ensures Issued(s, o.id)
  {
    hide MatchesFills, CashFlows, Done, Registered;
    assert Rests(s, s.resting[|kept|]);
  }

  lemma RecordKeepsSound(cfg: Config, s: State, opening: Paise, kept: seq<Order>, o: Order, waiting: seq<Order>, quote: Quote)
    requires cfg.Valid() && Sound(s, opening) && s.resting == kept + [o] + waiting
    ensures Sound(Recorded(s, kept, WorkOrder(cfg, s.clock, o, quote), waiting), opening)
  {
    hide WorkOrder, CashFlows, CashFlow, Rests, Done, Registered, Issued;
    var w := WorkOrder(cfg, s.clock, o, quote);
    WorkingIsIssued(s, opening, kept, o, waiting);
    var t := Recorded(s, kept, w, waiting);
    RecordedDistinct(cfg, s, opening, kept, o, waiting, w);
    RecordedMoney(s, opening, kept, o, waiting, w);
    forall i | 0 <= i < |t.resting|
      ensures Rests(t, t.resting[i])
    {
      RecordedRests(cfg, s, opening, kept, o, waiting, quote, i);
    }
    forall k | k in t.seenKeys
      ensures Registered(t, k)
    {
      RecordedKeys(s, opening, kept, o, waiting, w, k);
    }
    forall id | id in t.completed
      ensures Done(t, id)
    {
      RecordedDone(cfg, s, opening, kept, o, waiting, quote, id);
    }
  }

  // ----- The whole book against one price -----

  /** The state when the first `n` resting orders have been worked. */
  function Midway(cfg: Config, s: State, quote: Quote, n: nat): State
    requires cfg.Valid() && n <= |s.resting|
  {
    var pass := WorkQueue(cfg, s.clock, s.resting[..n], quote);
    s.(resting := pass.kept + s.resting[n..],
       completed := Archive(s.completed, pass.done),
       fills := s.fills + pass.fills,
       cash := s.cash + CashFlows(pass.fills))
  }

  lemma MidwayStart(cfg: Config, s: State, quote: Quote)
    requires cfg.Valid()
    ensures Midway(cfg, s, quote, 0) == s
  {
    assert s.resting[..0] == [] && s.resting[0..] == s.resting;
    EmptyPass(s.completed);
    assert s.fills + [] == s.fills;
  }

  lemma MidwayNext(cfg: Config, s: State, quote: Quote, n: nat)
    requires cfg.Valid() && n < |s.resting|
    ensures Midway(cfg, s, quote, n + 1) ==
            Recorded(Midway(cfg, s, quote, n), WorkQueue(cfg, s.clock, s.resting[..n], quote).kept,
                     WorkOrder(cfg, s.clock, s.resting[n], quote), s.resting[n + 1..])
  {
    hide WorkOrder, CashFlow, CashFlows, Archive;
    var pass := WorkQueue(cfg, s.clock, s.resting[..n], quote);
    var w := WorkOrder(cfg, s.clock, s.resting[n], quote);
    assert s.resting[..n + 1][..n] == s.resting[..n];
    assert WorkQueue(cfg, s.clock, s.resting[..n + 1], quote) == Extend(pass, w);
    ExtendPass(s.completed, pass, w);
  }

  lemma {:induction false} MidwaySound(cfg: Config, s: State, opening: Paise, quote: Quote, n: nat)
    requires cfg.Valid() && Sound(s, opening) && n <= |s.resting|
    ensures Sound(Midway(cfg, s, quote, n), opening)
  {
    hide Sound, WorkQueue, Archive, CashFlows, Recorded;
    if n == 0 {
      MidwayStart(cfg, s, quote);
    } else {
      MidwaySound(cfg, s, opening, quote, n - 1);
      MidwayNext(cfg, s, quote, n - 1);
      var t := Midway(cfg, s, quote, n - 1);
      var kept := WorkQueue(cfg, s.clock, s.resting[..n - 1], quote).kept;
      assert s.resting[n - 1..] == [s.resting[n - 1]] + s.resting[n..];
      assert t.resting == kept + [s.resting[n - 1]] + s.resting[n..];
      RecordKeepsSound(cfg, t, opening, kept, s.resting[n - 1], s.resting[n..], quote);
    }
  }

  lemma PublishSound(cfg: Config, s: State, opening: Paise, quote: Quote)
    requires cfg.Valid() && Sound(s, opening)
    ensures Sound(Publish(cfg, s, quote), opening)
  {
    hide Sound, WorkQueue, Archive, CashFlows;
    MidwaySound(cfg, s, opening, quote, |s.resting|);
    assert s.resting[..|s.resting|] == s.resting;
    assert Midway(cfg, s, quote, |s.resting|) == Publish(cfg, s, quote);
  }

  // ----- The other calls -----

  lemma AcceptedRests(s: State, opening: Paise, request: OrderRequest, i: nat)
    requires Sound(s, opening) && Acceptable(s, request)
    requires i < |s.resting| + 1
    ensures var t := Accept(s, request).0; Rests(t, t.resting[i]) && (i < |s.resting| ==> t.resting[i].id.number <= s.sequence)
  {
    hide WithinLimit, CashFlows, Registered;
    if i < |s.resting| {
      assert Rests(s, s.resting[i]);
    } else {
      FillsForNone(s.fills, Venue(s.sequence + 1));
      assert forall k :: k in s.completed ==> Done(s, k) && Issued(s, k);
    }
  }

  lemma AcceptedDone(s: State, opening: Paise, request: OrderRequest, id: Id)
    requires Sound(s, opening) && Acceptable(s, request) && id in s.completed
    ensures Done(Accept(s, request).0, id)
  {
    hide MatchesFills, CashFlows, Registered;
    assert Done(s, id);
  }

  lemma AcceptSound(s: State, opening: Paise, request: OrderRequest)
    requires Sound(s, opening)
    ensures Sound(Accept(s, request).0, opening)
  {
    hide Rests, Done, CashFlows, MatchesFills, IsResting;
    if Acceptable(s, request) {
      var t := Accept(s, request).0;
      forall i | 0 <= i < |t.resting|
        ensures Rests(t, t.resting[i]) && (i < |s.resting| ==> t.resting[i].id != Venue(t.sequence))
      {
        AcceptedRests(s, opening, request, i);
      }
      forall k | k in t.completed
        ensures Done(t, k)
      {
        AcceptedDone(s, opening, request, k);
      }
      forall k | k in t.seenKeys
        ensures Registered(t, k)
      {
        AcceptedFinds(s, opening, request, k);
      }
      assert forall k :: k in s.seenKeys ==> Registered(s, k);
    }
  }

  lemma AcceptedFinds(s: State, opening: Paise, request: OrderRequest, k: Key)
    requires Sound(s, opening) && Acceptable(s, request)
    requires k in Accept(s, request).0.seenKeys
    ensures Registered(Accept(s, request).0, k)
  {
    var t := Accept(s, request).0;
    if k == request.idempotencyKey {
      FoundAnywhere(t.resting, |s.resting|);
    } else {
      assert Registered(s, k);
      if s.seenKeys[k] !in s.completed {
        var i := IndexOf(s.resting, s.seenKeys[k]);
        assert t.resting[i] == s.resting[i];
        FoundAnywhere(t.resting, i);
      }
    }
  }

  lemma CancelledRests(s: State, opening: Paise, i: nat, k: nat)
    requires Sound(s, opening) && i < |s.resting| && k < |s.resting| && k != i
    ensures Rests(Cancelled(s, s.resting[i].id), s.resting[k]) && s.resting[k].id != s.resting[i].id
  {
    hide MatchesFills, CashFlows;
    assert Rests(s, s.resting[i]) && Rests(s, s.resting[k]);
  }

  lemma CancelledDone(s: State, opening: Paise, i: nat, id: Id)
    requires Sound(s, opening) && i < |s.resting| && i == IndexOf(s.resting, s.resting[i].id)
    requires id in Cancelled(s, s.resting[i].id).completed
    ensures Done(Cancelled(s, s.resting[i].id), id)
  {
    assert Rests(s, s.resting[i]);
    if id == s.resting[i].id {
      SameMatches(s.resting[i], s.resting[i].(status := CANCELLED), s.fills);
    } else {
      hide MatchesFills;
      assert Done(s, id);
    }
  }

  lemma CancelSound(s: State, opening: Paise, id: Id)
    requires Sound(s, opening)
    ensures Sound(Cancelled(s, id), opening)
  {
    hide Rests, Done, CashFlows, Issued;
    var i := IndexOf(s.resting, id);
    if i < |s.resting| {
      var t := Cancelled(s, id);
      forall k | 0 <= k < |t.resting|
        ensures Rests(t, t.resting[k])
      {
        CancelledRests(s, opening, i, if k < i then k else k + 1);
      }
      forall k | k in t.completed
        ensures Done(t, k)
      {
        CancelledDone(s, opening, i, k);
      }
      forall f | f in t.fills
        ensures Issued(t, f.orderId)
      {
        IssuedDependsOnSequence(s, t, f.orderId);
      }
      forall k | k in t.seenKeys
        ensures Registered(t, k)
      {
        CancelledFinds(s, opening, i, k);
      }
    }
  }

  lemma CancelledFinds(s: State, opening: Paise, i: nat, k: Key)
    requires Sound(s, opening) && i < |s.resting| && i == IndexOf(s.resting, s.resting[i].id) && k in s.seenKeys
    ensures Registered(Cancelled(s, s.resting[i].id), k)
  {
    hide Rests, Done, CashFlows;
    var t := Cancelled(s, s.resting[i].id);
    assert Registered(s, k);
    var id := s.seenKeys[k];
    if id !in t.completed {
      var j := IndexOf(s.resting, id);
      var j' := if j < i then j else j - 1;
      assert t.resting[j'] == s.resting[j];
      FoundAnywhere(t.resting, j');
    }
  }

  lemma IssuedDependsOnSequence(s: State, t: State, id: Id)
    requires s.sequence <= t.sequence && Issued(s, id)
    ensures Issued(t, id)
  {
  }

  // ----- Whole runs -----

  function Run(cfg: Config, opening: Paise, events: seq<Event>): State
    requires cfg.Valid()
  {
    if events == [] then Fresh(opening)
    else Step(cfg, Run(cfg, opening, events[..|events| - 1]), events[|events| - 1])
  }

  /** Every state any sequence of calls reaches is sound. */
  lemma {:induction false} EveryRunIsSound(cfg: Config, opening: Paise, events: seq<Event>)
    requires cfg.Valid()
    ensures Sound(Run(cfg, opening, events), opening)
  {
    if events != [] {
      EveryRunIsSound(cfg, opening, events[..|events| - 1]);
      StepSound(cfg, Run(cfg, opening, events[..|events| - 1]), opening, events[|events| - 1]);
    }
  }

  lemma StepSound(cfg: Config, s: State, opening: Paise, e: Event)
    requires cfg.Valid() && Sound(s, opening)
    ensures Sound(Step(cfg, s, e), opening)
  {
    hide Sound, Accept, Cancelled, Publish;
    match e
    case Submitted(request) => AcceptSound(s, opening, request);
    case CancelRequested(id) => CancelSound(s, opening, id);
    case ClockSet(timestamp) => ClockSound(s, opening, timestamp);
    case Quoted(quote) => PublishSound(cfg, s, opening, quote);
  }

  lemma ClockSound(s: State, opening: Paise, timestamp: Timestamp)
    requires Sound(s, opening)
    ensures Sound(s.(clock := timestamp), opening)
  {
    var t := s.(clock := timestamp);
    forall k | k in t.seenKeys
      ensures Registered(t, k)
    {
      assert Registered(s, k);
    }
    forall i | 0 <= i < |t.resting|
      ensures Rests(t, t.resting[i])
    {
      assert Rests(s, s.resting[i]);
    }
    forall k | k in t.completed
      ensures Done(t, k)
    {
      assert Done(s, k);
    }
  }

  lemma AverageKeepsLimit(o: Order, mine: seq<Fill>, lo: Paise, hi: Paise)
    requires mine != [] && PositiveFills(mine)
    requires forall f :: f in mine ==> lo <= f.price <= hi && WithinLimit(o.request, f.price)
    ensures WithinLimit(o.request, RunningAverage(mine))
  {
    hide RunningAverage;
    if (o.request.orderType.LIMIT? || o.request.orderType.STOP_LIMIT?) && o.request.limitPrice.Some? {
      var limit := o.request.limitPrice.value;
      if o.request.side.BUY? {
        AverageWithinPrices(mine, lo, Min(hi, limit));
      } else {
        AverageWithinPrices(mine, Max(lo, limit), hi);
      }
    }
  }

  lemma KnownOrdersMatch(s: State, opening: Paise, o: Order)
    requires Sound(s, opening)
    requires o in s.resting || (o.id in s.completed && s.completed[o.id] == o)
    ensures MatchesFills(o, s.fills)
  {
    hide MatchesFills, CashFlows;
    if o in s.resting {
      var i :| 0 <= i < |s.resting| && s.resting[i] == o;
      assert Rests(s, s.resting[i]);
    } else {
      assert Done(s, o.id);
    }
  }

  /**
   * However a limit order fills, in however many pieces at however many prices, the average the
   * broker reports never breaches the limit, and stays between the cheapest and dearest execution.
   */
  lemma AverageNeverBreachesLimit(s: State, opening: Paise, o: Order, lo: Paise, hi: Paise)
    requires Sound(s, opening)
    requires o in s.resting || (o.id in s.completed && s.completed[o.id] == o)
    requires o.averageFillPrice.Some?
    requires forall f :: f in FillsFor(s.fills, o.id) ==> lo <= f.price <= hi
    ensures WithinLimit(o.request, o.averageFillPrice.value)
    ensures lo <= o.averageFillPrice.value <= hi
    ensures Abs(2 * (o.averageFillPrice.value * o.filledQuantity - Notional(FillsFor(s.fills, o.id))))
            <= RunningSizes(FillsFor(s.fills, o.id))
  {
    hide Sound, RunningAverage, FilledQuantity, Notional, RunningSizes, FillsFor, WithinLimit;
    KnownOrdersMatch(s, opening, o);
    var mine := FillsFor(s.fills, o.id);
    AverageWithinPrices(mine, lo, hi);
    AverageDrift(mine);
    AverageKeepsLimit(o, mine, lo, hi);
  }
}
