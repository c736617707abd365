// Cancelling before the acknowledgement: the order is final here and may still live at the exchange.
module OmsCancellations {
  import opened Money
  import opened Domain
  import opened Averages
  import opened OmsProtocol
  import Oms

  // ----- The orders of the table -----

  predicate HasStatus(s: Oms.State, p: Id, status: OrderStatus) {
    p in s.orders && s.orders[p].status == status
  }

  /** The exchange's id of the order is not known here. */
  predicate Nameless(s: Oms.State, p: Id) {
    p in s.orders && s.orders[p].brokerOrderId.None?
  }

  /** Every order was staged under its own key. */
  ghost predicate Filed(s: Oms.State) {
    forall p :: p in s.orders ==> p.Platform? && p.key in s.registry
  }

  /** The exchange took the order of a key, and has not denied it. */
  ghost predicate Took(calls: seq<Call>, key: Key) {
    exists i :: 0 <= i < |calls| && calls[i].key == key && calls[i].placed && (calls[i].answer.Some? ==> !calls[i].answer.value.Refused?)
  }

  ghost predicate AllDenied(calls: seq<Call>, key: Key) {
    forall i :: 0 <= i < |calls| && calls[i].key == key ==> calls[i].answer.Some? && calls[i].answer.value.Refused?
  }

  /** A cancellation that finds a live order without the exchange's id: there is nobody to ask. */
  predicate CancelsUnasked(w: World, e: Event, p: Id) {
    e == CancelOrder(p) && Nameless(w.oms, p) && !IsTerminal(w.oms.orders[p].status)
  }

  /** Some cancellation came before the order's acknowledgement. */
  ghost predicate CancelledEarly(maxRetries: nat, events: seq<Event>, p: Id) {
    && events != []
    && var before, last := events[..|events| - 1], events[|events| - 1];
       CancelledEarly(maxRetries, before, p) || CancelsUnasked(Run(maxRetries, before), last, p)
  }

  /** What an answer does to the orders: an acknowledgement names a new or open one, a refusal rejects it. */
  lemma ConcludeMoves(s: Oms.State, id: Id, maxRetries: nat, attempt: nat, reply: Reply, now: Timestamp)
    requires s.Valid() && id in s.orders
    ensures var (t, outcome) := Oms.Conclude(s, id, maxRetries, attempt, reply, now);
      var o := s.orders[id];
      && t.registry == s.registry && t.orders.Keys == s.orders.Keys
      && (forall p :: p in s.orders && p != id ==> t.orders[p] == s.orders[p])
      && (o.status.CANCELLED? ==> t.orders[id] == o)
      && (t.orders[id].status.CANCELLED? ==> o.status.CANCELLED?)
      && (t.orders[id].status.REJECTED? && !o.status.REJECTED? ==> reply.Refused? && !outcome.Retry?)
      && (t.orders[id].brokerOrderId != o.brokerOrderId ==> t.orders[id].brokerOrderId.Some?)
  {
  }

  /** An acknowledgement throws exactly when the order has moved past open without being rejected. */
  lemma AcknowledgementThrowsExactly(s: Oms.State, id: Id, maxRetries: nat, attempt: nat, brokerId: Id, now: Timestamp)
    requires s.Valid() && id in s.orders
    ensures Oms.Conclude(s, id, maxRetries, attempt, Ack(brokerId), now).1.Threw? <==>
            var status := s.orders[id].status; status.PARTIALLY_FILLED? || status.FILLED? || status.CANCELLED?
  {
  }

  lemma FilledMoves(s: Oms.State, fill: Fill, p: Id)
    requires s.Valid() && fill.quantity > 0 && p in s.orders
    ensures var t := Oms.Filled(s, fill).0;
      && t.registry == s.registry && t.orders.Keys == s.orders.Keys
      && t.orders[p].brokerOrderId == s.orders[p].brokerOrderId
      && (t.orders[p].status.CANCELLED? <==> s.orders[p].status.CANCELLED?)
      && (t.orders[p].status.REJECTED? <==> s.orders[p].status.REJECTED?)
  {
    hide Oms.Lookup, Oms.Seen, Blend;
  }

  // ----- Cancelled without an id -----

  /** Cancelled here, and the exchange was never asked to. */
  predicate GivenUp(s: Oms.State, p: Id) {
    HasStatus(s, p, CANCELLED) && Nameless(s, p)
  }

  lemma StagingGivesUp(s: Oms.State, request: OrderRequest, p: Id)
    requires Filed(s) && request.idempotencyKey !in s.registry
    ensures Filed(Oms.Stage(s, request))
    ensures GivenUp(Oms.Stage(s, request), p) <==> GivenUp(s, p)
  {
  }

  lemma ReorderingGivesUp(s: Oms.State, o: Order, p: Id)
    requires Filed(s) && o.id in s.orders
    ensures Filed(Reordered(s, o))
    ensures GivenUp(Reordered(s, o), p) <==> if p == o.id then o.status.CANCELLED? && o.brokerOrderId.None? else GivenUp(s, p)
  {
  }

  lemma ConcludingGivesUp(s: Oms.State, id: Id, maxRetries: nat, attempt: nat, reply: Reply, now: Timestamp, p: Id)
    requires s.Valid() && Filed(s) && id in s.orders
    ensures Filed(Oms.Conclude(s, id, maxRetries, attempt, reply, now).0)
    ensures GivenUp(Oms.Conclude(s, id, maxRetries, attempt, reply, now).0, p) <==> GivenUp(s, p)
  {
    hide Oms.Conclude, Oms.State.Valid;
    ConcludeMoves(s, id, maxRetries, attempt, reply, now);
  }

  lemma FillingGivesUp(s: Oms.State, fill: Fill, p: Id)
    requires s.Valid() && Filed(s) && fill.quantity > 0
    ensures Filed(Oms.Filled(s, fill).0)
    ensures GivenUp(Oms.Filled(s, fill).0, p) <==> GivenUp(s, p)
  {
    hide Oms.Filled, Oms.State.Valid;
    FilledKeepsRegistry(s, fill);
    if p in s.orders {
      FilledMoves(s, fill, p);
    }
  }

  lemma OwnId(s: Oms.State, id: Id)
    requires s.Valid() && id in s.orders
    ensures s.orders[id].id == id
  {
  }

  lemma StepGivesUp(maxRetries: nat, w: World, e: Event, p: Id)
    requires Kept(maxRetries, w) && Filed(w.oms)
    ensures Filed(Step(maxRetries, w, e).oms)
    ensures GivenUp(Step(maxRetries, w, e).oms, p) <==> GivenUp(w.oms, p) || CancelsUnasked(w, e, p)
  {
    hide Lawful, Oms.Conclude, Oms.Filled, Oms.Stage, Classify, Oms.State.Valid, Filed, GivenUp, Reordered;
    if Possible(w, e) {
      match e
      case Submit(request) =>
        if request.idempotencyKey !in w.oms.registry {
          StagingGivesUp(w.oms, request, p);
        }
      case Answer(i, response, now) =>
        var c := w.calls[i];
        ConcludingGivesUp(w.oms, Oms.IdFor(c.key), maxRetries, c.attempt, Classify(POST, response), now, p);
      case Execute(fill) => FillingGivesUp(w.oms, fill, p);
      case CancelOrder(id) =>
        if !IsTerminal(w.oms.orders[id].status) {
          CancellingGivesUp(w.oms, id, p);
        }
      case Adopt(id, status, filled, average) =>
        var o := w.oms.orders[id];
        var adopted := o.(status := status, filledQuantity := filled,
                          averageFillPrice := if average.Some? then average else o.averageFillPrice);
        OwnId(w.oms, id);
        ReorderingGivesUp(w.oms, adopted, p);
        NamedIsNotGivenUp(w.oms, id);
      case Place(_) =>
    }
  }

  lemma NamedIsNotGivenUp(s: Oms.State, id: Id)
    requires id in s.orders && s.orders[id].brokerOrderId.Some?
    ensures !GivenUp(s, id)
  {
  }

  lemma CancellingGivesUp(s: Oms.State, id: Id, p: Id)
    requires s.Valid() && Filed(s) && id in s.orders && !IsTerminal(s.orders[id].status)
    ensures var t := Reordered(s, s.orders[id].(status := CANCELLED));
      Filed(t) && (GivenUp(t, p) <==> GivenUp(s, p) || (id == p && Nameless(s, p)))
  {
    hide Filed, Reordered, Oms.State.Valid;
    OwnId(s, id);
    ReorderingGivesUp(s, s.orders[id].(status := CANCELLED), p);
  }

  /**
   * After any events an order is cancelled here without the exchange's id exactly when a cancellation
   * of it came before its acknowledgement. It stays so: a late acknowledgement no longer names it.
   */
  lemma {:induction false} GivenUpExactly(maxRetries: nat, events: seq<Event>, p: Id)
    ensures Filed(Run(maxRetries, events).oms)
    ensures GivenUp(Run(maxRetries, events).oms, p) <==> CancelledEarly(maxRetries, events, p)
  {
    hide Step, GivenUp, CancelsUnasked, Filed;
    if events == [] {
      NothingFiled(maxRetries, p);
    } else {
      var before := events[..|events| - 1];
      GivenUpExactly(maxRetries, before, p);
      StepGivesUp(maxRetries, Run(maxRetries, before), events[|events| - 1], p);
    }
  }

  lemma NothingFiled(maxRetries: nat, p: Id)
    ensures Filed(Run(maxRetries, []).oms) && !GivenUp(Run(maxRetries, []).oms, p)
  {
  }

  // ----- Rejected orders were denied -----

  /** Rejected here without the exchange's id. */
  predicate TurnedDown(s: Oms.State, p: Id) {
    HasStatus(s, p, REJECTED) && Nameless(s, p)
  }

  /** Every call made for such an order was refused. */
  ghost predicate Denied(w: World, p: Id) {
    TurnedDown(w.oms, p) ==> p.Platform? && AllDenied(w.calls, p.key)
  }

  lemma LastCallDenies(maxRetries: nat, calls: seq<Call>, i: nat, reply: Reply)
    requires Lawful(maxRetries, calls) && i < |calls| && calls[i].answer.None? && reply.Refused?
    ensures AllDenied(AfterAnswer(calls, i, reply, false), calls[i].key)
  {
    hide Numbered;
    var after := AfterAnswer(calls, i, reply, false);
    forall k | 0 <= k < |after| && after[k].key == calls[i].key
      ensures after[k].answer.Some? && after[k].answer.value.Refused?
    {
      if k != i {
        assert calls[if k < i then k else i].key == calls[if k < i then i else k].key;
      }
    }
  }

  lemma OtherCallsStay(calls: seq<Call>, i: nat, reply: Reply, again: bool, key: Key)
    requires i < |calls| && calls[i].key != key && AllDenied(calls, key)
    ensures AllDenied(AfterAnswer(calls, i, reply, again), key)
  {
    var after := AfterAnswer(calls, i, reply, again);
    forall k | 0 <= k < |after| && after[k].key == key
      ensures after[k].answer.Some? && after[k].answer.value.Refused?
    {
      assert after[k] == calls[k];
    }
  }

  lemma OneMoreCall(calls: seq<Call>, c: Call, key: Key)
    requires AllDenied(calls, key) && c.key != key
    ensures AllDenied(calls + [c], key)
  {
    forall k | 0 <= k < |calls + [c]| && (calls + [c])[k].key == key
      ensures (calls + [c])[k].answer.Some? && (calls + [c])[k].answer.value.Refused?
    {
      assert (calls + [c])[k] == calls[k];
    }
  }

  lemma PlacingKeepsDenied(calls: seq<Call>, i: nat, key: Key)
    requires AllDenied(calls, key) && i < |calls|
    ensures AllDenied(calls[i := calls[i].(placed := true)], key)
  {
  }

  /** A call still out for its key was not denied. */
  lemma OutIsNotDenied(calls: seq<Call>, i: nat)
    requires i < |calls| && calls[i].answer.None?
    ensures !AllDenied(calls, calls[i].key)
  {
  }

  lemma ConcludingRefuses(s: Oms.State, id: Id, maxRetries: nat, attempt: nat, reply: Reply, now: Timestamp, p: Id)
    requires s.Valid() && id in s.orders && !TurnedDown(s, id)
    ensures var (t, outcome) := Oms.Conclude(s, id, maxRetries, attempt, reply, now);
      && (p != id ==> (TurnedDown(t, p) <==> TurnedDown(s, p)))
      && (TurnedDown(t, id) ==> reply.Refused? && !outcome.Retry?)
  {
    hide Oms.Conclude, Oms.State.Valid;
    ConcludeMoves(s, id, maxRetries, attempt, reply, now);
  }

  lemma FillingRefuses(s: Oms.State, fill: Fill, p: Id)
    requires s.Valid() && fill.quantity > 0
    ensures TurnedDown(Oms.Filled(s, fill).0, p) <==> TurnedDown(s, p)
  {
    hide Oms.Filled, Oms.State.Valid;
    FilledKeepsRegistry(s, fill);
    if p in s.orders {
      FilledMoves(s, fill, p);
    }
  }

  lemma StagingRefuses(s: Oms.State, request: OrderRequest, p: Id)
    requires Filed(s) && request.idempotencyKey !in s.registry
    ensures TurnedDown(Oms.Stage(s, request), p) ==> TurnedDown(s, p) && p.Platform? && p.key != request.idempotencyKey
  {
  }

  lemma ReorderingRefuses(s: Oms.State, o: Order, p: Id)
    requires o.id in s.orders && (o.brokerOrderId.Some? || !o.status.REJECTED?)
    ensures TurnedDown(Reordered(s, o), p) ==> TurnedDown(s, p)
  {
  }

  lemma AnswerDenies(maxRetries: nat, w: World, e: Event, p: Id)
    requires Kept(maxRetries, w) && Filed(w.oms) && e.Answer? && Possible(w, e)
    requires Denied(w, p) && Denied(w, Oms.IdFor(w.calls[e.call].key))
    ensures Denied(Step(maxRetries, w, e), p)
  {
    hide Lawful, Oms.Conclude, Classify, Oms.State.Valid, AllDenied, TurnedDown, Filed;
    var i, c := e.call, w.calls[e.call];
    var id, reply := Oms.IdFor(c.key), Classify(POST, e.response);
    OutIsNotDenied(w.calls, i);
    ConcludingRefuses(w.oms, id, maxRetries, c.attempt, reply, e.now, p);
    var again := Oms.Conclude(w.oms, id, maxRetries, c.attempt, reply, e.now).1.Retry?;
    assert Step(maxRetries, w, e).calls == AfterAnswer(w.calls, i, reply, again);
    if TurnedDown(Step(maxRetries, w, e).oms, p) {
      if p == id {
        LastCallDenies(maxRetries, w.calls, i, reply);
      } else {
        OtherKey(p, c.key);
        OtherCallsStay(w.calls, i, reply, again, p.key);
      }
    }
  }

  lemma OtherKey(p: Id, key: Key)
    requires p.Platform? && p != Oms.IdFor(key)
    ensures p.key != key
  {
  }

  lemma StepDenies(maxRetries: nat, w: World, e: Event, p: Id)
    requires Kept(maxRetries, w) && Filed(w.oms) && Denied(w, p)
    requires e.Answer? && Possible(w, e) ==> Denied(w, Oms.IdFor(w.calls[e.call].key))
    ensures Denied(Step(maxRetries, w, e), p)
  {
    hide Lawful, Oms.Conclude, Oms.Filled, Oms.Stage, Classify, Oms.State.Valid, Filed, TurnedDown, Reordered, AllDenied;
    if Possible(w, e) {
      match e
      case Submit(request) =>
        if request.idempotencyKey !in w.oms.registry {
          StagingRefuses(w.oms, request, p);
          if TurnedDown(Oms.Stage(w.oms, request), p) {
            OneMoreCall(w.calls, Call(request.idempotencyKey, 0, false, None), p.key);
          }
        }
      case Answer(_, _, _) => AnswerDenies(maxRetries, w, e, p);
      case Execute(fill) => FillingRefuses(w.oms, fill, p);
      case Place(i) =>
        if TurnedDown(w.oms, p) {
          PlacingKeepsDenied(w.calls, i, p.key);
        }
      case CancelOrder(id) =>
        OwnId(w.oms, id);
        ReorderingRefuses(w.oms, w.oms.orders[id].(status := CANCELLED), p);
      case Adopt(id, status, filled, average) =>
        var o := w.oms.orders[id];
        var adopted := o.(status := status, filledQuantity := filled,
                          averageFillPrice := if average.Some? then average else o.averageFillPrice);
        OwnId(w.oms, id);
        ReorderingRefuses(w.oms, adopted, p);
    }
  }

  lemma {:induction false} RunDenies(maxRetries: nat, events: seq<Event>, p: Id)
    ensures Denied(Run(maxRetries, events), p)
  {
    hide Step, Denied, Filed;
    if events == [] {
      NothingDenied(maxRetries, p);
    } else {
      var before := events[..|events| - 1];
      var e, w := events[|events| - 1], Run(maxRetries, before);
      RunDenies(maxRetries, before, p);
      GivenUpExactly(maxRetries, before, p);
      if e.Answer? && Possible(w, e) {
        RunDenies(maxRetries, before, Oms.IdFor(w.calls[e.call].key));
      }
      StepDenies(maxRetries, w, e, p);
    }
  }

  lemma NothingDenied(maxRetries: nat, p: Id)
    ensures Denied(Run(maxRetries, []), p)
  {
  }

  // ----- What is stranded at the exchange -----

  /** Dead here without the exchange's id, while the exchange took the order and never denied it. */
  ghost predicate Stranded(w: World, key: Key) {
    var p := Oms.IdFor(key);
    (HasStatus(w.oms, p, CANCELLED) || HasStatus(w.oms, p, REJECTED)) && Nameless(w.oms, p) && Took(w.calls, key)
  }

  /**
   * In every state of every run, an order that is dead here is held by the exchange, with no id to
   * reach it by, exactly when a cancellation came before its acknowledgement and the exchange took a
   * call it did not deny.
   */
  lemma StrandedExactly(maxRetries: nat, events: seq<Event>, key: Key)
    ensures var w := Run(maxRetries, events);
      Stranded(w, key) <==> CancelledEarly(maxRetries, events, Oms.IdFor(key)) && Took(w.calls, key)
  {
    hide Run, CancelledEarly;
    GivenUpExactly(maxRetries, events, Oms.IdFor(key));
    RunDenies(maxRetries, events, Oms.IdFor(key));
  }

  // ----- The loop calls again -----

  lemma RunOneMore(maxRetries: nat, before: seq<Event>, e: Event)
    ensures Run(maxRetries, before + [e]) == Step(maxRetries, Run(maxRetries, before), e)
  {
    hide Step, Kept;
    assert (before + [e])[..|before|] == before;
  }

  const RateLimited := Readable(429, false, None)

  /** The world after the order was staged, cancelled, and its first call turned away. */
  function CalledAgain(request: OrderRequest): World {
    var key := request.idempotencyKey;
    var staged := Oms.Stage(Oms.Empty, request);
    World(Reordered(staged, staged.orders[Oms.IdFor(key)].(status := CANCELLED)),
          [Call(key, 0, false, Some(Refused(true))), Call(key, 1, false, None)])
  }

  lemma CancelledAndTurnedAway(maxRetries: nat, request: OrderRequest, now: Timestamp)
    requires maxRetries >= 1
    ensures Run(maxRetries, [Submit(request), CancelOrder(Oms.IdFor(request.idempotencyKey)), Answer(0, RateLimited, now)]) ==
            CalledAgain(request)
  {
    hide Kept, Oms.State.Valid, Run;
    var p := Oms.IdFor(request.idempotencyKey);
    NothingRun(maxRetries);
    RunOneMore(maxRetries, [], Submit(request));
    RunOneMore(maxRetries, [Submit(request)], CancelOrder(p));
    RunOneMore(maxRetries, [Submit(request), CancelOrder(p)], Answer(0, RateLimited, now));
    assert [] + [Submit(request)] == [Submit(request)];
    assert [Submit(request)] + [CancelOrder(p)] == [Submit(request), CancelOrder(p)];
    assert [Submit(request), CancelOrder(p)] + [Answer(0, RateLimited, now)] == [Submit(request), CancelOrder(p), Answer(0, RateLimited, now)];
  }

  lemma NothingRun(maxRetries: nat)
    ensures Run(maxRetries, []) == Start
  {
  }

  /**
   * A cancelled order is sent all the same: its first call is turned away as rate limited, the loop
   * calls again, the exchange takes the order, and the acknowledgement throws.
   */
  lemma CancelledOrderIsSentAgain(maxRetries: nat, request: OrderRequest, brokerId: Id, now: Timestamp)
    requires maxRetries >= 1
    ensures var p := Oms.IdFor(request.idempotencyKey);
      var sent := [Submit(request), CancelOrder(p), Answer(0, RateLimited, now), Place(1)];
      var w := Run(maxRetries, sent);
      && p in w.oms.orders && |w.calls| == 2
      && Oms.Conclude(w.oms, p, maxRetries, 1, Ack(brokerId), now).1.Threw?
      && Stranded(Run(maxRetries, sent + [Answer(1, Readable(200, false, Some(brokerId)), now)]), request.idempotencyKey)
  {
    hide Kept, Oms.State.Valid, Run;
    var p := Oms.IdFor(request.idempotencyKey);
    var turned := [Submit(request), CancelOrder(p), Answer(0, RateLimited, now)];
    var last := Answer(1, Readable(200, false, Some(brokerId)), now);
    CancelledAndTurnedAway(maxRetries, request, now);
    RunOneMore(maxRetries, turned, Place(1));
    assert turned + [Place(1)] == [Submit(request), CancelOrder(p), Answer(0, RateLimited, now), Place(1)];
    RunOneMore(maxRetries, turned + [Place(1)], last);
    var w := Run(maxRetries, turned + [Place(1)] + [last]);
    assert w.calls[1] == Call(request.idempotencyKey, 1, true, Some(Ack(brokerId)));
    assert Took(w.calls, request.idempotencyKey);
  }
}
