// The order manager: one trading intent, one order. Submission is split where the broker
// is awaited, so that concurrent submissions can interleave between the pieces.
module Oms {
  import opened Money
  import opened Domain
  import opened Averages
  import PB = PaperBrokers

  // ----- The status machine -----

  predicate CanTransition(from: OrderStatus, to: OrderStatus) {
    match from
    case PENDING_NEW => to.OPEN? || to.REJECTED? || to.FILLED? || to.PARTIALLY_FILLED? || to.CANCELLED?
    case OPEN => to.PARTIALLY_FILLED? || to.FILLED? || to.CANCELLED? || to.REJECTED?
    case PARTIALLY_FILLED => to.PARTIALLY_FILLED? || to.FILLED? || to.CANCELLED?
    case FILLED => false
    case CANCELLED => false
    case REJECTED => false
  }

  /** A status may always stay what it is; otherwise the table decides. */
  predicate Moves(from: OrderStatus, to: OrderStatus) {
    from == to || CanTransition(from, to)
  }

  /** Along any chain of legal moves an order that reached a final status keeps it. */
  lemma {:induction false} FinalStatusIsKept(statuses: seq<OrderStatus>, i: nat, j: nat)
    requires forall k :: 0 <= k < |statuses| - 1 ==> Moves(statuses[k], statuses[k + 1])
    requires i <= j < |statuses| && IsTerminal(statuses[i])
    ensures statuses[j] == statuses[i]
  {
    if i < j {
      FinalStatusIsKept(statuses, i, j - 1);
      assert Moves(statuses[j - 1], statuses[j - 1 + 1]);
    }
  }

  // ----- State -----

  /** `ids` lists orders in the order they were staged. */
  datatype State = State(
    ids: seq<Id>,
    orders: map<Id, Order>,
    registry: map<Key, Id>,
    fills: map<Id, seq<Fill>>,
    submissions: seq<Timestamp>)
  {
    ghost predicate Valid() {
      && (forall id :: id in ids <==> id in orders)
      && (forall id :: id in orders ==> orders[id].id == id)
      && (forall k :: k in registry ==> registry[k] in orders)
    }
  }

  const Empty := State([], map[], map[], map[], [])

  datatype Error = UnknownOrder | IllegalTransition | BrokerRefused

  function IdFor(key: Key): Id {
    Platform(key)
  }

  function Staged(request: OrderRequest): Order {
    Order(IdFor(request.idempotencyKey), request, PENDING_NEW, None, 0, None)
  }

  /** The order is recorded and its key registered before anything is sent. */
  function Stage(s: State, request: OrderRequest): State {
    var id := IdFor(request.idempotencyKey);
    s.(ids := if id in s.orders then s.ids else s.ids + [id],
       orders := s.orders[id := Staged(request)],
       registry := s.registry[request.idempotencyKey := id])
  }

  /** Moves an order to a status and patches it, if the table allows the move. */
  function Transition(s: State, updated: Order): Result<State, Error> {
    if updated.id !in s.orders then Failure(UnknownOrder)
    else if !Moves(s.orders[updated.id].status, updated.status) then Failure(IllegalTransition)
    else Success(s.(orders := s.orders[updated.id := updated]))
  }

  // ----- Replies to a submission -----

  /** What one reply does: another attempt is due, the submission is over, or it threw. */
  datatype Outcome = Retry | Finished(submitted: bool) | Threw

  /**
   * An illegal acknowledgement is treated as a failure of the order, which may itself be illegal
   * and escape; nothing is ever sent again after an acknowledgement.
   */
  function Conclude(s: State, id: Id, maxRetries: nat, attempt: nat, reply: Reply, now: Timestamp): (State, Outcome)
    requires id in s.orders
  {
    match reply
    case Ack(brokerId) =>
      var noted := s.(submissions := s.submissions + [now]);
      var acked := Transition(noted, s.orders[id].(status := OPEN, brokerOrderId := Some(brokerId)));
      if acked.Success? then (acked.value, Finished(true)) else Reject(noted, id)
    case Uncertain => (s, Finished(false))
    case Refused(retryable) =>
      if retryable && attempt < maxRetries then (s, Retry) else Reject(s, id)
  }

  function Reject(s: State, id: Id): (State, Outcome)
    requires id in s.orders
  {
    var rejected := Transition(s, s.orders[id].(status := REJECTED));
    if rejected.Success? then (rejected.value, Finished(false)) else (s, Threw)
  }

  // ----- Fills and cancellations -----

  predicate SameExecution(a: Fill, b: Fill) {
    a.timestamp == b.timestamp && a.quantity == b.quantity && a.price == b.price
  }

  predicate Seen(fills: seq<Fill>, fill: Fill) {
    exists k :: 0 <= k < |fills| && SameExecution(fills[k], fill)
  }

  function FindByBrokerId(ids: seq<Id>, orders: map<Id, Order>, brokerId: Id): (r: Option<Id>)
    requires forall id :: id in ids ==> id in orders
    ensures r.Some? ==> r.value in ids && orders[r.value].brokerOrderId == Some(brokerId)
    ensures r.None? ==> forall id :: id in ids ==> orders[id].brokerOrderId != Some(brokerId)
  {
    if ids == [] then None
    else if orders[ids[0]].brokerOrderId == Some(brokerId) then Some(ids[0])
    else FindByBrokerId(ids[1..], orders, brokerId)
  }

  /** The order a fill belongs to, by the platform's id or else by the broker's. */
  function Lookup(s: State, id: Id): (r: Option<Id>)
    requires s.Valid()
    ensures r.Some? ==> r.value in s.orders
  {
    if id in s.orders then Some(id) else FindByBrokerId(s.ids, s.orders, id)
  }

  function FillsOf(s: State, id: Id): seq<Fill> {
    if id in s.fills then s.fills[id] else []
  }

  function AfterFill(order: Order, fill: Fill): Order
    requires fill.quantity > 0
  {
    var filled := order.filledQuantity + fill.quantity;
    var average := if order.averageFillPrice.Some? then order.averageFillPrice.value else 0;
    order.(status := if filled >= order.request.quantity then FILLED else PARTIALLY_FILLED,
           filledQuantity := filled,
           averageFillPrice := Some(Blend(average, order.filledQuantity, fill.quantity, fill.price)))
  }

  /** An execution already folded in is ignored; a new one advances quantity, average and status. */
  function Filled(s: State, fill: Fill): (State, Option<Error>)
    requires s.Valid() && fill.quantity > 0
  {
    var found := Lookup(s, fill.orderId);
    if found.None? then (s, Some(UnknownOrder))
    else if Seen(FillsOf(s, found.value), fill) then (s, None)
    else
      var noted := s.(fills := s.fills[found.value := FillsOf(s, found.value) + [fill]]);
      var moved := Transition(noted, AfterFill(s.orders[found.value], fill));
      if moved.Success? then (moved.value, None) else (noted, Some(moved.error))
  }

  /** The broker is asked first; an order it no longer holds cannot be cancelled. */
  function CancelOrder(s: State, b: PB.State, id: Id): (State, PB.State, Option<Error>) {
    if id !in s.orders then (s, b, Some(UnknownOrder))
    else
      var order := s.orders[id];
      if IsTerminal(order.status) then (s, b, None)
      else if order.brokerOrderId.Some? && !PB.IsResting(b, order.brokerOrderId.value) then (s, b, Some(BrokerRefused))
      else
        (s.(orders := s.orders[id := order.(status := CANCELLED)]),
         if order.brokerOrderId.Some? then PB.Cancelled(b, order.brokerOrderId.value) else b,
         None)
  }

  lemma StageKeepsValid(s: State, request: OrderRequest)
    requires s.Valid()
    ensures Stage(s, request).Valid()
  {
  }

  lemma FilledKeepsValid(s: State, fill: Fill)
    requires s.Valid() && fill.quantity > 0
    ensures Filled(s, fill).0.Valid()
  {
    hide AfterFill, FindByBrokerId;
    AfterFillKeepsIdentity(s, fill);
  }

  lemma AfterFillKeepsIdentity(s: State, fill: Fill)
    requires s.Valid() && fill.quantity > 0
    ensures forall o :: AfterFill(o, fill).id == o.id && AfterFill(o, fill).request == o.request
                        && AfterFill(o, fill).brokerOrderId == o.brokerOrderId
  {
  }

  /** Same orders under the same ids, same registry. */
  ghost predicate SameTable(s: State, t: State) {
    t.ids == s.ids && t.orders.Keys == s.orders.Keys && t.registry == s.registry
  }

  lemma TransitionKeepsTable(s: State, updated: Order)
    requires s.Valid() && Transition(s, updated).Success?
    ensures Transition(s, updated).value.Valid() && SameTable(s, Transition(s, updated).value)
  {
    assert Transition(s, updated).value.orders.Keys == s.orders.Keys;
  }

  lemma RejectKeepsTable(s: State, id: Id)
    requires s.Valid() && id in s.orders
    ensures Reject(s, id).0.Valid() && SameTable(s, Reject(s, id).0) && !Reject(s, id).1.Retry?
  {
    var updated := s.orders[id].(status := REJECTED);
    if Transition(s, updated).Success? {
      TransitionKeepsTable(s, updated);
    }
  }

  lemma ConcludeKeepsTable(s: State, id: Id, maxRetries: nat, attempt: nat, reply: Reply, now: Timestamp)
    requires s.Valid() && id in s.orders
    ensures var (t, outcome) := Conclude(s, id, maxRetries, attempt, reply, now);
      && t.Valid() && SameTable(s, t)
      && (outcome.Retry? ==> reply == Refused(true) && attempt < maxRetries)
  {
    hide Transition, Reject;
    var noted := s.(submissions := s.submissions + [now]);
    RejectKeepsTable(s, id);
    RejectKeepsTable(noted, id);
    if reply.Ack? {
      var updated := s.orders[id].(status := OPEN, brokerOrderId := Some(reply.brokerOrderId));
      if Transition(noted, updated).Success? {
        TransitionKeepsTable(noted, updated);
      }
    }
  }

  // ----- A submission through the simulated broker -----

  lemma RetryChangesNothing(s: State, id: Id, maxRetries: nat, attempt: nat, reply: Reply, now: Timestamp)
    requires id in s.orders
    ensures Conclude(s, id, maxRetries, attempt, reply, now).1.Retry? ==>
              Conclude(s, id, maxRetries, attempt, reply, now).0 == s && attempt < maxRetries
  {
  }

  /** The retry loop from a given attempt on, with how many calls were made by its end. */
  function Attempts(s: State, id: Id, maxRetries: nat, attempt: nat, answers: nat -> Reply, now: Timestamp): (State, Outcome, nat)
    requires id in s.orders && attempt <= maxRetries
    decreases maxRetries - attempt
  {
    RetryChangesNothing(s, id, maxRetries, attempt, answers(attempt), now);
    var (t, outcome) := Conclude(s, id, maxRetries, attempt, answers(attempt), now);
    if outcome.Retry? then Attempts(s, id, maxRetries, attempt + 1, answers, now) else (t, outcome, attempt + 1)
  }

  /** The loop ends within the allowed calls, and every call but the last was refused as retryable. */
  lemma {:induction false} AttemptsEnd(s: State, id: Id, maxRetries: nat, attempt: nat, answers: nat -> Reply, now: Timestamp)
    requires id in s.orders && attempt <= maxRetries
    ensures var (_, outcome, calls) := Attempts(s, id, maxRetries, attempt, answers, now);
      && attempt < calls <= maxRetries + 1
      && !outcome.Retry?
      && forall k: nat :: attempt <= k < calls - 1 ==> answers(k) == Refused(true)
    decreases maxRetries - attempt
  {
    RetryChangesNothing(s, id, maxRetries, attempt, answers(attempt), now);
    if Conclude(s, id, maxRetries, attempt, answers(attempt), now).1.Retry? {
      AttemptsEnd(s, id, maxRetries, attempt + 1, answers, now);
    }
  }

  datatype Submission = Duplicate(existing: Id) | Concluded(outcome: Outcome)

  /** Staging, one call, and the reply; the simulated broker never asks to be retried. */
  function Submitted(s: State, b: PB.State, request: OrderRequest, maxRetries: nat, now: Timestamp): (State, PB.State, Submission) {
    if request.idempotencyKey in s.registry then (s, b, Duplicate(s.registry[request.idempotencyKey]))
    else
      var (b', reply) := PB.Accept(b, request);
      var (s', outcome) := Conclude(Stage(s, request), IdFor(request.idempotencyKey), maxRetries, 0, reply, now);
      (s', b', Concluded(outcome))
  }

  // ----- The object -----

  class OrderManager {
    const maxRetries: nat
    var ids: seq<Id>
    var orders: map<Id, Order>
    var keyRegistry: map<Key, Id>
    var fillsByOrder: map<Id, seq<Fill>>
    var submissionTimestamps: seq<Timestamp>

    ghost function Model(): State
      reads this
    {
      State(ids, orders, keyRegistry, fillsByOrder, submissionTimestamps)
    }

    ghost predicate Valid()
      reads this
    {
      Model().Valid()
    }

    constructor (maxRetries: nat)
      ensures this.maxRetries == maxRetries
      ensures Valid() && Model() == Empty
    {
      this.maxRetries := maxRetries;
      ids, orders, keyRegistry, fillsByOrder, submissionTimestamps := [], map[], map[], map[], [];
    }

    /** The piece of a submission before the first broker call: refuse a known key, or stage. */
    method BeginSubmit(request: OrderRequest) returns (existing: Option<Id>)
      requires Valid()
      modifies this
      ensures Valid()
      ensures request.idempotencyKey in old(keyRegistry) ==>
                existing == Some(old(keyRegistry)[request.idempotencyKey]) && Model() == old(Model())
      ensures request.idempotencyKey !in old(keyRegistry) ==>
                existing.None? && Model() == Stage(old(Model()), request)
    {
      if request.idempotencyKey in keyRegistry {
        return Some(keyRegistry[request.idempotencyKey]);
      }
      var orderId := IdFor(request.idempotencyKey);
      if orderId !in orders {
        ids := ids + [orderId];
      }
      orders := orders[orderId := Order(orderId, request, PENDING_NEW, None, 0, None)];
      keyRegistry := keyRegistry[request.idempotencyKey := orderId];
      return None;
    }

    /** The piece of a submission that runs when the broker has answered one call. */
    method OnReply(id: Id, attempt: nat, reply: Reply, now: Timestamp) returns (outcome: Outcome)
      requires Valid() && id in orders
      modifies this`orders, this`submissionTimestamps
      ensures Valid() && (Model(), outcome) == Conclude(old(Model()), id, maxRetries, attempt, reply, now)
    {
      match reply {
        case Uncertain =>
          return Finished(false);
        case Refused(retryable) =>
          if retryable && attempt < maxRetries {
            return Retry;
          }
        case Ack(brokerId) =>
          submissionTimestamps := submissionTimestamps + [now];
          if Moves(orders[id].status, OPEN) {
            orders := orders[id := orders[id].(status := OPEN, brokerOrderId := Some(brokerId))];
            return Finished(true);
          }
      }
      if !Moves(orders[id].status, REJECTED) {
        return Threw;
      }
      orders := orders[id := orders[id].(status := REJECTED)];
      return Finished(false);
    }

    /**
     * The whole submission against any connector, which answers the n-th call with `answers(n)`.
     * `calls` counts how often the connector was called.
     */
    method SubmitRetrying(request: OrderRequest, answers: nat -> Reply, now: Timestamp) returns (r: Submission, calls: nat)
      requires Valid()
      modifies this
      ensures Valid()
      ensures request.idempotencyKey in old(keyRegistry) ==>
                r == Duplicate(old(keyRegistry)[request.idempotencyKey]) && calls == 0 && Model() == old(Model())
      ensures request.idempotencyKey !in old(keyRegistry) ==>
                && r.Concluded?
                && (Model(), r.outcome, calls) ==
                   Attempts(Stage(old(Model()), request), IdFor(request.idempotencyKey), maxRetries, 0, answers, now)
    {
      hide Conclude;
      var existing := BeginSubmit(request);
      if existing.Some? {
        return Duplicate(existing.value), 0;
      }
      var id := IdFor(request.idempotencyKey);
      var attempt: nat := 0;
      ghost var staged := Model();
      while true
        invariant attempt <= maxRetries
        invariant Valid() && Model() == staged
        invariant Attempts(staged, id, maxRetries, 0, answers, now) == Attempts(staged, id, maxRetries, attempt, answers, now)
        decreases maxRetries - attempt
      {
        var outcome := OnReply(id, attempt, answers(attempt), now);
        RetryChangesNothing(staged, id, maxRetries, attempt, answers(attempt), now);
        if !outcome.Retry? {
          return Concluded(outcome), attempt + 1;
        }
        attempt := attempt + 1;
      }
    }

    /** A submission to the simulated broker, whose first answer is always final. */
    method Submit(broker: PB.PaperBroker, request: OrderRequest, now: Timestamp) returns (r: Submission)
      requires Valid() && broker.Valid()
      modifies this, broker
      ensures Valid() && broker.Valid()
      ensures (Model(), broker.Model(), r) == Submitted(old(Model()), old(broker.Model()), request, maxRetries, now)
    {
      hide Conclude, PB.Accept;
      var existing := BeginSubmit(request);
      if existing.Some? {
        return Duplicate(existing.value);
      }
      var reply := broker.Submit(request);
      var outcome := OnReply(IdFor(request.idempotencyKey), 0, reply, now);
      return Concluded(outcome);
    }

    method ApplyFill(fill: Fill) returns (error: Option<Error>)
      requires Valid() && fill.quantity > 0
      modifies this`orders, this`fillsByOrder
      ensures Valid() && (Model(), error) == Filled(old(Model()), fill)
    {
      hide Blend;
      var found := FindOrder(fill.orderId);
      if found.None? {
        return Some(UnknownOrder);
      }
      var id := found.value;
      var order := orders[id];
      var fills := if id in fillsByOrder then fillsByOrder[id] else [];
      var seen := AlreadySeen(fills, fill);
      if seen {
        return None;
      }
      fillsByOrder := fillsByOrder[id := fills + [fill]];
      var filledQuantity := order.filledQuantity + fill.quantity;
      var previous := 0;
      if order.averageFillPrice.Some? {
        previous := order.averageFillPrice.value;
      }
      var average := Blend(previous, order.filledQuantity, fill.quantity, fill.price);
      var status := if filledQuantity >= order.request.quantity then FILLED else PARTIALLY_FILLED;
      if !Moves(order.status, status) {
        return Some(IllegalTransition);
      }
      orders := orders[id := order.(status := status, filledQuantity := filledQuantity, averageFillPrice := Some(average))];
      return None;
    }

    method FindOrder(id: Id) returns (found: Option<Id>)
      requires Valid()
      ensures found == Lookup(Model(), id)
    {
      if id in orders {
        return Some(id);
      }
      for i := 0 to |ids|
        invariant FindByBrokerId(ids, orders, id) == FindByBrokerId(ids[i..], orders, id)
      {
        if orders[ids[i]].brokerOrderId == Some(id) {
          return Some(ids[i]);
        }
      }
      return None;
    }

    static method AlreadySeen(fills: seq<Fill>, fill: Fill) returns (seen: bool)
      ensures seen <==> Seen(fills, fill)
    {
      for i := 0 to |fills|
        invariant forall k :: 0 <= k < i ==> !SameExecution(fills[k], fill)
      {
        if SameExecution(fills[i], fill) {
          return true;
        }
      }
      return false;
    }

    method Cancel(broker: PB.PaperBroker, id: Id) returns (error: Option<Error>)
      requires Valid() && broker.Valid()
      modifies this`orders, broker
      ensures Valid() && broker.Valid()
      ensures (Model(), broker.Model(), error) == CancelOrder(old(Model()), old(broker.Model()), id)
    {
      if id !in orders {
        return Some(UnknownOrder);
      }
      var order := orders[id];
      if IsTerminal(order.status) {
        return None;
      }
      if order.brokerOrderId.Some? {
        var ok := broker.Cancel(order.brokerOrderId.value);
        if !ok {
          return Some(BrokerRefused);
        }
      }
      orders := orders[id := order.(status := CANCELLED)];
      return None;
    }

    /** Submission times within the last minute; older ones are forgotten. */
    method RecentSubmissions(now: Timestamp) returns (recent: seq<Timestamp>)
      modifies this`submissionTimestamps
      ensures recent == Recent(old(submissionTimestamps), now)
      ensures Model() == old(Model()).(submissions := recent)
    {
      recent := [];
      for i := 0 to |submissionTimestamps|
        invariant recent == Recent(submissionTimestamps[..i], now)
        invariant submissionTimestamps == old(submissionTimestamps)
      {
        assert submissionTimestamps[..i + 1][..i] == submissionTimestamps[..i];
        if now - submissionTimestamps[i] < 60_000 {
          recent := recent + [submissionTimestamps[i]];
        }
      }
      assert submissionTimestamps[..|submissionTimestamps|] == submissionTimestamps;
      submissionTimestamps := recent;
    }
  }

  function Recent(submissions: seq<Timestamp>, now: Timestamp): seq<Timestamp> {
    if submissions == [] then []
    else
      var last := |submissions| - 1;
      Recent(submissions[..last], now) + if now - submissions[last] < 60_000 then [submissions[last]] else []
  }

  /** What is remembered are the submissions of the last minute, each as often as it was made. */
  lemma {:induction false} RecentIsTheLastMinute(submissions: seq<Timestamp>, now: Timestamp, t: Timestamp)
    ensures multiset(Recent(submissions, now))[t] == if t > now - 60_000 then multiset(submissions)[t] else 0
  {
    if submissions != [] {
      var last := |submissions| - 1;
      RecentIsTheLastMinute(submissions[..last], now, t);
      assert submissions == submissions[..last] + [submissions[last]];
    }
  }

  /** Forgetting is never noticed: a later look sees what it would have seen without the earlier one. */
  lemma {:induction false} ForgettingIsUnseen(submissions: seq<Timestamp>, now: Timestamp, later: Timestamp)
    requires now <= later
    ensures Recent(Recent(submissions, now), later) == Recent(submissions, later)
  {
    if submissions != [] {
      var last := |submissions| - 1;
      ForgettingIsUnseen(submissions[..last], now, later);
      if now - submissions[last] < 60_000 {
        RecentAdds(Recent(submissions[..last], now), submissions[last], later);
      } else {
        assert Recent(submissions, now) == Recent(submissions[..last], now);
        assert Recent(submissions, later) == Recent(submissions[..last], later);
      }
    }
  }

  lemma RecentAdds(submissions: seq<Timestamp>, t: Timestamp, now: Timestamp)
    ensures Recent(submissions + [t], now) == Recent(submissions, now) + if now - t < 60_000 then [t] else []
  {
    assert (submissions + [t])[..|submissions|] == submissions;
  }

  /** How the order of a submission stands once its last answer is in. */
  predicate EndsAs(s: State, t: State, id: Id, reply: Reply, outcome: Outcome)
    requires id in s.orders
  {
    && id in t.orders && t.registry == s.registry && t.fills == s.fills
    && (forall other :: other in s.orders && other != id ==> other in t.orders && t.orders[other] == s.orders[other])
    && match reply
       case Ack(brokerId) =>
         outcome == Finished(true) && t.orders[id] == s.orders[id].(status := OPEN, brokerOrderId := Some(brokerId))
       case Uncertain => outcome == Finished(false) && t == s
       case Refused(_) => outcome == Finished(false) && t.orders[id] == s.orders[id].(status := REJECTED)
  }

  /** One answer to a pending order either ends its submission, or is a retryable refusal with retries left. */
  lemma AnswerEnds(s: State, id: Id, maxRetries: nat, attempt: nat, reply: Reply, now: Timestamp)
    requires s.Valid() && id in s.orders && s.orders[id].status.PENDING_NEW?
    ensures var (t, outcome) := Conclude(s, id, maxRetries, attempt, reply, now);
      if reply == Refused(true) && attempt < maxRetries then outcome.Retry? else EndsAs(s, t, id, reply, outcome) && !outcome.Retry?
  {
  }

  /**
   * A submission calls until an answer is not a retryable refusal or its retries are spent, and the
   * order ends as that last answer says: open, rejected, or as staged when nobody can tell.
   */
  lemma {:induction false} SubmissionEndsAsAnswered(s: State, id: Id, maxRetries: nat, attempt: nat, answers: nat -> Reply, now: Timestamp)
    requires s.Valid() && id in s.orders && s.orders[id].status.PENDING_NEW? && attempt <= maxRetries
    ensures var (t, outcome, calls) := Attempts(s, id, maxRetries, attempt, answers, now);
      && attempt < calls
      && (forall k: nat :: attempt <= k < calls - 1 ==> answers(k) == Refused(true))
      && (calls == maxRetries + 1 || answers(calls - 1) != Refused(true))
      && calls <= maxRetries + 1
      && EndsAs(s, t, id, answers(calls - 1), outcome)
    decreases maxRetries - attempt
  {
    hide Conclude, EndsAs, State.Valid;
    AnswerEnds(s, id, maxRetries, attempt, answers(attempt), now);
    RetryChangesNothing(s, id, maxRetries, attempt, answers(attempt), now);
    if Conclude(s, id, maxRetries, attempt, answers(attempt), now).1.Retry? {
      SubmissionEndsAsAnswered(s, id, maxRetries, attempt + 1, answers, now);
    }
  }

  /** The simulated broker's taking of an order is noted at once; nothing else is. */
  lemma AcceptedIsNoted(s: State, b: PB.State, request: OrderRequest, maxRetries: nat, now: Timestamp)
    ensures Submitted(s, b, request, maxRetries, now).0.submissions ==
            s.submissions + if request.idempotencyKey !in s.registry && PB.Acceptable(b, request) then [now] else []
  {
  }

  /** The simulated broker's first answer is final: every further pass of the loop is dead. */
  lemma PaperBrokerNeverRetries(b: PB.State, s: State, maxRetries: nat, request: OrderRequest, now: Timestamp)
    requires request.idempotencyKey !in s.registry
    ensures Submitted(s, b, request, maxRetries, now).2 != Concluded(Retry)
  {
  }
}
