// One intent, one order at the exchange, under every interleaving of submissions and answers.
module OmsProtocol {
  import opened Money
  import opened Domain
  import Oms

  // ----- How the live connector classifies an HTTP exchange -----

  datatype Method = GET | POST | PUT | DELETE

  datatype Response =
    | NetworkFailure
    | Unreadable(status: nat)
    | Readable(status: nat, errorStatus: bool, data: Option<Id>)

  predicate IsError(r: Response)
    requires r.Readable?
  {
    !(200 <= r.status < 300) || r.errorStatus
  }

  function Classify(m: Method, r: Response): Reply {
    match r
    case NetworkFailure => if m.GET? then Refused(true) else Uncertain
    case Unreadable(_) => if m.GET? then Refused(true) else Uncertain
    case Readable(status, _, data) =>
      if IsError(r) then
        if status == 429 then Refused(true)
        else if status >= 500 then if m.GET? then Refused(true) else Uncertain
        else Refused(false)
      else if data.None? then Refused(false)
      else Ack(data.value)
  }

  /** A mutating call may be repeated exactly when the exchange said it was rate limited. */
  lemma OnlyRateLimitRetriesAMutation(m: Method, r: Response)
    requires !m.GET?
    ensures Classify(m, r) == Refused(true) <==> r.Readable? && r.status == 429
    ensures Classify(m, r).Ack? <==> r.Readable? && !IsError(r) && r.data.Some?
    ensures Classify(m, r).Uncertain? <==>
              r.NetworkFailure? || r.Unreadable? || (r.Readable? && IsError(r) && r.status >= 500)
  {
  }

  // ----- The world: the order manager and every call it ever made -----

  /** One broker call: whether the exchange took the order, and what it answered, if it has. */
  datatype Call = Call(key: Key, attempt: nat, placed: bool, answer: Option<Reply>)

  datatype World = World(oms: Oms.State, calls: seq<Call>)

  const Start := World(Oms.Empty, [])

  datatype Event =
    /** A caller submits: everything up to the first broker call happens at once. */
    | Submit(request: OrderRequest)
    /** The exchange takes the order a call carried, at any time after the call was made. */
    | Place(call: nat)
    /** An answer arrives and the submission that made the call continues. */
    | Answer(call: nat, response: Response, now: Timestamp)
    /** Everything else the order manager does in between: fills, cancellations, reconciliation. */
    | Execute(fill: Fill)
    | CancelOrder(id: Id)
    | Adopt(id: Id, status: OrderStatus, filled: nat, average: Option<Paise>)

  /**
   * Answers are truthful: a rate-limited call never placed an order, an acknowledged one did. An
   * order without the exchange's id has nothing to be reconciled with.
   */
  predicate Possible(w: World, e: Event) {
    match e
    case Submit(_) => true
    case Place(i) => i < |w.calls| && !w.calls[i].placed && w.calls[i].answer != Some(Refused(true))
    case Answer(i, response, _) =>
      && i < |w.calls| && w.calls[i].answer.None?
      && var reply := Classify(POST, response);
         (reply == Refused(true) ==> !w.calls[i].placed) && (reply.Ack? ==> w.calls[i].placed)
    case Execute(fill) => fill.quantity > 0
    case CancelOrder(id) => id in w.oms.orders
    case Adopt(id, _, _, _) => id in w.oms.orders && w.oms.orders[id].brokerOrderId.Some?
  }

  /** What an event does to the order manager and to the calls; an impossible one does nothing. */
  ghost function Step(maxRetries: nat, w: World, e: Event): World
    requires Consistent(w)
  {
    if !Possible(w, e) then w
    else
      match e
      case Submit(request) =>
        var key := request.idempotencyKey;
        if key in w.oms.registry then w
        else World(Oms.Stage(w.oms, request), w.calls + [Call(key, 0, false, None)])
      case Place(i) => w.(calls := w.calls[i := w.calls[i].(placed := true)])
      case Answer(i, response, now) =>
        var c := w.calls[i];
        var reply := Classify(POST, response);
        var (oms, outcome) := Oms.Conclude(w.oms, Oms.IdFor(c.key), maxRetries, c.attempt, reply, now);
        var answered := w.calls[i := c.(answer := Some(reply))];
        World(oms, if outcome.Retry? then answered + [Call(c.key, c.attempt + 1, false, None)] else answered)
      case Execute(fill) => w.(oms := Oms.Filled(w.oms, fill).0)
      case CancelOrder(id) =>
        if IsTerminal(w.oms.orders[id].status) then w
        else w.(oms := Reordered(w.oms, w.oms.orders[id].(status := CANCELLED)))
      case Adopt(id, status, filled, average) =>
        var o := w.oms.orders[id];
        w.(oms := Reordered(w.oms, o.(status := status, filledQuantity := filled,
                                      averageFillPrice := if average.Some? then average else o.averageFillPrice)))
  }

  function Reordered(s: Oms.State, o: Order): Oms.State {
    s.(orders := s.orders[o.id := o])
  }

  ghost predicate Consistent(w: World) {
    && w.oms.Valid()
    && (forall i :: 0 <= i < |w.calls| ==> w.calls[i].key in w.oms.registry && Oms.IdFor(w.calls[i].key) in w.oms.orders)
  }

  /** How many of the first `n` calls carried a key. */
  function CallsBefore(calls: seq<Call>, key: Key, n: nat): nat
    requires n <= |calls|
  {
    if n == 0 then 0
    else CallsBefore(calls, key, n - 1) + if calls[n - 1].key == key then 1 else 0
  }

  /**
   * The protocol invariant: every call but the last for its key was answered "rate limited" and
   * placed nothing, and attempts are numbered without gaps up to the retry limit.
   */
  ghost predicate Lawful(maxRetries: nat, calls: seq<Call>) {
    && (forall i :: 0 <= i < |calls| ==> Numbered(maxRetries, calls, i))
    && (forall i, j :: 0 <= i < j < |calls| && calls[i].key == calls[j].key ==> calls[i].answer == Some(Refused(true)))
  }

  predicate Numbered(maxRetries: nat, calls: seq<Call>, i: nat)
    requires i < |calls|
  {
    && calls[i].attempt == CallsBefore(calls, calls[i].key, i) <= maxRetries
    && (calls[i].answer == Some(Refused(true)) ==> !calls[i].placed)
  }

  lemma {:induction false} CallsBeforeAgrees(a: seq<Call>, b: seq<Call>, key: Key, n: nat)
    requires n <= |a| && n <= |b|
    requires forall i :: 0 <= i < n ==> a[i].key == b[i].key
    ensures CallsBefore(a, key, n) == CallsBefore(b, key, n)
  {
    if n > 0 {
      CallsBeforeAgrees(a, b, key, n - 1);
    }
  }

  lemma {:induction false} NoCallsBefore(calls: seq<Call>, key: Key, n: nat)
    requires n <= |calls|
    requires forall i :: 0 <= i < n ==> calls[i].key != key
    ensures CallsBefore(calls, key, n) == 0
  {
    if n > 0 {
      NoCallsBefore(calls, key, n - 1);
    }
  }

  /** Between two calls for a key with none in between, the count moves by one. */
  lemma {:induction false} CallsBeforeNext(calls: seq<Call>, key: Key, i: nat, n: nat)
    requires i < n <= |calls| && calls[i].key == key
    requires forall k :: i < k < n ==> calls[k].key != key
    ensures CallsBefore(calls, key, n) == CallsBefore(calls, key, i) + 1
  {
    if n > i + 1 {
      CallsBeforeNext(calls, key, i, n - 1);
    }
  }

  lemma ReplaceKeepsLawful(maxRetries: nat, calls: seq<Call>, i: nat, c: Call)
    requires Lawful(maxRetries, calls) && i < |calls|
    requires c.key == calls[i].key && c.attempt == calls[i].attempt
    requires c.answer == Some(Refused(true)) ==> !c.placed
    requires calls[i].answer == Some(Refused(true)) ==> c.answer == calls[i].answer
    ensures Lawful(maxRetries, calls[i := c])
  {
    var after := calls[i := c];
    forall k | 0 <= k < |after|
      ensures Numbered(maxRetries, after, k)
    {
      assert Numbered(maxRetries, calls, k);
      CallsBeforeAgrees(after, calls, calls[k].key, k);
    }
  }

  lemma AppendKeepsLawful(maxRetries: nat, calls: seq<Call>, c: Call)
    requires Lawful(maxRetries, calls)
    requires c.attempt == CallsBefore(calls, c.key, |calls|) <= maxRetries && c.answer.None?
    requires forall i :: 0 <= i < |calls| && calls[i].key == c.key ==> calls[i].answer == Some(Refused(true))
    ensures Lawful(maxRetries, calls + [c])
  {
    hide CallsBefore;
    var after := calls + [c];
    forall k | 0 <= k < |after|
      ensures Numbered(maxRetries, after, k)
    {
      assert k < |calls| ==> after[k] == calls[k] && Numbered(maxRetries, calls, k);
      CallsBeforeAgrees(after, calls, after[k].key, k);
    }
    forall i, j | 0 <= i < j < |after| && after[i].key == after[j].key
      ensures after[i].answer == Some(Refused(true))
    {
      assert after[i] == calls[i];
    }
  }

  lemma SubmitKeeps(maxRetries: nat, w: World, request: OrderRequest)
    requires Consistent(w) && Lawful(maxRetries, w.calls)
    ensures Kept(maxRetries, Step(maxRetries, w, Submit(request)))
  {
    var key := request.idempotencyKey;
    if key !in w.oms.registry {
      Oms.StageKeepsValid(w.oms, request);
      NoCallsBefore(w.calls, key, |w.calls|);
      AppendKeepsLawful(maxRetries, w.calls, Call(key, 0, false, None));
    }
  }

  ghost predicate Kept(maxRetries: nat, w: World) {
    Consistent(w) && Lawful(maxRetries, w.calls)
  }

  lemma AnswerKeeps(maxRetries: nat, w: World, i: nat, response: Response, now: Timestamp)
    requires Kept(maxRetries, w) && Possible(w, Answer(i, response, now))
    ensures Kept(maxRetries, Step(maxRetries, w, Answer(i, response, now)))
  {
    hide Lawful, CallsBefore, Classify, Oms.Conclude, Oms.State.Valid;
    var c := w.calls[i];
    var reply := Classify(POST, response);
    Oms.ConcludeKeepsTable(w.oms, Oms.IdFor(c.key), maxRetries, c.attempt, reply, now);
    var (oms, outcome) := Oms.Conclude(w.oms, Oms.IdFor(c.key), maxRetries, c.attempt, reply, now);
    AnswerKeepsLawful(maxRetries, w.calls, i, reply, outcome.Retry?);
    var after := Step(maxRetries, w, Answer(i, response, now));
    assert after.calls == AfterAnswer(w.calls, i, reply, outcome.Retry?);
    forall k | 0 <= k < |after.calls|
      ensures after.calls[k].key in w.oms.registry && Oms.IdFor(after.calls[k].key) in w.oms.orders
    {
      assert after.calls[k].key == w.calls[if k < |w.calls| then k else i].key;
    }
  }

  function AfterAnswer(calls: seq<Call>, i: nat, reply: Reply, again: bool): seq<Call>
    requires i < |calls|
  {
    var answered := calls[i := calls[i].(answer := Some(reply))];
    if again then answered + [Call(calls[i].key, calls[i].attempt + 1, false, None)] else answered
  }

  lemma AnswerKeepsLawful(maxRetries: nat, calls: seq<Call>, i: nat, reply: Reply, again: bool)
    requires Lawful(maxRetries, calls) && i < |calls| && calls[i].answer.None?
    requires reply == Refused(true) ==> !calls[i].placed
    requires again ==> reply == Refused(true) && calls[i].attempt < maxRetries
    ensures Lawful(maxRetries, AfterAnswer(calls, i, reply, again))
  {
    hide Lawful;
    ReplaceKeepsLawful(maxRetries, calls, i, calls[i].(answer := Some(reply)));
    if again {
      RetryKeepsLawful(maxRetries, calls, i, calls[i := calls[i].(answer := Some(reply))]);
    }
  }

  lemma RetryKeepsLawful(maxRetries: nat, calls: seq<Call>, i: nat, answered: seq<Call>)
    requires Lawful(maxRetries, calls) && i < |calls| && calls[i].answer.None? && calls[i].attempt < maxRetries
    requires answered == calls[i := calls[i].(answer := Some(Refused(true)))] && Lawful(maxRetries, answered)
    ensures Lawful(maxRetries, answered + [Call(calls[i].key, calls[i].attempt + 1, false, None)])
  {
    assert Numbered(maxRetries, answered, i);
    CallsBeforeNext(answered, calls[i].key, i, |answered|);
    AppendKeepsLawful(maxRetries, answered, Call(calls[i].key, calls[i].attempt + 1, false, None));
  }

  lemma FilledKeepsRegistry(s: Oms.State, fill: Fill)
    requires s.Valid() && fill.quantity > 0
    ensures var t := Oms.Filled(s, fill).0;
      t.Valid() && t.registry == s.registry && t.orders.Keys == s.orders.Keys
  {
    Oms.FilledKeepsValid(s, fill);
    hide Oms.AfterFill, Oms.FindByBrokerId;
    Oms.AfterFillKeepsIdentity(s, fill);
  }

  lemma StepKeeps(maxRetries: nat, w: World, e: Event)
    requires Kept(maxRetries, w)
    ensures Kept(maxRetries, Step(maxRetries, w, e))
  {
    if Possible(w, e) {
      match e
      case Submit(request) => SubmitKeeps(maxRetries, w, request);
      case Place(i) => ReplaceKeepsLawful(maxRetries, w.calls, i, w.calls[i].(placed := true));
      case Answer(i, response, now) => AnswerKeeps(maxRetries, w, i, response, now);
      case Execute(fill) =>
        hide Oms.Filled;
        FilledKeepsRegistry(w.oms, fill);
      case CancelOrder(_) =>
      case Adopt(_, _, _, _) =>
    }
  }

  // ----- Whole runs -----

  /** The world after any sequence of events. */
  ghost function Run(maxRetries: nat, events: seq<Event>): (w: World)
    ensures Kept(maxRetries, w)
  {
    if events == [] then Start
    else
      var before := Run(maxRetries, events[..|events| - 1]);
      StepKeeps(maxRetries, before, events[|events| - 1]);
      Step(maxRetries, before, events[|events| - 1])
  }

  /** How many orders the exchange took for a key. */
  function Placed(calls: seq<Call>, key: Key): nat {
    if calls == [] then 0
    else Placed(calls[..|calls| - 1], key) + if calls[|calls| - 1].key == key && calls[|calls| - 1].placed then 1 else 0
  }

  lemma {:induction false} NonePlaced(calls: seq<Call>, key: Key)
    requires forall i :: 0 <= i < |calls| && calls[i].key == key ==> !calls[i].placed
    ensures Placed(calls, key) == 0
  {
    if calls != [] {
      NonePlaced(calls[..|calls| - 1], key);
    }
  }

  lemma {:induction false} AtMostOnePlaced(maxRetries: nat, calls: seq<Call>, key: Key, n: nat)
    requires Lawful(maxRetries, calls) && n <= |calls|
    ensures Placed(calls[..n], key) <= 1
  {
    if n > 0 {
      assert calls[..n][..n - 1] == calls[..n - 1];
      AtMostOnePlaced(maxRetries, calls, key, n - 1);
      if calls[n - 1].key == key {
        forall i | 0 <= i < n - 1 && calls[i].key == key
          ensures !calls[i].placed
        {
          assert Numbered(maxRetries, calls, i);
        }
        NonePlaced(calls[..n - 1], key);
      }
    }
  }

  lemma {:induction false} CallsWithinLimit(maxRetries: nat, calls: seq<Call>, key: Key, n: nat)
    requires Lawful(maxRetries, calls) && n <= |calls|
    ensures CallsBefore(calls, key, n) <= maxRetries + 1
  {
    if n > 0 {
      CallsWithinLimit(maxRetries, calls, key, n - 1);
      assert Numbered(maxRetries, calls, n - 1);
    }
  }

  /** At most one order, bounded calls, and no call after an answer that was not "rate limited". */
  predicate OneOrder(maxRetries: nat, calls: seq<Call>, key: Key) {
    && Placed(calls, key) <= 1
    && CallsBefore(calls, key, |calls|) <= maxRetries + 1
    && (forall i, j :: 0 <= i < j < |calls| && calls[i].key == calls[j].key == key ==>
          calls[i].answer == Some(Refused(true)) && !calls[i].placed)
  }

  lemma LawfulMeansOneOrder(maxRetries: nat, calls: seq<Call>, key: Key)
    requires Lawful(maxRetries, calls)
    ensures OneOrder(maxRetries, calls, key)
  {
    AtMostOnePlaced(maxRetries, calls, key, |calls|);
    assert calls[..|calls|] == calls;
    CallsWithinLimit(maxRetries, calls, key, |calls|);
    forall i, j | 0 <= i < j < |calls| && calls[i].key == calls[j].key == key
      ensures calls[i].answer == Some(Refused(true)) && !calls[i].placed
    {
      assert Numbered(maxRetries, calls, i);
    }
  }

  /**
   * In every state that any interleaving of submissions, answers, placements, fills, cancellations
   * and reconciliations reaches: at most one order per key is at the exchange, at most
   * `maxRetries + 1` calls were made for it, and a call is followed by another for the same key
   * only if it was answered "rate limited" and placed nothing, never after an acknowledgement,
   * a final refusal or an uncertain outcome.
   */
  lemma OneIntentOneOrder(maxRetries: nat, events: seq<Event>, key: Key)
    ensures OneOrder(maxRetries, Run(maxRetries, events).calls, key)
  {
    LawfulMeansOneOrder(maxRetries, Run(maxRetries, events).calls, key);
  }

  // ----- What counts against the order rate -----

  /** When the exchange's acknowledgements came in. */
  ghost function AcknowledgedAt(maxRetries: nat, events: seq<Event>): seq<Timestamp> {
    if events == [] then []
    else
      var n := |events| - 1;
      AcknowledgedAt(maxRetries, events[..n]) +
      if Possible(Run(maxRetries, events[..n]), events[n]) && events[n].Answer? && Classify(POST, events[n].response).Ack?
      then [events[n].now] else []
  }

  lemma StepNotesAcknowledgements(maxRetries: nat, w: World, e: Event)
    requires Consistent(w)
    ensures Step(maxRetries, w, e).oms.submissions ==
            w.oms.submissions + if Possible(w, e) && e.Answer? && Classify(POST, e.response).Ack? then [e.now] else []
  {
    hide Classify, Oms.Seen, Oms.AfterFill, Oms.FindByBrokerId, Oms.State.Valid;
    if e.Execute? && Possible(w, e) {
      FillNotesNothing(w.oms, e.fill);
    }
  }

  lemma FillNotesNothing(s: Oms.State, fill: Fill)
    requires s.Valid() && fill.quantity > 0
    ensures Oms.Filled(s, fill).0.submissions == s.submissions
  {
    hide Oms.Seen, Oms.AfterFill, Oms.FindByBrokerId;
  }

  /** After any events the submissions counted are the acknowledgements, one each, in order. */
  lemma {:induction false} SubmissionsAreAcknowledgements(maxRetries: nat, events: seq<Event>)
    ensures Run(maxRetries, events).oms.submissions == AcknowledgedAt(maxRetries, events)
  {
    hide Step, Possible, Classify;
    if events != [] {
      var n := |events| - 1;
      SubmissionsAreAcknowledgements(maxRetries, events[..n]);
      StepNotesAcknowledgements(maxRetries, Run(maxRetries, events[..n]), events[n]);
    }
  }
}
