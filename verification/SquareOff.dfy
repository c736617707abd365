// Closing intraday positions once a day, across ticks, restarts and overlapping invocations.
module SquareOffs {
  import opened Money
  import opened Domain
  import opened Leases
  import Pipelines

  // ----- One runner -----

  /** The market order that flattens a position. */
  function ExitFor(p: Position, now: Timestamp): (r: OrderRequest)
    requires p.quantity != 0
    ensures p.quantity + Signed(r.side, r.quantity) == 0 && r.quantity > 0
  {
    Pipelines.MarketOrder("square-off", p.symbol, if p.quantity > 0 then SELL else BUY, Abs(p.quantity), now)
  }

  function ExitsFor(open: seq<Position>, now: Timestamp): seq<OrderRequest> {
    if open == [] then []
    else
      var last := open[|open| - 1];
      ExitsFor(open[..|open| - 1], now) + if last.quantity == 0 then [] else [ExitFor(last, now)]
  }

  /** One exit for every open position, flattening exactly it, in order; and nothing else. */
  lemma {:induction false} ExitsFlattenEverything(open: seq<Position>, now: Timestamp)
    ensures forall p :: p in open && p.quantity != 0 ==> ExitFor(p, now) in ExitsFor(open, now)
    ensures forall r :: r in ExitsFor(open, now) ==> exists p :: p in open && p.quantity != 0 && r == ExitFor(p, now)
    ensures |ExitsFor(open, now)| <= |open|
    ensures (forall p :: p in open ==> p.quantity != 0) ==> |ExitsFor(open, now)| == |open|
  {
    hide ExitFor;
    if open != [] {
      var before, last := open[..|open| - 1], open[|open| - 1];
      assert open == before + [last];
      ExitsFlattenEverything(before, now);
      forall r | r in ExitsFor(open, now)
        ensures exists p :: p in open && p.quantity != 0 && r == ExitFor(p, now)
      {
        if r !in ExitsFor(before, now) {
          assert last in open && last.quantity != 0 && r == ExitFor(last, now);
        }
      }
    }
  }

  /** What a runner remembers, what is stored, and what it sends. */
  datatype Attempt = Attempt(remembered: Option<int>, stored: Option<int>, exits: seq<OrderRequest>)

  function SquaredOff(remembered: Option<int>, stored: Option<int>, now: Timestamp, open: seq<Position>): Attempt {
    var today := Some(Pipelines.IstDay(now));
    if remembered == today then Attempt(remembered, stored, [])
    else if stored == today then Attempt(today, stored, [])
    else Attempt(today, today, ExitsFor(open, now))
  }

  /** A second attempt on the same day sends nothing, even from a process that remembers nothing. */
  lemma SecondAttemptSendsNothing(remembered: Option<int>, stored: Option<int>, now: Timestamp, open: seq<Position>,
                                  later: Timestamp, laterOpen: seq<Position>)
    requires Pipelines.IstDay(now) == Pipelines.IstDay(later)
    requires remembered == Some(Pipelines.IstDay(now)) ==> stored == remembered
    ensures var first := SquaredOff(remembered, stored, now, open);
      && SquaredOff(first.remembered, first.stored, later, laterOpen).exits == []
      && SquaredOff(None, first.stored, later, laterOpen).exits == []
  {
  }

  class StateStore {
    var squareOffDay: Option<int>

    constructor ()
      ensures squareOffDay == None
    {
      squareOffDay := None;
    }
  }

  class LiveRunner {
    const state: StateStore
    var squaredOffOn: Option<int>

    constructor (state: StateStore)
      ensures this.state == state && squaredOffOn == None
    {
      this.state := state;
      squaredOffOn := None;
    }

    method MarkSquaredOff(day: int)
      modifies this, state
      ensures squaredOffOn == Some(day) && state.squareOffDay == Some(day)
    {
      squaredOffOn := Some(day);
      state.squareOffDay := Some(day);
    }

    /** The mark is made before anything is sent. */
    method SquareOff(now: Timestamp, open: seq<Position>) returns (exits: seq<OrderRequest>)
      modifies this, state
      ensures Attempt(squaredOffOn, state.squareOffDay, exits) == SquaredOff(old(squaredOffOn), old(state.squareOffDay), now, open)
    {
      var today := Pipelines.IstDay(now);
      if squaredOffOn == Some(today) {
        return [];
      }
      if state.squareOffDay == Some(today) {
        squaredOffOn := Some(today);
        return [];
      }
      if |open| == 0 {
        MarkSquaredOff(today);
        return [];
      }
      MarkSquaredOff(today);
      exits := [];
      for i := 0 to |open|
        invariant exits == ExitsFor(open[..i], now)
        invariant squaredOffOn == Some(today) && state.squareOffDay == Some(today)
      {
        assert open[..i + 1][..i] == open[..i];
        if open[i].quantity == 0 {
          assert ExitsFor(open[..i], now) + [] == ExitsFor(open[..i], now);
          continue;
        }
        exits := exits + [ExitFor(open[i], now)];
      }
      assert open[..|open|] == open;
    }
  }

  // ----- Many invocations under the lease -----

  /** One tick of one invocation: it starts, reads the stored day and the positions, marks, sends. */
  datatype Body =
    | Ticking(now: Timestamp)
    | Decided(now: Timestamp, open: seq<Position>)
    | Sending(now: Timestamp, remaining: seq<Position>)
    | Done

  datatype Sent = Sent(day: int, owner: Owner, request: OrderRequest)

  datatype Scene = Scene(world: World, stored: Option<int>, bodies: map<Owner, Body>, sent: seq<Sent>)

  datatype Move =
    | OfLease(e: Event)
    | BeginTick(owner: Owner)
    | ReadGuard(owner: Owner, open: seq<Position>)
    | Mark(owner: Owner)
    | Send(owner: Owner)

  predicate DistinctSymbols(positions: seq<Position>) {
    forall i, j :: 0 <= i < j < |positions| ==> positions[i].symbol != positions[j].symbol
  }

  function BodyOf(s: Scene, owner: Owner): Body {
    if owner in s.bodies then s.bodies[owner] else Done
  }

  function Turn(s: Scene, owner: Owner, body: Body): Scene {
    s.(bodies := s.bodies[owner := body])
  }

  /** A body acts only while its lease is live: it finishes within the TTL or is cut short. */
  function Play(ttl: int, s: Scene, m: Move): Scene {
    match m
    case OfLease(e) => s.(world := Leases.Step(ttl, s.world, e))
    case BeginTick(o) =>
      if !Live(s.world, o) || o in s.bodies then s else Turn(s, o, Ticking(s.world.clock))
    case ReadGuard(o, open) =>
      if !Live(s.world, o) || !BodyOf(s, o).Ticking? || !DistinctSymbols(open) then s
      else
        var now := BodyOf(s, o).now;
        Turn(s, o, if s.stored == Some(Pipelines.IstDay(now)) then Done else Decided(now, open))
    case Mark(o) =>
      if !Live(s.world, o) || !BodyOf(s, o).Decided? then s
      else
        var body := BodyOf(s, o);
        Turn(s.(stored := Some(Pipelines.IstDay(body.now))), o, Sending(body.now, body.open))
    case Send(o) =>
      if !Live(s.world, o) || !BodyOf(s, o).Sending? || BodyOf(s, o).remaining == [] then s
      else
        var body := BodyOf(s, o);
        var p := body.remaining[0];
        var next := Turn(s, o, Sending(body.now, body.remaining[1..]));
        if p.quantity == 0 then next
        else next.(sent := s.sent + [Sent(Pipelines.IstDay(body.now), o, ExitFor(p, body.now))])
  }

  function Played(ttl: int, start: Timestamp, stored: Option<int>, moves: seq<Move>): Scene {
    if moves == [] then Scene(World(start, None, map[]), stored, map[], [])
    else Play(ttl, Played(ttl, start, stored, moves[..|moves| - 1]), moves[|moves| - 1])
  }

  /** What holds of the body of the invocation the row names, live or not. */
  ghost predicate Fits(body: Body, o: Owner, clock: Timestamp, stored: Option<int>, sent: seq<Sent>) {
    match body
    case Ticking(now) =>
      now <= clock && (stored.Some? ==> stored.value <= Pipelines.IstDay(now))
    case Decided(now, open) =>
      && now <= clock && DistinctSymbols(open)
      && (stored.Some? ==> stored.value < Pipelines.IstDay(now))
    case Sending(now, remaining) =>
      && now <= clock && DistinctSymbols(remaining)
      && stored == Some(Pipelines.IstDay(now))
      && (forall k :: 0 <= k < |sent| && sent[k].day == Pipelines.IstDay(now) ==>
            && sent[k].owner == o
            && (forall p :: p in remaining ==> p.symbol != sent[k].request.symbol))
    case Done => true
  }

  ghost predicate BodyFits(s: Scene, o: Owner) {
    Fits(BodyOf(s, o), o, s.world.clock, s.stored, s.sent)
  }

  ghost predicate OncePerDay(sent: seq<Sent>) {
    forall i, j :: 0 <= i < j < |sent| && sent[i].day == sent[j].day ==>
      sent[i].owner == sent[j].owner && sent[i].request.symbol != sent[j].request.symbol
  }

  /** The stored day is no later than today, and nothing was sent for a later day than it. */
  predicate DaysFit(stored: Option<int>, clock: Timestamp, sent: seq<Sent>) {
    (stored.Some? ==> stored.value <= Pipelines.IstDay(clock)) && SentByStored(stored, sent)
  }

  predicate SentByStored(stored: Option<int>, sent: seq<Sent>) {
    forall k :: 0 <= k < |sent| ==> stored.Some? && sent[k].day <= stored.value
  }

  /** Only invocations that were granted the lease ever have a body. */
  predicate BodiesWereGranted(s: Scene) {
    forall o :: o in s.bodies ==> o in s.world.phases && !s.world.phases[o].Acquiring?
  }

  ghost predicate NamedFits(s: Scene) {
    s.world.row.Some? ==> BodyFits(s, s.world.row.value.owner)
  }

  ghost predicate Safe(s: Scene) {
    Covered(s.world) && DaysFit(s.stored, s.world.clock, s.sent) && BodiesWereGranted(s) && NamedFits(s) && OncePerDay(s.sent)
  }

  lemma DaysAreOrdered(t0: Timestamp, t1: Timestamp)
    requires t0 <= t1
    ensures Pipelines.IstDay(t0) <= Pipelines.IstDay(t1)
  {
  }

  lemma LeaseMoves(ttl: int, s: Scene, e: Event)
    requires Safe(s)
    ensures Safe(Play(ttl, s, OfLease(e)))
  {
    hide OncePerDay, Pipelines.IstDay, Leases.Step, Covered, DaysFit, Fits;
    var w, v := s.world, Leases.Step(ttl, s.world, e);
    var t := s.(world := v);
    assert Play(ttl, s, OfLease(e)) == t;
    StepKeepsCover(ttl, w, e);
    DaysFitLater(s.stored, w.clock, v.clock, s.sent);
    RowChangesHands(ttl, w, e);
    forall o | o in t.bodies
      ensures o in v.phases && !v.phases[o].Acquiring?
    {
      assert o in s.bodies && o in w.phases;
    }
    if v.row.Some? {
      var o := v.row.value.owner;
      if o !in s.bodies {
        NoBodyFits(t, o);
      } else {
        assert BodyFits(s, o);
        ClockKeepsFit(s, t, o);
      }
    }
  }

  lemma DaysFitLater(stored: Option<int>, clock: Timestamp, later: Timestamp, sent: seq<Sent>)
    requires DaysFit(stored, clock, sent) && clock <= later
    ensures DaysFit(stored, later, sent)
  {
    hide Pipelines.IstDay, SentByStored;
    DaysAreOrdered(clock, later);
  }

  lemma NoBodyFits(s: Scene, o: Owner)
    requires o !in s.bodies
    ensures BodyFits(s, o)
  {
  }

  lemma ClockKeepsFit(s: Scene, t: Scene, o: Owner)
    requires BodyFits(s, o) && t.bodies == s.bodies && t.stored == s.stored && t.sent == s.sent
    requires s.world.clock <= t.world.clock
    ensures BodyFits(t, o)
  {
    hide Pipelines.IstDay, DistinctSymbols;
    assert BodyOf(t, o) == BodyOf(s, o);
  }

  /** The row changes hands only to an invocation that was just acquiring. */
  lemma RowChangesHands(ttl: int, w: World, e: Event)
    ensures var v := Leases.Step(ttl, w, e);
      && (forall o :: o in w.phases ==> o in v.phases)
      && (forall o :: o in w.phases && !w.phases[o].Acquiring? ==> !v.phases[o].Acquiring?)
      && (v.row.Some? ==>
            || (w.row.Some? && v.row.value.owner == w.row.value.owner)
            || (v.row.value.owner in w.phases && w.phases[v.row.value.owner].Acquiring?))
  {
  }

  lemma TailIsDistinct(positions: seq<Position>)
    requires positions != [] && DistinctSymbols(positions)
    ensures DistinctSymbols(positions[1..])
    ensures forall p :: p in positions[1..] ==> p in positions && p.symbol != positions[0].symbol
  {
    var tail := positions[1..];
    assert forall k :: 0 <= k < |tail| ==> tail[k] == positions[k + 1];
    forall p | p in tail
      ensures p in positions && p.symbol != positions[0].symbol
    {
      var k :| 0 <= k < |tail| && tail[k] == p;
    }
  }

  lemma OncePerDaySnoc(sent: seq<Sent>, x: Sent)
    requires OncePerDay(sent)
    requires forall k :: 0 <= k < |sent| && sent[k].day == x.day ==>
      sent[k].owner == x.owner && sent[k].request.symbol != x.request.symbol
    ensures OncePerDay(sent + [x])
  {
  }

  /** The invocation that may act is the one the row names. */
  lemma ActorIsNamed(s: Scene, o: Owner)
    requires Safe(s) && Live(s.world, o)
    ensures s.world.row.Some? && s.world.row.value.owner == o && BodyFits(s, o)
    ensures o in s.world.phases && !s.world.phases[o].Acquiring?
  {
    hide BodyFits, OncePerDay, Pipelines.IstDay;
  }

  /** When the named invocation acts, only its own body needs to be looked at again. */
  lemma Acted(s: Scene, t: Scene, o: Owner, body: Body)
    requires Safe(s) && Live(s.world, o)
    requires t.world == s.world && t.bodies == s.bodies[o := body]
    requires DaysFit(t.stored, t.world.clock, t.sent) && BodyFits(t, o) && OncePerDay(t.sent)
    ensures Safe(t)
  {
    hide BodyFits, OncePerDay, DaysFit, Covered, Pipelines.IstDay;
    ActorIsNamed(s, o);
    forall p | p in t.bodies
      ensures p in t.world.phases && !t.world.phases[p].Acquiring?
    {
      assert p == o || p in s.bodies;
    }
    assert NamedFits(t);
  }

  lemma BeginMove(ttl: int, s: Scene, o: Owner)
    requires Safe(s) && Live(s.world, o) && o !in s.bodies
    ensures Safe(Turn(s, o, Ticking(s.world.clock)))
  {
    hide Pipelines.IstDay, OncePerDay, Covered, Live;
    var t := Turn(s, o, Ticking(s.world.clock));
    assert BodyOf(t, o) == Ticking(s.world.clock);
    Acted(s, t, o, Ticking(s.world.clock));
  }

  lemma ReadMove(ttl: int, s: Scene, o: Owner, open: seq<Position>)
    requires Safe(s) && Live(s.world, o) && BodyOf(s, o).Ticking? && DistinctSymbols(open)
    ensures Safe(Play(ttl, s, ReadGuard(o, open)))
  {
    hide Pipelines.IstDay, OncePerDay, Covered, Live, DistinctSymbols;
    ActorIsNamed(s, o);
    var now := BodyOf(s, o).now;
    var body := if s.stored == Some(Pipelines.IstDay(now)) then Done else Decided(now, open);
    var t := Turn(s, o, body);
    assert BodyOf(t, o) == body;
    assert Play(ttl, s, ReadGuard(o, open)) == t;
    Acted(s, t, o, body);
  }

  lemma MarkMove(ttl: int, s: Scene, o: Owner)
    requires Safe(s) && Live(s.world, o) && BodyOf(s, o).Decided?
    ensures Safe(Play(ttl, s, Mark(o)))
  {
    hide Pipelines.IstDay, OncePerDay, Covered, Live, DistinctSymbols;
    ActorIsNamed(s, o);
    var body := BodyOf(s, o);
    DaysAreOrdered(body.now, s.world.clock);
    var t := Turn(s.(stored := Some(Pipelines.IstDay(body.now))), o, Sending(body.now, body.open));
    assert BodyOf(t, o) == Sending(body.now, body.open);
    assert Play(ttl, s, Mark(o)) == t;
    Acted(s, t, o, Sending(body.now, body.open));
  }

  lemma SendMove(ttl: int, s: Scene, o: Owner)
    requires Safe(s) && Live(s.world, o) && BodyOf(s, o).Sending? && BodyOf(s, o).remaining != []
    ensures Safe(Play(ttl, s, Send(o)))
  {
    hide Pipelines.IstDay, OncePerDay, Covered, Live, DistinctSymbols;
    ActorIsNamed(s, o);
    var body := BodyOf(s, o);
    TailIsDistinct(body.remaining);
    var p, next := body.remaining[0], Sending(body.now, body.remaining[1..]);
    assert p in body.remaining;
    var t := Play(ttl, s, Send(o));
    assert BodyOf(t, o) == next;
    if p.quantity != 0 {
      var x := Sent(Pipelines.IstDay(body.now), o, ExitFor(p, body.now));
      OncePerDaySnoc(s.sent, x);
      assert t.sent == s.sent + [x];
    } else {
      assert t.sent == s.sent;
    }
    Acted(s, t, o, next);
  }

  /** A move that is not possible changes nothing. */
  lemma AnyMove(ttl: int, s: Scene, m: Move)
    requires Safe(s)
    ensures Safe(Play(ttl, s, m))
  {
    hide Pipelines.IstDay, OncePerDay, Covered, Live, DistinctSymbols, Safe;
    match m
    case OfLease(e) => LeaseMoves(ttl, s, e);
    case BeginTick(o) => if Live(s.world, o) && o !in s.bodies { BeginMove(ttl, s, o); }
    case ReadGuard(o, open) => if Live(s.world, o) && BodyOf(s, o).Ticking? && DistinctSymbols(open) { ReadMove(ttl, s, o, open); }
    case Mark(o) => if Live(s.world, o) && BodyOf(s, o).Decided? { MarkMove(ttl, s, o); }
    case Send(o) => if Live(s.world, o) && BodyOf(s, o).Sending? && BodyOf(s, o).remaining != [] { SendMove(ttl, s, o); }
  }

  lemma NothingSentYet(ttl: int, start: Timestamp, stored: Option<int>)
    requires stored.Some? ==> stored.value <= Pipelines.IstDay(start)
    ensures Safe(Played(ttl, start, stored, []))
  {
    hide Pipelines.IstDay;
  }

  /** While its lease lives, an invocation that sends goes through every position it read, sending the exit of each open one. */
  lemma SendingExitsEveryPosition(ttl: int, s: Scene, o: Owner)
    requires Live(s.world, o) && BodyOf(s, o).Sending? && BodyOf(s, o).remaining != []
    ensures var body, t := BodyOf(s, o), Play(ttl, s, Send(o));
      && BodyOf(t, o) == Sending(body.now, body.remaining[1..]) && t.world == s.world && t.stored == s.stored
      && t.sent == s.sent + if body.remaining[0].quantity == 0 then []
                            else [Sent(Pipelines.IstDay(body.now), o, ExitFor(body.remaining[0], body.now))]
  {
    hide Live, ExitFor, Pipelines.IstDay;
  }

  /**
   * Whatever the interleaving of ticks, crashes and restarts: all exits of one day come from one
   * invocation, and no position of that day is exited twice.
   */
  lemma {:induction false} SquareOffHappensOnce(ttl: int, start: Timestamp, stored: Option<int>, moves: seq<Move>)
    requires stored.Some? ==> stored.value <= Pipelines.IstDay(start)
    ensures OncePerDay(Played(ttl, start, stored, moves).sent)
    ensures Safe(Played(ttl, start, stored, moves))
  {
    hide Play, Pipelines.IstDay, OncePerDay, Covered, DaysFit, BodiesWereGranted, NamedFits;
    if moves == [] {
      NothingSentYet(ttl, start, stored);
    } else {
      var s, m := Played(ttl, start, stored, moves[..|moves| - 1]), moves[|moves| - 1];
      SquareOffHappensOnce(ttl, start, stored, moves[..|moves| - 1]);
      AnyMove(ttl, s, m);
    }
  }
}
