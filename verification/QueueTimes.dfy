// When queued work runs: in order of arrival, not before its delay or its pause, and again once its claim is stale.
module QueueTimes {
  import opened Money
  import opened Domain
  import opened Queues
  import opened QueueRuns

  // ----- Order of service -----

  /** The ready jobs, next to be served first. */
  function Line(s: Store): seq<Job> {
    Reversed(s.ready)
  }

  lemma {:induction false} ReversedJoins(a: seq<Job>, b: seq<Job>)
    ensures Reversed(a + b) == Reversed(b) + Reversed(a)
  {
    if b == [] {
      assert a + b == a;
    } else {
      assert (a + b)[..|a + b| - 1] == a + b[..|b| - 1];
      ReversedJoins(a, b[..|b| - 1]);
    }
  }

  lemma {:induction false} ReversedTwice(jobs: seq<Job>)
    ensures Reversed(Reversed(jobs)) == jobs
  {
    if jobs != [] {
      var n := |jobs| - 1;
      ReversedTwice(jobs[..n]);
      ReversedJoins([jobs[n]], Reversed(jobs[..n]));
      assert [jobs[n]][..0] == [];
      assert Reversed([jobs[n]]) == [jobs[n]];
    }
  }

  /** Jobs pushed at the head go to the end of the line. */
  lemma PushedGoLast(pushed: seq<Job>, ready: seq<Job>)
    ensures Reversed(Reversed(pushed) + ready) == Reversed(ready) + pushed
  {
    ReversedJoins(Reversed(pushed), ready);
    ReversedTwice(pushed);
  }

  lemma OneGoesLast(job: Job, ready: seq<Job>)
    ensures Reversed([job] + ready) == Reversed(ready) + [job]
  {
    assert [job][..0] == [];
    assert Reversed([job]) == [job];
    PushedGoLast([job], ready);
  }

  /** What an event serves: the job that a pop hands out. */
  function ServedBy(w: World, e: Event): seq<Job> {
    if e.Pop? && Popped(w.store).1.Some? then [Popped(w.store).1.value] else []
  }

  lemma PopServesTheFirst(s: Store)
    requires s.ready != []
    ensures Popped(s).1.Some? && Line(s) == [Popped(s).1.value] + Line(Popped(s).0)
  {
  }

  lemma RecoveryGoesLast(cfg: Config, s: Store, now: int)
    ensures Line(s) <= Line(Recovered(cfg, s, now))
  {
    hide Partition;
    PushedGoLast(Partition(cfg, s.claimed, s.processing, now, false), s.ready);
  }

  lemma StepServesTheFirst(cfg: Config, w: World, e: Event)
    ensures Line(w.store) <= ServedBy(w, e) + Line(Step(cfg, w, e).store)
  {
    hide Reversed, RemoveFirst, Recovered, Popped, Backoff;
    if Possible(w, e) {
      match e
      case Enqueue(_, _, delayMs, _) => OneGoesLast(NewJob(e), w.store.ready);
      case MoveDue(due) => PushedGoLast(due, w.store.ready);
      case Recover(now) => RecoveryGoesLast(cfg, w.store, now);
      case Pop =>
        if w.store.ready != [] {
          PopServesTheFirst(w.store);
        } else {
          NothingToPop(w.store);
        }
      case _ =>
    }
  }

  lemma NothingToPop(s: Store)
    requires s.ready == []
    ensures Popped(s) == (s, None)
  {
  }

  /** Everything served so far, in order. */
  function Served(cfg: Config, start: int, events: seq<Event>): seq<Job> {
    if events == [] then []
    else
      var n := |events| - 1;
      Served(cfg, start, events[..n]) + ServedBy(Run(cfg, start, events[..n]), events[n])
  }

  /**
   * First in, first out: whatever happens later, jobs are served exactly in the order in which they
   * stand in line, and everything that joins the line joins it at its end.
   */
  lemma {:induction false} FirstInFirstOut(cfg: Config, start: int, events: seq<Event>, n: nat)
    requires n <= |events|
    ensures Served(cfg, start, events[..n]) + Line(Run(cfg, start, events[..n]).store) <=
            Served(cfg, start, events) + Line(Run(cfg, start, events).store)
    decreases |events|
  {
    hide Step, Line, ServedBy;
    if n < |events| {
      var m := |events| - 1;
      FirstInFirstOut(cfg, start, events[..m], n);
      assert events[..m][..n] == events[..n];
      StepServesTheFirst(cfg, Run(cfg, start, events[..m]), events[m]);
    } else {
      assert events[..n] == events;
    }
  }

  // ----- Delays and pauses -----

  /** The pause before a retry: the base, doubled for every attempt after the first, up to the most. */
  function Pause(cfg: Config, attempts: nat): int
    requires attempts > 0
  {
    if attempts == 1 then Min(cfg.maxBackoffMs, cfg.backoffMs) else Min(cfg.maxBackoffMs, 2 * Pause(cfg, attempts - 1))
  }

  lemma {:induction false} BackoffDoubles(cfg: Config, attempts: nat)
    requires attempts > 0
    ensures Backoff(cfg, attempts) == Pause(cfg, attempts)
  {
    if attempts > 1 {
      BackoffDoubles(cfg, attempts - 1);
      var b, p := cfg.backoffMs, Pow2(attempts - 2);
      assert Pow2(attempts - 1) == 2 * p;
      assert b * (2 * p) == 2 * (b * p);
    } else {
      assert Pow2(0) == 1;
    }
  }

  /** An event that asks for a job at a time: an enqueue with its delay, or a failure with its pause. */
  predicate Calls(cfg: Config, e: Event, j: Job) {
    match e
    case Enqueue(payload, id, delayMs, now) =>
      j.attempts == 0 && j.id == id && j.payload == payload && j.enqueuedAt == now && j.runAt == now + delayMs
    case Fail(job, _, now) =>
      j.attempts == job.attempts + 1 && OriginOf(j) == OriginOf(job) && j.runAt == now + Pause(cfg, j.attempts)
    case _ => false
  }

  ghost predicate CalledFor(cfg: Config, events: seq<Event>, j: Job) {
    exists i :: 0 <= i < |events| && Calls(cfg, events[i], j)
  }

  /** A dead letter tells which failure buried it. */
  predicate Buries(e: Event, d: DeadJob) {
    e.Fail? && d.failedAt == e.now && d.reason == e.reason && d.job == e.job.(attempts := e.job.attempts + 1)
  }

  ghost predicate BuriedBy(events: seq<Event>, d: DeadJob) {
    exists i :: 0 <= i < |events| && Buries(events[i], d)
  }

  ghost predicate AllCalledFor(cfg: Config, events: seq<Event>, w: World) {
    && (forall j :: IsLive(w.store, j) ==> CalledFor(cfg, events, j))
    && (forall due, j :: due in w.listings && j in due ==> CalledFor(cfg, events, j))
    && (forall d :: d in w.store.dead ==> BuriedBy(events, d))
  }

  lemma StillCalledFor(cfg: Config, events: seq<Event>, e: Event, j: Job)
    ensures CalledFor(cfg, events, j) ==> CalledFor(cfg, events + [e], j)
    ensures Calls(cfg, e, j) ==> CalledFor(cfg, events + [e], j)
  {
    hide Calls;
    if CalledFor(cfg, events, j) {
      var i :| 0 <= i < |events| && Calls(cfg, events[i], j);
      assert (events + [e])[i] == events[i];
    }
    assert (events + [e])[|events|] == e;
  }

  lemma StillBuried(events: seq<Event>, e: Event, d: DeadJob)
    ensures BuriedBy(events, d) ==> BuriedBy(events + [e], d)
    ensures Buries(e, d) ==> BuriedBy(events + [e], d)
  {
    hide Buries;
    if BuriedBy(events, d) {
      var i :| 0 <= i < |events| && Buries(events[i], d);
      assert (events + [e])[i] == events[i];
    }
    assert (events + [e])[|events|] == e;
  }

  lemma RetryIsCalledFor(cfg: Config, job: Job, reason: string, now: int)
    ensures Calls(cfg, Fail(job, reason, now), Retried(cfg, job, now))
  {
    BackoffDoubles(cfg, job.attempts + 1);
  }

  /** Where a live copy comes from. */
  lemma LiveComesFrom(cfg: Config, w: World, e: Event, j: Job)
    requires IsLive(Step(cfg, w, e).store, j)
    ensures IsLive(w.store, j) || Calls(cfg, e, j) || (exists due :: due in w.listings && j in due)
  {
    hide IsRunnable, Enqueued, Promoted, Popped, Stamped, Dropped, Failed, Recovered, IsLive, IsDead, Backoff, Pause;
    if Possible(w, e) {
      match e
      case Enqueue(_, _, delayMs, _) => EnqueuedKeeps(w.store, NewJob(e), delayMs, j);
      case MoveDue(due) => PromotedMoves(w.store, due, j);
      case Pop => PoppedMoves(w.store, j);
      case Stamp(job, now) => StampedKeeps(w.store, job, now, j);
      case Complete(job) => DroppedKeeps(w.store, job, j);
      case Fail(job, reason, now) =>
        FailedMoves(cfg, w.store, job, reason, now, j);
        RetryIsCalledFor(cfg, job, reason, now);
      case Recover(now) => RecoveredMoves(cfg, w.store, now, j);
      case ListDue(_, _) =>
    }
  }

  lemma DeadComesFrom(cfg: Config, w: World, e: Event, d: DeadJob)
    requires d in Step(cfg, w, e).store.dead
    ensures d in w.store.dead || Buries(e, d)
  {
    hide Reversed, RemoveFirst, Partition, Backoff;
  }

  lemma ListedComesFrom(cfg: Config, w: World, e: Event, due: seq<Job>, j: Job)
    requires due in Step(cfg, w, e).listings && j in due
    ensures due in w.listings || IsLive(w.store, j)
  {
    hide Reversed, RemoveFirst, Partition, Backoff, Enqueued, Promoted, Popped, Stamped, Dropped, Failed, Recovered;
  }

  lemma StepCallsFor(cfg: Config, events: seq<Event>, w: World, e: Event)
    requires AllCalledFor(cfg, events, w)
    ensures AllCalledFor(cfg, events + [e], Step(cfg, w, e))
  {
    hide Step, CalledFor, BuriedBy, Calls, Buries, IsLive;
    var v := Step(cfg, w, e);
    forall j | IsLive(v.store, j)
      ensures CalledFor(cfg, events + [e], j)
    {
      LiveComesFrom(cfg, w, e, j);
      StillCalledFor(cfg, events, e, j);
    }
    forall due, j | due in v.listings && j in due
      ensures CalledFor(cfg, events + [e], j)
    {
      ListedComesFrom(cfg, w, e, due, j);
      StillCalledFor(cfg, events, e, j);
    }
    forall d | d in v.store.dead
      ensures BuriedBy(events + [e], d)
    {
      DeadComesFrom(cfg, w, e, d);
      StillBuried(events, e, d);
    }
  }

  /**
   * In every reachable state a copy that may run was asked for by an enqueue, for no sooner than its
   * delay, or by a failure, for no sooner than the pause of its attempt; and no copy runs sooner than
   * that. Every dead letter tells when and why it was buried.
   */
  lemma {:induction false} NothingRunsEarly(cfg: Config, start: int, events: seq<Event>)
    ensures AllCalledFor(cfg, events, Run(cfg, start, events)) && NothingEarly(Run(cfg, start, events))
  {
    hide Step, AllCalledFor, NothingEarly;
    QueueNeverLosesWork(cfg, start, events);
    if events != [] {
      var n := |events| - 1;
      NothingRunsEarly(cfg, start, events[..n]);
      StepCallsFor(cfg, events[..n], Run(cfg, start, events[..n]), events[n]);
      assert events[..n] + [events[n]] == events;
    } else {
      NothingCalledForYet(cfg, start);
    }
  }

  lemma NothingCalledForYet(cfg: Config, start: int)
    ensures AllCalledFor(cfg, [], Run(cfg, start, []))
  {
  }

  // ----- Claims -----

  /** A claim made less than the timeout ago. */
  predicate IsFresh(cfg: Config, claim: Option<int>, now: int) {
    claim.Some? && claim.value > 0 && claim.value > now - cfg.visibilityTimeoutMs
  }

  /** When an id was last claimed, unless it was completed, failed or recovered since. */
  ghost function LastClaim(cfg: Config, start: int, events: seq<Event>, id: string): Option<int> {
    if events == [] then None
    else
      var n := |events| - 1;
      var w, e, before := Run(cfg, start, events[..n]), events[n], LastClaim(cfg, start, events[..n], id);
      if !Possible(w, e) then before
      else
        match e
        case Stamp(job, now) => if job.id == id then Some(now) else before
        case Complete(job) => if job.id == id then None else before
        case Fail(job, _, _) => if job.id == id then None else before
        case Recover(now) => if (exists j :: j in w.store.processing && j.id == id) && !IsFresh(cfg, before,
            now) then None else before
        case _ => before
  }

  predicate Claims(claimed: map<string, int>, id: string, claim: Option<int>) {
    if claim.Some? then id in claimed && claimed[id] == claim.value else id !in claimed
  }

  lemma AbandonedIds(cfg: Config, s: Store, now: int, id: string, claim: Option<int>)
    requires Claims(s.claimed, id, claim)
    ensures id in Ids(Partition(cfg, s.claimed, s.processing, now, false)) <==>
            (exists j :: j in s.processing && j.id == id) && !IsFresh(cfg, claim, now)
  {
    hide Partition;
    var abandoned := Partition(cfg, s.claimed, s.processing, now, false);
    forall j
      ensures j in abandoned <==> j in s.processing && !HeldFresh(cfg, s.claimed, j, now)
    {
      PartitionMembers(cfg, s.claimed, s.processing, now, false, j);
    }
  }

  lemma StepMovesClaims(cfg: Config, w: World, e: Event, id: string, before: Option<int>)
    requires Claims(w.store.claimed, id, before) && Possible(w, e)
    ensures Claims(Step(cfg, w, e).store.claimed, id,
      match e
      case Stamp(job, now) => if job.id == id then Some(now) else before
      case Complete(job) => if job.id == id then None else before
      case Fail(job, _, _) => if job.id == id then None else before
      case Recover(now) => if (exists j :: j in w.store.processing && j.id == id) && !IsFresh(cfg, before,
          now) then None else before
      case _ => before)
  {
    hide Reversed, RemoveFirst, Partition, Backoff, IsFresh;
    if e.Recover? {
      AbandonedIds(cfg, w.store, e.now, id, before);
    }
  }

  /** The claims on file are the last ones made. */
  lemma {:induction false} ClaimsAreOnFile(cfg: Config, start: int, events: seq<Event>, id: string)
    ensures Claims(Run(cfg, start, events).store.claimed, id, LastClaim(cfg, start, events, id))
  {
    hide Step, Claims, IsFresh;
    if events != [] {
      var n := |events| - 1;
      ClaimsAreOnFile(cfg, start, events[..n], id);
      var w := Run(cfg, start, events[..n]);
      if Possible(w, events[n]) {
        StepMovesClaims(cfg, w, events[n], id, LastClaim(cfg, start, events[..n], id));
      } else {
        NothingHappens(cfg, w, events[n]);
      }
    } else {
      NoClaimsYet(cfg, start, id);
    }
  }

  lemma NothingHappens(cfg: Config, w: World, e: Event)
    requires !Possible(w, e)
    ensures Step(cfg, w, e) == w
  {
  }

  lemma NoClaimsYet(cfg: Config, start: int, id: string)
    ensures Claims(Run(cfg, start, []).store.claimed, id, None)
  {
  }

  /**
   * After any events, recovery leaves a job with its worker exactly when its id was last claimed less
   * than the timeout ago, and puts it back in line otherwise.
   */
  lemma RecoveryTakesExactlyTheStale(cfg: Config, start: int, events: seq<Event>, now: int, j: Job)
    requires j in Run(cfg, start, events).store.processing
    ensures var s, r := Run(cfg, start, events).store, Recovered(cfg, Run(cfg, start, events).store, now);
      if IsFresh(cfg, LastClaim(cfg, start, events, j.id), now) then j in r.processing && Claims(r.claimed, j.id,
          LastClaim(cfg, start, events, j.id))
      else j in Line(r) && j !in r.processing && Claims(r.claimed, j.id, None)
  {
    hide Partition, Reversed, Run;
    ClaimsAreOnFile(cfg, start, events, j.id);
    var s := Run(cfg, start, events).store;
    var claim := LastClaim(cfg, start, events, j.id);
    hide LastClaim;
    AbandonedIds(cfg, s, now, j.id, claim);
    PartitionMembers(cfg, s.claimed, s.processing, now, true, j);
    PartitionMembers(cfg, s.claimed, s.processing, now, false, j);
    PushedGoLast(Partition(cfg, s.claimed, s.processing, now, false), s.ready);
  }
}
