// Any number of workers on one queue, each able to die between two commands.
module QueueRuns {
  import opened Money
  import opened Domain
  import opened Queues

  /**
   * One command of some worker. A claim is four of them: list the due jobs, move a listing, pop,
   * stamp. A worker that dies simply issues no further command.
   */
  datatype Event =
    | Enqueue(payload: string, id: string, delayMs: int, now: int)
    | ListDue(due: seq<Job>, now: int)
    | MoveDue(due: seq<Job>)
    | Pop
    | Stamp(job: Job, now: int)
    | Complete(job: Job)
    | Fail(job: Job, reason: string, now: int)
    | Recover(now: int)

  /**
   * The store, the listings and jobs workers have in memory, and what was ever enqueued and
   * completed. Memory only grows: a worker may act late, twice, or on a job already recovered.
   */
  datatype World = World(
    store: Store,
    listings: set<seq<Job>>,
    popped: set<Job>,
    enqueued: set<Origin>,
    completed: set<Origin>,
    clock: int)

  function NewJob(e: Event): Job
    requires e.Enqueue?
  {
    Job(e.id, e.payload, 0, e.now, e.now + e.delayMs)
  }

  /** Time never runs backwards, and workers act only on what they have read. */
  predicate Possible(w: World, e: Event) {
    match e
    case Enqueue(_, _, _, now) => now >= w.clock
    case ListDue(due, now) => now >= w.clock && ListsDue(due, w.store.delayed, now)
    case MoveDue(due) => due in w.listings
    case Pop => true
    case Stamp(job, now) => now >= w.clock && job in w.popped
    case Complete(job) => job in w.popped
    case Fail(job, _, now) => now >= w.clock && job in w.popped
    case Recover(now) => now >= w.clock
  }

  function Step(cfg: Config, w: World, e: Event): World {
    if !Possible(w, e) then w
    else
      match e
      case Enqueue(_, _, delayMs, now) =>
        w.(store := Enqueued(w.store, NewJob(e), delayMs), enqueued := w.enqueued + {OriginOf(NewJob(e))}, clock := now)
      case ListDue(due, now) => w.(listings := w.listings + {due}, clock := now)
      case MoveDue(due) => w.(store := Promoted(w.store, due))
      case Pop =>
        var (s, job) := Popped(w.store);
        w.(store := s, popped := if job.Some? then w.popped + {job.value} else w.popped)
      case Stamp(job, now) => w.(store := Stamped(w.store, job, now), clock := now)
      case Complete(job) => w.(store := Dropped(w.store, job), completed := w.completed + {OriginOf(job)})
      case Fail(job, reason, now) => w.(store := Failed(cfg, w.store, job, reason, now), clock := now)
      case Recover(now) => w.(store := Recovered(cfg, w.store, now), clock := now)
  }

  function Run(cfg: Config, start: int, events: seq<Event>): World {
    if events == [] then World(EMPTY, {}, {}, {}, {}, start)
    else Step(cfg, Run(cfg, start, events[..|events| - 1]), events[|events| - 1])
  }

  // ----- Where copies are -----

  predicate IsRunnable(s: Store, j: Job) {
    j in s.ready || j in s.processing
  }

  predicate IsLive(s: Store, j: Job) {
    IsRunnable(s, j) || j in s.delayed
  }

  predicate IsDead(s: Store, j: Job) {
    exists d :: d in s.dead && d.job == j
  }

  ghost predicate Tracked(s: Store, o: Origin) {
    exists j :: (IsLive(s, j) || IsDead(s, j)) && OriginOf(j) == o
  }

  lemma {:induction false} ReversedMembers(jobs: seq<Job>, j: Job)
    ensures j in Reversed(jobs) <==> j in jobs
  {
    if jobs != [] {
      ReversedMembers(jobs[..|jobs| - 1], j);
      assert jobs == jobs[..|jobs| - 1] + [jobs[|jobs| - 1]];
    }
  }

  lemma PromotedMoves(s: Store, due: seq<Job>, j: Job)
    ensures IsRunnable(Promoted(s, due), j) <==> IsRunnable(s, j) || j in due
    ensures IsLive(Promoted(s, due), j) <==> IsLive(s, j) || j in due
    ensures IsDead(Promoted(s, due), j) == IsDead(s, j)
  {
    ReversedMembers(due, j);
  }

  lemma PoppedMoves(s: Store, j: Job)
    ensures var (t, job) := Popped(s);
      && (IsRunnable(t, j) <==> IsRunnable(s, j))
      && (IsLive(t, j) <==> IsLive(s, j))
      && IsDead(t, j) == IsDead(s, j)
      && (job.Some? ==> IsRunnable(s, job.value))
  {
    if s.ready != [] {
      var last := |s.ready| - 1;
      assert s.ready == s.ready[..last] + [s.ready[last]];
    }
  }

  lemma RecoveredMoves(cfg: Config, s: Store, now: int, j: Job)
    ensures var t := Recovered(cfg, s, now);
      && (IsRunnable(t, j) <==> IsRunnable(s, j)) && (IsLive(t, j) <==> IsLive(s, j)) && IsDead(t, j) == IsDead(s, j)
  {
    var abandoned := Partition(cfg, s.claimed, s.processing, now, false);
    PartitionMembers(cfg, s.claimed, s.processing, now, false, j);
    PartitionMembers(cfg, s.claimed, s.processing, now, true, j);
    ReversedMembers(abandoned, j);
  }

  function Retried(cfg: Config, job: Job, now: int): Job {
    job.(attempts := job.attempts + 1, runAt := now + Backoff(cfg, job.attempts + 1))
  }

  /** Failing replaces a job by its retry or its dead letter, and touches nothing else. */
  lemma FailedMoves(cfg: Config, s: Store, job: Job, reason: string, now: int, j: Job)
    ensures var t := Failed(cfg, s, job, reason, now);
      && (IsRunnable(t, j) ==> IsRunnable(s, j))
      && (IsLive(t, j) ==> IsLive(s, j) || (j == Retried(cfg, job, now) && j.attempts < cfg.maxAttempts))
      && (IsLive(s, j) && j != job ==> IsLive(t, j))
      && (IsDead(s, j) ==> IsDead(t, j))
      && (IsDead(t, j) ==> IsDead(s, j) || (j == job.(attempts := job.attempts + 1) && j.attempts >= cfg.maxAttempts))
  {
    hide RemoveFirst, Backoff;
    var t := Failed(cfg, s, job, reason, now);
    if job.attempts + 1 >= cfg.maxAttempts {
      var d := DeadJob(job.(attempts := job.attempts + 1), now, reason);
      assert t.dead == [d] + s.dead;
    }
  }

  lemma FailedTracks(cfg: Config, s: Store, job: Job, reason: string, now: int)
    ensures Tracked(Failed(cfg, s, job, reason, now), OriginOf(job))
  {
    hide RemoveFirst, Backoff, IsRunnable;
    var t := Failed(cfg, s, job, reason, now);
    if job.attempts + 1 >= cfg.maxAttempts {
      var d := DeadJob(job.(attempts := job.attempts + 1), now, reason);
      assert d in t.dead;
      assert IsDead(t, d.job) && OriginOf(d.job) == OriginOf(job);
    } else {
      assert Retried(cfg, job, now) in t.delayed;
      assert IsLive(t, Retried(cfg, job, now)) && OriginOf(Retried(cfg, job, now)) == OriginOf(job);
    }
  }

  // ----- The invariant -----

  /** A copy that may still run: attempts to spare, and somebody enqueued it. */
  predicate Sane(cfg: Config, w: World, j: Job) {
    j.attempts < cfg.maxAttempts && OriginOf(j) in w.enqueued
  }

  ghost predicate NothingLost(w: World) {
    forall o :: o in w.enqueued && o !in w.completed ==> Tracked(w.store, o)
  }

  ghost predicate LiveIsSane(cfg: Config, w: World) {
    && (forall j :: IsLive(w.store, j) ==> Sane(cfg, w, j))
    && (forall j :: j in w.popped ==> Sane(cfg, w, j))
    && (forall due, j :: due in w.listings && j in due ==> Sane(cfg, w, j))
  }

  ghost predicate DeadIsSpent(cfg: Config, w: World) {
    forall j :: IsDead(w.store, j) ==> j.attempts == cfg.maxAttempts && OriginOf(j) in w.enqueued
  }

  ghost predicate NothingEarly(w: World) {
    && (forall j :: IsRunnable(w.store, j) ==> j.runAt <= w.clock)
    && (forall j :: j in w.popped ==> j.runAt <= w.clock)
    && (forall due, j :: due in w.listings && j in due ==> j.runAt <= w.clock)
  }

  lemma StepLosesNothing(cfg: Config, w: World, e: Event)
    requires NothingLost(w)
    ensures NothingLost(Step(cfg, w, e))
  {
    hide Enqueued, Promoted, Popped, Stamped, Dropped, Failed, Recovered, IsLive, IsDead;
    var v := Step(cfg, w, e);
    forall o | o in v.enqueued && o !in v.completed
      ensures Tracked(v.store, o)
    {
      StepTracks(cfg, w, e, o);
    }
  }

  lemma StepTracks(cfg: Config, w: World, e: Event, o: Origin)
    requires NothingLost(w) && o in Step(cfg, w, e).enqueued && o !in Step(cfg, w, e).completed
    ensures Tracked(Step(cfg, w, e).store, o)
  {
    hide IsRunnable, Promoted, Popped, Failed, Recovered, IsDead, RemoveFirst;
    var v := Step(cfg, w, e);
    if e.Enqueue? && o !in w.enqueued && Possible(w, e) {
      EnqueuedTracks(w.store, NewJob(e), e.delayMs);
    } else {
      var j :| (IsLive(w.store, j) || IsDead(w.store, j)) && OriginOf(j) == o;
      if Possible(w, e) {
        match e
        case Enqueue(_, _, delayMs, _) => EnqueuedKeeps(w.store, NewJob(e), delayMs, j);
        case MoveDue(due) => PromotedMoves(w.store, due, j);
        case Pop => PoppedMoves(w.store, j);
        case Stamp(job, now) => StampedKeeps(w.store, job, now, j);
        case Complete(job) => DroppedKeeps(w.store, job, j);
        case Fail(job, reason, now) =>
          FailedMoves(cfg, w.store, job, reason, now, j);
          FailedTracks(cfg, w.store, job, reason, now);
        case Recover(now) => RecoveredMoves(cfg, w.store, now, j);
        case ListDue(_, _) =>
      }
      assert OriginOf(j) == o;
    }
  }

  lemma EnqueuedTracks(s: Store, job: Job, delayMs: int)
    ensures Tracked(Enqueued(s, job, delayMs), OriginOf(job))
  {
    assert IsLive(Enqueued(s, job, delayMs), job) && OriginOf(job) == OriginOf(job);
  }

  lemma EnqueuedKeeps(s: Store, job: Job, delayMs: int, j: Job)
    ensures var t := Enqueued(s, job, delayMs);
      && (IsLive(t, j) <==> IsLive(s, j) || j == job) && IsDead(t, j) == IsDead(s, j)
      && (IsRunnable(t, j) ==> IsRunnable(s, j) || (j == job && delayMs <= 0))
  {
  }

  lemma StampedKeeps(s: Store, job: Job, now: int, j: Job)
    ensures var t := Stamped(s, job, now);
      IsLive(t, j) == IsLive(s, j) && IsDead(t, j) == IsDead(s, j) && IsRunnable(t, j) == IsRunnable(s, j)
  {
  }

  lemma DroppedKeeps(s: Store, job: Job, j: Job)
    ensures var t := Dropped(s, job);
      && (IsLive(t, j) ==> IsLive(s, j)) && (IsLive(s, j) && j != job ==> IsLive(t, j))
      && IsDead(t, j) == IsDead(s, j) && (IsRunnable(t, j) ==> IsRunnable(s, j))
  {
    hide RemoveFirst;
  }

  lemma StepStaysSane(cfg: Config, w: World, e: Event)
    requires cfg.maxAttempts >= 1 && LiveIsSane(cfg, w) && DeadIsSpent(cfg, w)
    ensures LiveIsSane(cfg, Step(cfg, w, e)) && DeadIsSpent(cfg, Step(cfg, w, e))
  {
    hide IsRunnable, Enqueued, Promoted, Popped, Stamped, Dropped, Failed, Recovered, IsLive, IsDead, Retried;
    var v := Step(cfg, w, e);
    forall j
      ensures IsLive(v.store, j) ==> Sane(cfg, v, j)
      ensures IsDead(v.store, j) ==> j.attempts == cfg.maxAttempts && OriginOf(j) in v.enqueued
    {
      CopiesStaySane(cfg, w, e, j);
    }
    if e.Pop? && Popped(w.store).1.Some? {
      PoppedMoves(w.store, Popped(w.store).1.value);
      RunnableIsLive(w.store, Popped(w.store).1.value);
    }
    if e.ListDue? && Possible(w, e) {
      forall j | j in e.due
        ensures Sane(cfg, w, j)
      {
        DelayedIsLive(w.store, j);
      }
    }
  }

  lemma RunnableIsLive(s: Store, j: Job)
    requires IsRunnable(s, j)
    ensures IsLive(s, j)
  {
  }

  lemma DelayedIsLive(s: Store, j: Job)
    requires j in s.delayed
    ensures IsLive(s, j)
  {
  }

  lemma CopiesStaySane(cfg: Config, w: World, e: Event, j: Job)
    requires cfg.maxAttempts >= 1 && LiveIsSane(cfg, w) && DeadIsSpent(cfg, w)
    ensures var v := Step(cfg, w, e);
      && (IsLive(v.store, j) ==> Sane(cfg, v, j))
      && (IsDead(v.store, j) ==> j.attempts == cfg.maxAttempts && OriginOf(j) in v.enqueued)
  {
    hide IsRunnable, Enqueued, Promoted, Popped, Stamped, Dropped, Failed, Recovered, IsLive, IsDead, Backoff;
    if Possible(w, e) {
      match e
      case Enqueue(_, _, delayMs, _) => EnqueuedKeeps(w.store, NewJob(e), delayMs, j);
      case MoveDue(due) => PromotedMoves(w.store, due, j);
      case Pop => PoppedMoves(w.store, j);
      case Stamp(job, now) => StampedKeeps(w.store, job, now, j);
      case Complete(job) => DroppedKeeps(w.store, job, j);
      case Fail(job, reason, now) => FailedMoves(cfg, w.store, job, reason, now, j);
      case Recover(now) => RecoveredMoves(cfg, w.store, now, j);
      case ListDue(_, _) =>
    }
  }

  lemma StepIsNeverEarly(cfg: Config, w: World, e: Event)
    requires NothingEarly(w)
    ensures NothingEarly(Step(cfg, w, e))
  {
    hide IsRunnable, Enqueued, Promoted, Popped, Stamped, Dropped, Failed, Recovered, IsLive, IsDead, Backoff;
    var v := Step(cfg, w, e);
    forall j | IsRunnable(v.store, j)
      ensures j.runAt <= v.clock
    {
      if Possible(w, e) {
        match e
        case Enqueue(_, _, delayMs, _) => EnqueuedKeeps(w.store, NewJob(e), delayMs, j);
        case MoveDue(due) => PromotedMoves(w.store, due, j);
        case Pop => PoppedMoves(w.store, j);
        case Stamp(job, now) => StampedKeeps(w.store, job, now, j);
        case Complete(job) => DroppedKeeps(w.store, job, j);
        case Fail(job, reason, now) => FailedMoves(cfg, w.store, job, reason, now, j);
        case Recover(now) => RecoveredMoves(cfg, w.store, now, j);
        case ListDue(_, _) =>
      }
    }
    if e.Pop? && Popped(w.store).1.Some? {
      PoppedMoves(w.store, Popped(w.store).1.value);
    }
  }

  /**
   * Whatever workers do and whenever they die: work that was enqueued and not completed is in some
   * list, and nothing runs before its time.
   */
  lemma {:induction false} QueueNeverLosesWork(cfg: Config, start: int, events: seq<Event>)
    ensures NothingLost(Run(cfg, start, events)) && NothingEarly(Run(cfg, start, events))
  {
    hide Step;
    if events != [] {
      var before := Run(cfg, start, events[..|events| - 1]);
      QueueNeverLosesWork(cfg, start, events[..|events| - 1]);
      StepLosesNothing(cfg, before, events[|events| - 1]);
      StepIsNeverEarly(cfg, before, events[|events| - 1]);
    }
  }

  /**
   * With at least one attempt allowed, every copy that may still run has attempts to spare, every
   * dead letter has spent exactly the allowed number, and no copy appears from nowhere.
   */
  lemma {:induction false} AttemptsAreBounded(cfg: Config, start: int, events: seq<Event>)
    requires cfg.maxAttempts >= 1
    ensures LiveIsSane(cfg, Run(cfg, start, events)) && DeadIsSpent(cfg, Run(cfg, start, events))
  {
    hide Step, Sane;
    if events != [] {
      AttemptsAreBounded(cfg, start, events[..|events| - 1]);
      StepStaysSane(cfg, Run(cfg, start, events[..|events| - 1]), events[|events| - 1]);
    }
  }

  /** With no attempt allowed the bound already fails for the first job enqueued. */
  lemma NoAttemptsBreaksTheBound(cfg: Config, now: int)
    requires cfg.maxAttempts < 1
    ensures !LiveIsSane(cfg, Run(cfg, now, [Enqueue("", "", 0, now)]))
  {
    var e := Enqueue("", "", 0, now);
    assert [e][..0] == [];
    assert Run(cfg, now, [e]) == Step(cfg, Run(cfg, now, []), e);
    var job := NewJob(e);
    assert Run(cfg, now, [e]).store.ready == [job];
    assert IsLive(Run(cfg, now, [e]).store, job);
  }

  /** Another copy of a job in processing: in some other list, or a further entry there. */
  ghost predicate HasOtherCopy(s: Store, job: Job) {
    exists j :: OriginOf(j) == OriginOf(job) && IsOtherCopy(s, job, j)
  }

  ghost predicate IsOtherCopy(s: Store, job: Job, j: Job) {
    || j in s.ready || j in s.delayed || IsDead(s, j)
    || multiset(s.processing)[j] > (if j == job then 1 else 0)
  }

  lemma {:induction false} RemoveFirstTakesOne(list: seq<Job>, job: Job)
    ensures multiset(RemoveFirst(list, job)) == multiset(list) - multiset{job}
  {
    if list != [] {
      assert list == [list[0]] + list[1..];
      RemoveFirstTakesOne(list[1..], job);
    }
  }

  /**
   * `fail` and `recoverAbandoned` both take a job out of the processing list with its claim before
   * they put it elsewhere. A worker dying in between loses the job exactly when no other copy of the
   * same work exists anywhere: then nothing tracks it any more.
   */
  lemma DyingInBetweenLosesTheJob(s: Store, job: Job)
    requires job in s.processing
    ensures Tracked(s, OriginOf(job))
    ensures Tracked(Dropped(s, job), OriginOf(job)) <==> HasOtherCopy(s, job)
  {
    assert IsLive(s, job);
    var t := Dropped(s, job);
    RemoveFirstTakesOne(s.processing, job);
    forall j
      ensures IsLive(t, j) || IsDead(t, j) <==> IsOtherCopy(s, job, j)
    {
      assert IsDead(t, j) == IsDead(s, j);
      assert j in t.processing <==> multiset(t.processing)[j] > 0;
    }
  }

  /** A queue holding one job, just claimed, forgets it. */
  lemma OnlyCopyIsLost(job: Job)
    ensures var s := EMPTY.(processing := [job]); Tracked(s, OriginOf(job)) && !Tracked(Dropped(s, job), OriginOf(job))
  {
    hide Tracked;
    var s := EMPTY.(processing := [job]);
    DyingInBetweenLosesTheJob(s, job);
    assert multiset(s.processing) == multiset{job};
  }
}
