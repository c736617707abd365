// The work queue: Redis lists that jobs move between, one command at a time.
module Queues {
  import opened Money
  import opened Domain

  /** One serialised job. Two copies with equal fields are the same list entry. */
  datatype Job = Job(id: string, payload: string, attempts: nat, enqueuedAt: int, runAt: int)

  datatype DeadJob = DeadJob(job: Job, failedAt: int, reason: string)

  /** What identifies a piece of work across its retries. */
  datatype Origin = Origin(id: string, payload: string, enqueuedAt: int)

  datatype Config = Config(maxAttempts: int, backoffMs: nat, maxBackoffMs: nat, visibilityTimeoutMs: int)

  /** `ready` is pushed at its head and popped at its tail; `delayed` is ordered by `runAt`. */
  datatype Store = Store(
    ready: seq<Job>,
    delayed: set<Job>,
    processing: seq<Job>,
    dead: seq<DeadJob>,
    claimed: map<string, int>)

  function OriginOf(job: Job): Origin {
    Origin(job.id, job.payload, job.enqueuedAt)
  }

  const EMPTY := Store([], {}, [], [], map[])

  // ----- The commands -----

  function Enqueued(s: Store, job: Job, delayMs: int): Store {
    if delayMs > 0 then s.(delayed := s.delayed + {job}) else s.(ready := [job] + s.ready)
  }

  /** A listing of exactly the delayed jobs that are due, earliest first. */
  predicate ListsDue(due: seq<Job>, delayed: set<Job>, now: int) {
    && Distinct(due)
    && (forall i, j :: 0 <= i < j < |due| ==> due[i].runAt <= due[j].runAt)
    && (forall j :: j in due ==> j in delayed && j.runAt <= now)
    && (forall j :: j in delayed && j.runAt <= now ==> j in due)
  }

  function Reversed(jobs: seq<Job>): seq<Job> {
    if jobs == [] then [] else [jobs[|jobs| - 1]] + Reversed(jobs[..|jobs| - 1])
  }

  /** Each listed job is pushed onto the ready list and taken off the delayed set. */
  function Promoted(s: Store, due: seq<Job>): Store {
    s.(ready := Reversed(due) + s.ready, delayed := s.delayed - (set j | j in due))
  }

  function Popped(s: Store): (r: (Store, Option<Job>))
    ensures r.1.None? <==> s.ready == []
  {
    if s.ready == [] then (s, None)
    else
      var last := |s.ready| - 1;
      (s.(ready := s.ready[..last], processing := [s.ready[last]] + s.processing), Some(s.ready[last]))
  }

  function Stamped(s: Store, job: Job, now: int): Store {
    s.(claimed := s.claimed[job.id := now])
  }

  /** Removes the first occurrence, if there is one. */
  function RemoveFirst(list: seq<Job>, job: Job): (r: seq<Job>)
    ensures forall j :: j in r ==> j in list
    ensures forall j :: j in list && j != job ==> j in r
  {
    if list == [] then []
    else if list[0] == job then list[1..]
    else [list[0]] + RemoveFirst(list[1..], job)
  }

  function Dropped(s: Store, job: Job): Store {
    s.(processing := RemoveFirst(s.processing, job), claimed := s.claimed - {job.id})
  }

  function Backoff(cfg: Config, attempts: nat): (b: nat)
    requires attempts > 0
    ensures b <= cfg.maxBackoffMs
  {
    Min(cfg.maxBackoffMs, cfg.backoffMs * Pow2(attempts - 1))
  }

  /** A failed job is retried later, or set aside for an operator once its attempts are spent. */
  function Failed(cfg: Config, s: Store, job: Job, reason: string, now: int): Store {
    var dropped := Dropped(s, job);
    var attempts := job.attempts + 1;
    if attempts >= cfg.maxAttempts then
      dropped.(dead := [DeadJob(job.(attempts := attempts), now, reason)] + dropped.dead)
    else
      dropped.(delayed := dropped.delayed + {job.(attempts := attempts, runAt := now + Backoff(cfg, attempts))})
  }

  predicate HeldFresh(cfg: Config, claimed: map<string, int>, job: Job, now: int) {
    job.id in claimed && claimed[job.id] > 0 && now - claimed[job.id] < cfg.visibilityTimeoutMs
  }

  /** The jobs of a list whose claim is fresh, or is not, in order. */
  function Partition(cfg: Config, claimed: map<string, int>, jobs: seq<Job>, now: int, wanted: bool): seq<Job> {
    if jobs == [] then []
    else
      var before, last := jobs[..|jobs| - 1], jobs[|jobs| - 1];
      Partition(cfg, claimed, before, now, wanted) + if HeldFresh(cfg, claimed, last, now) == wanted then [last] else []
  }

  lemma {:induction false} PartitionMembers(cfg: Config, claimed: map<string, int>, jobs: seq<Job>, now: int, wanted: bool, j: Job)
    ensures j in Partition(cfg, claimed, jobs, now, wanted) <==> j in jobs && HeldFresh(cfg, claimed, j, now) == wanted
  {
    if jobs != [] {
      var before := jobs[..|jobs| - 1];
      PartitionMembers(cfg, claimed, before, now, wanted, j);
      assert jobs == before + [jobs[|jobs| - 1]];
    }
  }

  function Ids(jobs: seq<Job>): set<string> {
    set j | j in jobs :: j.id
  }

  /** Recovery returns every job without a fresh claim to the ready list and forgets its claim. */
  function Recovered(cfg: Config, s: Store, now: int): Store {
    var abandoned := Partition(cfg, s.claimed, s.processing, now, false);
    s.(ready := Reversed(abandoned) + s.ready,
       processing := Partition(cfg, s.claimed, s.processing, now, true),
       claimed := s.claimed - Ids(abandoned))
  }

  /** After recovery only freshly claimed jobs are in processing, and their claims are still there. */
  lemma RecoveryLeavesOnlyFresh(cfg: Config, s: Store, now: int)
    ensures var r := Recovered(cfg, s, now);
      && (forall j :: j in r.processing ==> HeldFresh(cfg, r.claimed, j, now))
      && multiset(r.ready) + multiset(r.processing) == multiset(s.ready) + multiset(s.processing)
  {
    var abandoned := Partition(cfg, s.claimed, s.processing, now, false);
    PartitionKeepsAll(cfg, s.claimed, s.processing, now);
    ReversedKeepsAll(abandoned);
    forall j | j in Recovered(cfg, s, now).processing
      ensures HeldFresh(cfg, s.claimed - Ids(abandoned), j, now)
    {
      PartitionMembers(cfg, s.claimed, s.processing, now, true, j);
      if j.id in Ids(abandoned) {
        var k :| k in abandoned && k.id == j.id;
        PartitionMembers(cfg, s.claimed, s.processing, now, false, k);
      }
    }
  }

  lemma {:induction false} PartitionKeepsAll(cfg: Config, claimed: map<string, int>, jobs: seq<Job>, now: int)
    ensures multiset(Partition(cfg, claimed, jobs, now, true)) + multiset(Partition(cfg, claimed, jobs, now, false)) == multiset(jobs)
  {
    if jobs != [] {
      assert jobs == jobs[..|jobs| - 1] + [jobs[|jobs| - 1]];
      PartitionKeepsAll(cfg, claimed, jobs[..|jobs| - 1], now);
    }
  }

  lemma {:induction false} ReversedKeepsAll(jobs: seq<Job>)
    ensures multiset(Reversed(jobs)) == multiset(jobs)
  {
    if jobs != [] {
      assert jobs == jobs[..|jobs| - 1] + [jobs[|jobs| - 1]];
      ReversedKeepsAll(jobs[..|jobs| - 1]);
    }
  }

  // ----- The object -----

  class RedisQueue {
    const cfg: Config
    var ready: seq<Job>
    var delayed: set<Job>
    var processing: seq<Job>
    var dead: seq<DeadJob>
    var claimed: map<string, int>

    ghost function Model(): Store
      reads this
    {
      Store(ready, delayed, processing, dead, claimed)
    }

    constructor (cfg: Config)
      ensures this.cfg == cfg && Model() == EMPTY
    {
      this.cfg := cfg;
      ready, delayed, processing, dead, claimed := [], {}, [], [], map[];
    }

    method Enqueue(payload: string, id: string, delayMs: int, now: int) returns (job: Job)
      modifies this
      ensures job == Job(id, payload, 0, now, now + delayMs)
      ensures Model() == Enqueued(old(Model()), job, delayMs)
    {
      job := Job(id, payload, 0, now, now + delayMs);
      if delayMs > 0 {
        delayed := delayed + {job};
      } else {
        ready := [job] + ready;
      }
    }

    /** The transaction that follows a listing of the due jobs. */
    method MoveDue(due: seq<Job>) returns (moved: nat)
      modifies this`ready, this`delayed
      ensures Model() == Promoted(old(Model()), due) && moved == |due|
    {
      for i := 0 to |due|
        invariant ready == Reversed(due[..i]) + old(ready)
        invariant delayed == old(delayed) - (set j | j in due[..i])
      {
        assert due[..i + 1][..i] == due[..i];
        assert forall j :: j in due[..i + 1] <==> j in due[..i] || j == due[i];
        ready := [due[i]] + ready;
        delayed := delayed - {due[i]};
      }
      assert due[..|due|] == due;
      return |due|;
    }

    method Pop() returns (job: Option<Job>)
      modifies this`ready, this`processing
      ensures (Model(), job) == Popped(old(Model()))
    {
      if ready == [] {
        return None;
      }
      var last := ready[|ready| - 1];
      ready, processing := ready[..|ready| - 1], [last] + processing;
      return Some(last);
    }

    /** A claim no other worker interrupts: promote what `due` lists, pop, stamp. */
    method Claim(due: seq<Job>, now: int) returns (job: Option<Job>)
      requires ListsDue(due, delayed, now)
      modifies this
      ensures var (s, j) := Popped(Promoted(old(Model()), due));
        job == j && Model() == if j.Some? then Stamped(s, j.value, now) else s
    {
      hide Promoted;
      var _ := MoveDue(due);
      job := Pop();
      if job.None? {
        return;
      }
      claimed := claimed[job.value.id := now];
    }

    method Complete(job: Job)
      modifies this`processing, this`claimed
      ensures Model() == Dropped(old(Model()), job)
    {
      processing := RemoveFirst(processing, job);
      claimed := claimed - {job.id};
    }

    method Fail(job: Job, reason: string, now: int) returns (isDead: bool)
      modifies this
      ensures Model() == Failed(cfg, old(Model()), job, reason, now)
      ensures isDead <==> job.attempts + 1 >= cfg.maxAttempts
    {
      hide Backoff;
      Complete(job);
      var attempts := job.attempts + 1;
      if attempts >= cfg.maxAttempts {
        dead := [DeadJob(job.(attempts := attempts), now, reason)] + dead;
        return true;
      }
      var retry := job.(attempts := attempts, runAt := now + Backoff(cfg, attempts));
      delayed := delayed + {retry};
      return false;
    }

    method RecoverAbandoned(now: int) returns (recovered: nat)
      modifies this`ready, this`processing, this`claimed
      ensures Model() == Recovered(cfg, old(Model()), now)
      ensures recovered == |Partition(cfg, old(claimed), old(processing), now, false)|
    {
      hide Partly, HeldFresh, Recovered;
      var claims, snapshot := claimed, processing;
      recovered := 0;
      ghost var start := Model();
      PartlyEnds(cfg, start, now);
      for i := 0 to |snapshot|
        invariant Model() == Partly(cfg, start, i, now)
        invariant recovered == |Partition(cfg, claims, snapshot[..i], now, false)|
      {
        PartlyNext(cfg, start, i, now);
        var job := snapshot[i];
        if !HeldFresh(cfg, claims, job, now) {
          TakeBack(job, Partition(cfg, claims, snapshot[..i], now, true), snapshot[i..]);
          recovered := recovered + 1;
        }
      }
      assert snapshot[..|snapshot|] == snapshot;
    }

    /** Moves one abandoned job from the processing list to the head of the ready list. */
    method TakeBack(job: Job, ghost before: seq<Job>, ghost rest: seq<Job>)
      requires processing == before + rest && rest != [] && rest[0] == job && job !in before
      modifies this`ready, this`processing, this`claimed
      ensures processing == before + rest[1..]
      ensures ready == [job] + old(ready) && claimed == old(claimed) - {job.id}
    {
      RemovesAfter(before, rest, job);
      processing := RemoveFirst(processing, job);
      claimed := claimed - {job.id};
      ready := [job] + ready;
    }
  }

  /** The store when recovery has looked at the first `i` jobs of the processing list. */
  function Partly(cfg: Config, s: Store, i: nat, now: int): Store
    requires i <= |s.processing|
  {
    var abandoned := Partition(cfg, s.claimed, s.processing[..i], now, false);
    s.(ready := Reversed(abandoned) + s.ready,
       processing := Partition(cfg, s.claimed, s.processing[..i], now, true) + s.processing[i..],
       claimed := s.claimed - Ids(abandoned))
  }

  lemma PartlyEnds(cfg: Config, s: Store, now: int)
    ensures Partly(cfg, s, 0, now) == s && Partition(cfg, s.claimed, s.processing[..0], now, false) == []
    ensures Partly(cfg, s, |s.processing|, now) == Recovered(cfg, s, now)
  {
    var n := |s.processing|;
    assert s.processing[..n] == s.processing;
    assert s.claimed - Ids([]) == s.claimed;
    var kept := Partition(cfg, s.claimed, s.processing, now, true);
    assert kept + s.processing[n..] == kept;
  }

  lemma PartlyNext(cfg: Config, s: Store, i: nat, now: int)
    requires i < |s.processing|
    ensures var p, q, job := Partly(cfg, s, i, now), Partly(cfg, s, i + 1, now), s.processing[i];
      var kept := Partition(cfg, s.claimed, s.processing[..i], now, true);
      && p.processing == kept + s.processing[i..] && (HeldFresh(cfg, s.claimed, job, now) || job !in kept)
      && |Partition(cfg, s.claimed, s.processing[..i + 1], now, false)|
         == |Partition(cfg, s.claimed, s.processing[..i], now, false)| + (if HeldFresh(cfg, s.claimed, job, now) then 0 else 1)
      && (if HeldFresh(cfg, s.claimed, job, now) then q == p
          else q == p.(ready := [job] + p.ready, processing := kept + s.processing[i + 1..], claimed := p.claimed - {job.id}))
  {
    hide HeldFresh, Reversed, Ids;
    var before, job := s.processing[..i], s.processing[i];
    assert s.processing[..i + 1] == before + [job];
    PartitionSnoc(cfg, s.claimed, before, job, now);
    var kept, abandoned := Partition(cfg, s.claimed, before, now, true), Partition(cfg, s.claimed, before, now, false);
    PartitionMembers(cfg, s.claimed, before, now, true, job);
    if HeldFresh(cfg, s.claimed, job, now) {
      assert kept + [job] + s.processing[i + 1..] == kept + s.processing[i..];
      assert abandoned + [] == abandoned;
    } else {
      OneMore(abandoned, job, s.claimed);
      assert [job] + Reversed(abandoned) + s.ready == [job] + (Reversed(abandoned) + s.ready);
    }
  }

  lemma PartitionSnoc(cfg: Config, claimed: map<string, int>, before: seq<Job>, job: Job, now: int)
    ensures Partition(cfg, claimed, before + [job], now, true) ==
            Partition(cfg, claimed, before, now, true) + if HeldFresh(cfg, claimed, job, now) then [job] else []
    ensures Partition(cfg, claimed, before + [job], now, false) ==
            Partition(cfg, claimed, before, now, false) + if HeldFresh(cfg, claimed, job, now) then [] else [job]
  {
    hide HeldFresh;
    assert (before + [job])[..|before|] == before;
  }

  /** Removing a job that only occurs from a position on removes it there. */
  lemma {:induction false} RemovesAfter(kept: seq<Job>, rest: seq<Job>, job: Job)
    requires job !in kept && rest != [] && rest[0] == job
    ensures RemoveFirst(kept + rest, job) == kept + rest[1..]
  {
    if kept == [] {
      assert kept + rest == rest;
    } else {
      assert (kept + rest)[1..] == kept[1..] + rest;
      RemovesAfter(kept[1..], rest, job);
    }
  }

  lemma OneMore(abandoned: seq<Job>, job: Job, claims: map<string, int>)
    ensures Reversed(abandoned + [job]) == [job] + Reversed(abandoned)
    ensures claims - Ids(abandoned + [job]) == claims - Ids(abandoned) - {job.id}
  {
    assert (abandoned + [job])[..|abandoned|] == abandoned;
    assert Ids(abandoned + [job]) == Ids(abandoned) + {job.id};
  }
}
