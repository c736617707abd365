// A lease in one table row: taken, extended and released by statements that compare clock readings.
module Leases {
  import opened Domain

  type Owner = string

  datatype Row = Row(owner: Owner, expiresAt: Timestamp)

  // ----- The three statements, each given the clock reading made before it was sent -----

  /** Takes the row when nobody has it or its expiry is not after the reading. */
  function Acquired(row: Option<Row>, owner: Owner, now: Timestamp, ttl: int): (r: (Option<Row>, bool))
    ensures r.1 <==> row.None? || row.value.expiresAt <= now
  {
    if row.None? || row.value.expiresAt <= now then (Some(Row(owner, now + ttl)), true) else (row, false)
  }

  function Renewed(row: Option<Row>, owner: Owner, now: Timestamp, ttl: int): (Option<Row>, bool) {
    if row.Some? && row.value.owner == owner && row.value.expiresAt > now
    then (Some(Row(owner, now + ttl)), true) else (row, false)
  }

  function Released(row: Option<Row>, owner: Owner, now: Timestamp): Option<Row> {
    if row.Some? && row.value.owner == owner then Some(Row(owner, now)) else row
  }

  /** Giving a lease back frees it at once for everybody; only its owner can, and anybody else's attempt changes nothing. */
  lemma ReleaseFreesTheLease(row: Option<Row>, owner: Owner, now: Timestamp, rival: Owner, later: Timestamp, ttl: int)
    requires now <= later
    ensures row.Some? && row.value.owner == owner ==>
              Acquired(Released(row, owner, now), rival, later, ttl) == (Some(Row(rival, later + ttl)), true)
    ensures !(row.Some? && row.value.owner == owner) ==> Released(row, owner, now) == row
  {
  }

  class TickLease {
    const ttlMs: int
    var row: Option<Row>

    constructor (ttlMs: int)
      ensures this.ttlMs == ttlMs && row == None
    {
      this.ttlMs := ttlMs;
      row := None;
    }

    /** One atomic statement: insert, or update where the stored lease has expired. */
    method Acquire(owner: Owner, now: Timestamp) returns (expiresAt: Option<Timestamp>)
      modifies this`row
      ensures var (r, ok) := Acquired(old(row), owner, now, ttlMs);
        row == r && expiresAt == if ok then Some(now + ttlMs) else None
    {
      if row.None? {
        row := Some(Row(owner, now + ttlMs));
      } else if row.value.expiresAt <= now {
        row := Some(Row(owner, now + ttlMs));
      } else {
        return None;
      }
      return Some(now + ttlMs);
    }

    method Renew(owner: Owner, now: Timestamp) returns (ok: bool)
      modifies this`row
      ensures (row, ok) == Renewed(old(row), owner, now, ttlMs)
    {
      if row.Some? && row.value.owner == owner && row.value.expiresAt > now {
        row := Some(row.value.(expiresAt := now + ttlMs));
        return true;
      }
      return false;
    }

    method Release(owner: Owner, now: Timestamp)
      modifies this`row
      ensures row == Released(old(row), owner, now)
    {
      if row.Some? && row.value.owner == owner {
        row := Some(row.value.(expiresAt := now));
      }
    }
  }

  // ----- Many invocations over one row and one clock -----

  /**
   * Where one invocation is. Each owner is used by one invocation, which reads the clock before
   * every statement; any amount of time may pass before the statement runs.
   */
  datatype Phase =
    | Acquiring(readAt: Timestamp)
    | Holding(expiresAt: Timestamp)
    | Renewing(expiresAt: Timestamp, readAt: Timestamp)
    | Releasing(readAt: Timestamp)
    | Gone

  datatype World = World(clock: Timestamp, row: Option<Row>, phases: map<Owner, Phase>)

  datatype Event =
    | Passes(to: Timestamp)
    | BeginAcquire(owner: Owner)
    | RunAcquire(owner: Owner)
    | BeginRenew(owner: Owner)
    | RunRenew(owner: Owner)
    | BeginRelease(owner: Owner)
    | RunRelease(owner: Owner)
    | Dies(owner: Owner)

  function PhaseOf(w: World, owner: Owner): Phase {
    if owner in w.phases then w.phases[owner] else Gone
  }

  function Become(w: World, owner: Owner, phase: Phase): World {
    w.(phases := w.phases[owner := phase])
  }

  /** An event that does not fit the owner's phase changes nothing. */
  function Step(ttl: int, w: World, e: Event): World {
    match e
    case Passes(to) => if to >= w.clock then w.(clock := to) else w
    case BeginAcquire(o) => if o in w.phases then w else Become(w, o, Acquiring(w.clock))
    case RunAcquire(o) =>
      if !PhaseOf(w, o).Acquiring? then w
      else
        var readAt := PhaseOf(w, o).readAt;
        var (row, ok) := Acquired(w.row, o, readAt, ttl);
        Become(w.(row := row), o, if ok then Holding(readAt + ttl) else Gone)
    case BeginRenew(o) =>
      if !PhaseOf(w, o).Holding? then w else Become(w, o, Renewing(PhaseOf(w, o).expiresAt, w.clock))
    case RunRenew(o) =>
      if !PhaseOf(w, o).Renewing? then w
      else
        var readAt := PhaseOf(w, o).readAt;
        var (row, ok) := Renewed(w.row, o, readAt, ttl);
        Become(w.(row := row), o, if ok then Holding(readAt + ttl) else Gone)
    case BeginRelease(o) => if !PhaseOf(w, o).Holding? then w else Become(w, o, Releasing(w.clock))
    case RunRelease(o) =>
      if !PhaseOf(w, o).Releasing? then w
      else Become(w.(row := Released(w.row, o, PhaseOf(w, o).readAt)), o, Gone)
    case Dies(o) => if o in w.phases then Become(w, o, Gone) else w
  }

  function Run(ttl: int, start: Timestamp, events: seq<Event>): World {
    if events == [] then World(start, None, map[])
    else Step(ttl, Run(ttl, start, events[..|events| - 1]), events[|events| - 1])
  }

  /** A handle that has neither been given back nor run out. */
  predicate Live(w: World, owner: Owner) {
    var phase := PhaseOf(w, owner);
    (phase.Holding? || phase.Renewing?) && phase.expiresAt > w.clock
  }

  /** Readings are never in the future, and the row covers every live handle. */
  ghost predicate Covered(w: World) {
    && (forall o :: PhaseOf(w, o).Acquiring? || PhaseOf(w, o).Renewing? || PhaseOf(w, o).Releasing? ==>
          PhaseOf(w, o).readAt <= w.clock)
    && (forall o :: Live(w, o) ==> w.row.Some? && w.row.value.owner == o && w.row.value.expiresAt >= PhaseOf(w, o).expiresAt)
  }

  lemma StepKeepsCover(ttl: int, w: World, e: Event)
    requires Covered(w)
    ensures Covered(Step(ttl, w, e))
    ensures Step(ttl, w, e).clock >= w.clock
  {
    var v := Step(ttl, w, e);
    forall o
      ensures PhaseOf(v, o).Acquiring? || PhaseOf(v, o).Renewing? || PhaseOf(v, o).Releasing? ==> PhaseOf(v, o).readAt <= v.clock
      ensures Live(v, o) ==> v.row.Some? && v.row.value.owner == o && v.row.value.expiresAt >= PhaseOf(v, o).expiresAt
    {
      StepCovers(ttl, w, e, o);
    }
  }

  lemma StepCovers(ttl: int, w: World, e: Event, o: Owner)
    requires Covered(w)
    ensures var v := Step(ttl, w, e);
      && (PhaseOf(v, o).Acquiring? || PhaseOf(v, o).Renewing? || PhaseOf(v, o).Releasing? ==> PhaseOf(v, o).readAt <= v.clock)
      && (Live(v, o) ==> v.row.Some? && v.row.value.owner == o && v.row.value.expiresAt >= PhaseOf(v, o).expiresAt)
  {
    if !e.Passes? && e.owner == o {
      assert PhaseOf(w, o) == PhaseOf(w, e.owner);
    } else {
      assert PhaseOf(Step(ttl, w, e), o) == PhaseOf(w, o);
      assert Live(Step(ttl, w, e), o) ==> Live(w, o);
    }
  }

  /**
   * Mutual exclusion: whatever the interleaving and however late statements run, two different
   * owners never both hold a handle that is neither released nor expired.
   */
  lemma {:induction false} LeaseIsExclusive(ttl: int, start: Timestamp, events: seq<Event>)
    ensures Covered(Run(ttl, start, events))
    ensures var w := Run(ttl, start, events); forall a, b :: Live(w, a) && Live(w, b) ==> a == b
  {
    hide Step;
    if events != [] {
      LeaseIsExclusive(ttl, start, events[..|events| - 1]);
      StepKeepsCover(ttl, Run(ttl, start, events[..|events| - 1]), events[|events| - 1]);
    }
  }

  /** A dead invocation blocks nobody past its expiry: the next reading at or after it takes the row. */
  lemma ExpiredIsReclaimed(ttl: int, w: World, owner: Owner)
    requires PhaseOf(w, owner).Acquiring? && owner in w.phases
    requires w.row.Some? ==> w.row.value.expiresAt <= PhaseOf(w, owner).readAt
    ensures PhaseOf(Step(ttl, w, RunAcquire(owner)), owner) == Holding(PhaseOf(w, owner).readAt + ttl)
    ensures Step(ttl, w, RunAcquire(owner)).row == Some(Row(owner, PhaseOf(w, owner).readAt + ttl))
  {
  }

  // ----- Renewals -----

  /** A renewal moves the stored expiry back exactly when it goes through on a reading that old. */
  lemma RenewalShortensExactly(row: Option<Row>, owner: Owner, readAt: Timestamp, ttl: int)
    requires row.Some?
    ensures var (after, ok) := Renewed(row, owner, readAt, ttl);
      && (ok <==> row.value.owner == owner && readAt < row.value.expiresAt)
      && after.Some?
      && (after.value.expiresAt < row.value.expiresAt <==> ok && readAt + ttl < row.value.expiresAt)
  {
  }

  /** What a handle promises is what its row stores, and no more than a lease past a reading of the clock. */
  ghost predicate Promised(ttl: int, w: World, o: Owner) {
    var phase := PhaseOf(w, o);
    && (phase.Holding? ==> phase.expiresAt <= w.clock + ttl)
    && (phase.Renewing? ==> phase.expiresAt <= phase.readAt + ttl)
    && (phase.Acquiring? || phase.Renewing? ==> phase.readAt <= w.clock)
    && ((phase.Holding? || phase.Renewing?) && w.row.Some? && w.row.value.owner == o ==> w.row.value.expiresAt == phase.expiresAt)
  }

  lemma StepKeepsPromises(ttl: int, w: World, e: Event, o: Owner)
    requires Promised(ttl, w, o)
    ensures Promised(ttl, Step(ttl, w, e), o)
  {
    if !e.Passes? && e.owner == o {
      assert PhaseOf(w, o) == PhaseOf(w, e.owner);
    } else {
      assert PhaseOf(Step(ttl, w, e), o) == PhaseOf(w, o);
    }
  }

  lemma {:induction false} PromisesHold(ttl: int, start: Timestamp, events: seq<Event>, o: Owner)
    ensures Promised(ttl, Run(ttl, start, events), o)
  {
    hide Step, Promised;
    if events == [] {
      NothingPromised(ttl, start, o);
    } else {
      PromisesHold(ttl, start, events[..|events| - 1], o);
      StepKeepsPromises(ttl, Run(ttl, start, events[..|events| - 1]), events[|events| - 1], o);
    }
  }

  lemma NothingPromised(ttl: int, start: Timestamp, o: Owner)
    ensures Promised(ttl, World(start, None, map[]), o)
  {
  }

  /** One renewal at a time, however late, never moves the stored expiry back. */
  lemma RenewalsOneAtATimeNeverShorten(ttl: int, start: Timestamp, events: seq<Event>, owner: Owner)
    ensures var w := Run(ttl, start, events);
      var after := Step(ttl, w, RunRenew(owner)).row;
      w.row.Some? ==> after.Some? && w.row.value.expiresAt <= after.value.expiresAt
  {
    hide Run;
    PromisesHold(ttl, start, events, owner);
  }

  /**
   * Two renewals of one owner in flight together: whichever reading runs last is the one stored, so
   * the lease ends up shorter exactly when the older reading runs last.
   */
  lemma OverlappingRenewalsShortenTheLease(row: Option<Row>, owner: Owner, ttl: int, first: Timestamp, last: Timestamp)
    requires row.Some? && row.value.owner == owner && first < row.value.expiresAt && last < first + ttl
    ensures var (once, _) := Renewed(row, owner, first, ttl);
      var (twice, ok) := Renewed(once, owner, last, ttl);
      && ok && once.value.expiresAt == first + ttl
      && (twice.value.expiresAt < once.value.expiresAt <==> last < first)
  {
    RenewalShortensExactly(Renewed(row, owner, first, ttl).0, owner, last, ttl);
  }

  /** Then a rival can take the lease while the newer promise still runs. */
  lemma ShortenedLeaseIsTakenEarly(owner: Owner, rival: Owner, ttl: int, early: Timestamp, late: Timestamp)
    requires ttl > 0 && early < late < early + ttl && owner != rival
    ensures var row := Some(Row(owner, early + ttl));
      var (first, _) := Renewed(row, owner, late, ttl);
      var (second, _) := Renewed(first, owner, early, ttl);
      first.value.expiresAt == late + ttl && Acquired(second, rival, early + ttl, ttl).1 && early + ttl < late + ttl
  {
    OverlappingRenewalsShortenTheLease(Some(Row(owner, early + ttl)), owner, ttl, late, early);
  }
}
