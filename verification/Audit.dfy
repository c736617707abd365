// The append-only log: every record carries the hash of its predecessor.
module Audit {
  import opened Domain

  type Digest = string

  /** What a record's hash covers, in canonical form. */
  datatype Content = Content(
    sequence: int,
    timestamp: Timestamp,
    kind: string,
    correlationId: string,
    payload: map<string, string>,
    previousHash: Digest)

  datatype Record = Record(content: Content, hash: Digest)

  /** The hash is left open: results say "or two contents collide" instead of assuming they cannot. */
  type Hash = Content -> Digest

  ghost predicate Collides(hash: Hash) {
    exists x, y :: x != y && hash(x) == hash(y)
  }

  datatype Entry = Entry(kind: string, correlationId: string, payload: map<string, string>, timestamp: Timestamp)

  datatype Log = Log(records: seq<Record>, resumeSequence: int, resumeHash: Digest)

  const GENESIS_HASH: Digest := "0000000000000000000000000000000000000000000000000000000000000000"

  const FRESH := Log([], 0, GENESIS_HASH)

  /** The hash the next record must point at. */
  function Head(start: Digest, records: seq<Record>): Digest {
    if records == [] then start else records[|records| - 1].hash
  }

  function NextRecord(hash: Hash, log: Log, e: Entry): Record {
    var content := Content(log.resumeSequence + |log.records| + 1, e.timestamp, e.kind, e.correlationId,
                           e.payload, Head(log.resumeHash, log.records));
    Record(content, hash(content))
  }

  function Append(hash: Hash, log: Log, e: Entry): Log {
    log.(records := log.records + [NextRecord(hash, log, e)])
  }

  function AppendAll(hash: Hash, log: Log, entries: seq<Entry>): Log {
    if entries == [] then log
    else Append(hash, AppendAll(hash, log, entries[..|entries| - 1]), entries[|entries| - 1])
  }

  // ----- Verification -----

  /** A record that points at its predecessor and whose hash is its own. */
  predicate Linked(hash: Hash, previous: Digest, r: Record) {
    r.content.previousHash == previous && hash(r.content) == r.hash
  }

  predicate Intact(hash: Hash, start: Digest, records: seq<Record>) {
    forall i :: 0 <= i < |records| ==> Linked(hash, Head(start, records[..i]), records[i])
  }

  /** The sequence of the first record that fails, or nothing. */
  function VerifyChain(hash: Hash, start: Digest, records: seq<Record>): Option<int>
    decreases |records|
  {
    if records == [] then None
    else if !Linked(hash, start, records[0]) then Some(records[0].content.sequence)
    else VerifyChain(hash, records[0].hash, records[1..])
  }

  lemma {:induction false} VerifyAppend(hash: Hash, start: Digest, a: seq<Record>, b: seq<Record>)
    ensures VerifyChain(hash, start, a + b) ==
            if VerifyChain(hash, start, a).Some? then VerifyChain(hash, start, a)
            else VerifyChain(hash, Head(start, a), b)
    decreases |a|
  {
    if a == [] {
      assert a + b == b;
    } else {
      assert (a + b)[1..] == a[1..] + b;
      VerifyAppend(hash, a[0].hash, a[1..], b);
    }
  }

  lemma VerifySnoc(hash: Hash, start: Digest, before: seq<Record>, last: Record)
    ensures VerifyChain(hash, start, before + [last]) ==
            if VerifyChain(hash, start, before).Some? then VerifyChain(hash, start, before)
            else if Linked(hash, Head(start, before), last) then None
            else Some(last.content.sequence)
  {
    VerifyAppend(hash, start, before, [last]);
  }

  lemma {:induction false} VerifiesExactlyIntact(hash: Hash, start: Digest, records: seq<Record>)
    ensures VerifyChain(hash, start, records).None? <==> Intact(hash, start, records)
  {
    if records != [] {
      var before, last := records[..|records| - 1], records[|records| - 1];
      assert records == before + [last];
      VerifiesExactlyIntact(hash, start, before);
      VerifySnoc(hash, start, before, last);
      assert forall i :: 0 <= i < |before| ==> records[i] == before[i] && records[..i] == before[..i];
      if Intact(hash, start, records) {
        forall i | 0 <= i < |before|
          ensures Linked(hash, Head(start, before[..i]), before[i])
        {
          assert Linked(hash, Head(start, records[..i]), records[i]);
        }
      }
    }
  }

  // ----- Tampering -----

  lemma SameHashSameRecord(hash: Hash, p: Digest, q: Digest, r: Record, t: Record)
    requires Linked(hash, p, r) && Linked(hash, q, t) && r.hash == t.hash
    ensures r == t || Collides(hash)
  {
    if r.content != t.content {
      assert hash(r.content) == hash(t.content);
    }
  }

  /**
   * Two logs of one length that verify from one start and share a head are the same log, or the
   * hash has a collision: nobody can rewrite history under a published head.
   */
  lemma {:induction false} TamperEvident(hash: Hash, start: Digest, a: seq<Record>, b: seq<Record>)
    requires |a| == |b| && Head(start, a) == Head(start, b)
    requires VerifyChain(hash, start, a).None? && VerifyChain(hash, start, b).None?
    ensures a == b || Collides(hash)
  {
    if a != [] {
      var n := |a| - 1;
      assert a == a[..n] + [a[n]] && b == b[..n] + [b[n]];
      VerifySnoc(hash, start, a[..n], a[n]);
      VerifySnoc(hash, start, b[..n], b[n]);
      SameHashSameRecord(hash, Head(start, a[..n]), Head(start, b[..n]), a[n], b[n]);
      if a[n] == b[n] {
        TamperEvident(hash, start, a[..n], b[..n]);
      }
    }
  }

  /** Without equal lengths one more escape remains: some record hashes to the start itself. */
  lemma {:induction false} TamperEvidentAnyLength(hash: Hash, start: Digest, a: seq<Record>, b: seq<Record>)
    requires Head(start, a) == Head(start, b)
    requires VerifyChain(hash, start, a).None? && VerifyChain(hash, start, b).None?
    ensures a == b || Collides(hash) || exists c :: hash(c) == start
  {
    if a != [] && b != [] {
      var n, m := |a| - 1, |b| - 1;
      assert a == a[..n] + [a[n]] && b == b[..m] + [b[m]];
      VerifySnoc(hash, start, a[..n], a[n]);
      VerifySnoc(hash, start, b[..m], b[m]);
      SameHashSameRecord(hash, Head(start, a[..n]), Head(start, b[..m]), a[n], b[m]);
      if a[n] == b[m] {
        TamperEvidentAnyLength(hash, start, a[..n], b[..m]);
      }
    } else if a != [] {
      LastIsLinked(hash, start, a);
    } else if b != [] {
      LastIsLinked(hash, start, b);
    }
  }

  lemma LastIsLinked(hash: Hash, start: Digest, a: seq<Record>)
    requires a != [] && VerifyChain(hash, start, a).None?
    ensures hash(a[|a| - 1].content) == a[|a| - 1].hash
  {
    assert a == a[..|a| - 1] + [a[|a| - 1]];
    VerifySnoc(hash, start, a[..|a| - 1], a[|a| - 1]);
  }

  /**
   * Deleting a record that is not the last is reported at its successor, except exactly when the
   * deleted record and its predecessor carry the same hash.
   */
  lemma DeletionIsReported(hash: Hash, start: Digest, records: seq<Record>, i: nat)
    requires i + 1 < |records| && VerifyChain(hash, start, records).None?
    ensures VerifyChain(hash, start, records[..i] + records[i + 1..]) ==
            if records[i].hash == Head(start, records[..i]) then None else Some(records[i + 1].content.sequence)
  {
    var before, after := records[..i], records[i + 1..];
    assert records == before + ([records[i]] + after);
    assert ([records[i]] + after)[1..] == after;
    VerifyAppend(hash, start, before, [records[i]] + after);
    VerifyAppend(hash, start, before, after);
  }

  /** The exception needs a collision, or a record hashing to the start, when sequences count up. */
  lemma DeletionEscapesOnlyByCollision(hash: Hash, start: Digest, records: seq<Record>, i: nat)
    requires i + 1 < |records| && VerifyChain(hash, start, records).None?
    requires forall k :: 0 <= k < |records| - 1 ==> records[k + 1].content.sequence == records[k].content.sequence + 1
    requires records[i].hash == Head(start, records[..i])
    ensures Collides(hash) || (i == 0 && exists c :: hash(c) == start)
  {
    VerifiesExactlyIntact(hash, start, records);
    assert Linked(hash, Head(start, records[..i]), records[i]);
    if i > 0 {
      assert Linked(hash, Head(start, records[..i - 1]), records[i - 1]);
      assert records[i].content.sequence != records[i - 1].content.sequence;
      SameHashSameRecord(hash, Head(start, records[..i - 1]), Head(start, records[..i]), records[i - 1], records[i]);
    } else {
      assert hash(records[0].content) == start;
    }
  }

  /** Rewriting any record but the last, however its hash is redone, is detected or a collision. */
  lemma EditIsDetected(hash: Hash, start: Digest, records: seq<Record>, i: nat, r: Record)
    requires i + 1 < |records| && VerifyChain(hash, start, records).None? && r != records[i]
    ensures VerifyChain(hash, start, records[i := r]).Some? || Collides(hash)
  {
    if VerifyChain(hash, start, records[i := r]).None? {
      TamperEvident(hash, start, records, records[i := r]);
    }
  }

  // ----- Appending and resuming -----

  /** Consecutive numbers from just after the resumed one. */
  predicate Contiguous(log: Log) {
    forall i :: 0 <= i < |log.records| ==> log.records[i].content.sequence == log.resumeSequence + i + 1
  }

  lemma {:induction false} AppendedLogsVerify(hash: Hash, log: Log, entries: seq<Entry>)
    requires Contiguous(log) && VerifyChain(hash, log.resumeHash, log.records).None?
    ensures var l := AppendAll(hash, log, entries);
      && Contiguous(l) && VerifyChain(hash, l.resumeHash, l.records).None?
      && l.resumeHash == log.resumeHash && l.resumeSequence == log.resumeSequence
      && |l.records| == |log.records| + |entries|
  {
    if entries != [] {
      var before := entries[..|entries| - 1];
      AppendedLogsVerify(hash, log, before);
      var l := AppendAll(hash, log, before);
      VerifySnoc(hash, l.resumeHash, l.records, NextRecord(hash, l, entries[|entries| - 1]));
    }
  }

  /** The log a new process starts with when it is told the stored head. */
  function Resumed(log: Log): Log {
    Log([], log.resumeSequence + |log.records|, Head(log.resumeHash, log.records))
  }

  /** Stopping and resuming changes nothing: both processes' records form the log of one process. */
  lemma {:induction false} ResumingIsSeamless(hash: Hash, log: Log, entries: seq<Entry>)
    ensures var more := AppendAll(hash, Resumed(log), entries);
      && log.records + more.records == AppendAll(hash, log, entries).records
      && more.resumeSequence == log.resumeSequence + |log.records|
      && more.resumeHash == Head(log.resumeHash, log.records)
  {
    if entries == [] {
      assert log.records + [] == log.records;
    } else {
      var before := entries[..|entries| - 1];
      ResumingIsSeamless(hash, log, before);
      var more, whole := AppendAll(hash, Resumed(log), before), AppendAll(hash, log, before);
      HeadOfConcatenation(log.resumeHash, log.records, more.records);
      AppendKeepsStart(hash, log, before);
      assert NextRecord(hash, more, entries[|entries| - 1]) == NextRecord(hash, whole, entries[|entries| - 1]);
    }
  }

  lemma HeadOfConcatenation(start: Digest, a: seq<Record>, b: seq<Record>)
    ensures Head(start, a + b) == Head(Head(start, a), b)
  {
  }

  lemma {:induction false} AppendKeepsStart(hash: Hash, log: Log, entries: seq<Entry>)
    ensures AppendAll(hash, log, entries).resumeSequence == log.resumeSequence
    ensures AppendAll(hash, log, entries).resumeHash == log.resumeHash
  {
    if entries != [] {
      AppendKeepsStart(hash, log, entries[..|entries| - 1]);
    }
  }

  /** Across any number of restarts, the concatenated log verifies and counts without a gap. */
  lemma {:induction false} RestartsFormOneChain(hash: Hash, sessions: seq<seq<Entry>>)
    ensures var whole := Stored(hash, sessions);
      Contiguous(whole) && VerifyChain(hash, GENESIS_HASH, whole.records).None? && whole.resumeHash == GENESIS_HASH
  {
    if sessions != [] {
      var before, last := sessions[..|sessions| - 1], sessions[|sessions| - 1];
      RestartsFormOneChain(hash, before);
      ResumingIsSeamless(hash, Stored(hash, before), last);
      AppendedLogsVerify(hash, Stored(hash, before), last);
    }
  }

  /** The durable log when each session resumes from the stored head and stores what it appends. */
  function Stored(hash: Hash, sessions: seq<seq<Entry>>): Log {
    if sessions == [] then FRESH
    else
      var before := Stored(hash, sessions[..|sessions| - 1]);
      before.(records := before.records + AppendAll(hash, Resumed(before), sessions[|sessions| - 1]).records)
  }

  // ----- The object -----

  class InMemoryAuditLog {
    const hashRecord: Hash
    var records: seq<Record>
    var resumeSequence: int
    var resumeHash: Digest

    function Model(): Log
      reads this
    {
      Log(records, resumeSequence, resumeHash)
    }

    constructor (hashRecord: Hash)
      ensures this.hashRecord == hashRecord && Model() == FRESH
    {
      this.hashRecord := hashRecord;
      records, resumeSequence, resumeHash := [], 0, GENESIS_HASH;
    }

    /** Continues a stored chain; refused once anything was appended. */
    method ResumeFrom(sequence: int, hash: Digest) returns (ok: bool)
      modifies this
      ensures ok <==> old(records) == []
      ensures Model() == if ok then Log([], sequence, hash) else old(Model())
    {
      if |records| > 0 {
        return false;
      }
      resumeSequence, resumeHash := sequence, hash;
      return true;
    }

    method AppendEntry(e: Entry) returns (record: Record)
      modifies this`records
      ensures Model() == Append(hashRecord, old(Model()), e)
      ensures record == NextRecord(hashRecord, old(Model()), e)
    {
      var previousHash := if |records| > 0 then records[|records| - 1].hash else resumeHash;
      var content := Content(resumeSequence + |records| + 1, e.timestamp, e.kind, e.correlationId, e.payload, previousHash);
      record := Record(content, hashRecord(content));
      records := records + [record];
    }

    method FirstBroken() returns (sequence: Option<int>)
      ensures sequence == VerifyChain(hashRecord, resumeHash, records)
    {
      var previousHash := resumeHash;
      for i := 0 to |records|
        invariant VerifyChain(hashRecord, resumeHash, records) == VerifyChain(hashRecord, previousHash, records[i..])
      {
        var record := records[i];
        if record.content.previousHash != previousHash {
          return Some(record.content.sequence);
        }
        if hashRecord(record.content) != record.hash {
          return Some(record.content.sequence);
        }
        assert records[i..][1..] == records[i + 1..];
        previousHash := record.hash;
      }
      return None;
    }
  }
}
