/** What is queued in ring memory, the producer that queues it, and why decoding gives it back. */
module RingProducer {
  import opened Bytes
  import opened RingMemory

  // ----- the queue as it lies in memory -------------------------------------------------------------

  ghost predicate Counters(m: RingMeta, data: seq<Byte>, head: nat, tail: nat)
    requires Sized(m) && CountersInside(m, |data|)
  {
    Get(data, m.head, 4) == head && Get(data, m.tail, 4) == tail && Get(data, m.mask, 4) == m.entries - 1
  }

  /** Array slot `slot` names entry `entry`, which holds `q`. */
  ghost predicate Stored(m: Meta, x: Image, slot: nat, entry: nat, q: Sqe)
    requires Layout(m, x)
  {
    && slot < m.sq.entries && entry < m.sq.entries && SqeFits(q)
    && Get(x.sq, m.sq.base + slot * 4, 4) == entry
    && x.sqes[entry * SQE_SIZE..entry * SQE_SIZE + SQE_SIZE] == EncodeSqe(q)
  }

  ghost predicate StoredSomewhere(m: Meta, x: Image, slot: nat, q: Sqe)
    requires Layout(m, x)
  {
    exists entry: nat :: Stored(m, x, slot, entry, q)
  }

  /** The submissions `pending`, oldest first, are queued behind a head counter of `head`. */
  ghost predicate Queued(m: Meta, x: Image, head: nat, pending: seq<Sqe>) {
    && Layout(m, x) && m.sq.entries >= 1 && PowerOfTwo(m.sq.entries)
    && head < TWO32 && |pending| < TWO32 && |pending| <= m.sq.entries
    && Counters(m.sq, x.sq, head, (head + |pending|) % TWO32)
    && forall i :: 0 <= i < |pending| ==> StoredSomewhere(m, x, (head + i) % m.sq.entries, pending[i])
  }

  ghost predicate Answered(m: Meta, x: Image, slot: nat, c: Cqe)
    requires Layout(m, x)
  {
    slot < m.cq.entries && CqeFits(c)
      && x.cq[m.cq.base + slot * CQE_SIZE..m.cq.base + slot * CQE_SIZE + CQE_SIZE] == EncodeCqe(c)
  }

  ghost predicate Reaped(m: Meta, x: Image, head: nat, done: seq<Cqe>) {
    && Layout(m, x) && m.cq.entries >= 1 && PowerOfTwo(m.cq.entries)
    && head < TWO32 && |done| < TWO32 && |done| <= m.cq.entries
    && Counters(m.cq, x.cq, head, (head + |done|) % TWO32)
    && forall i :: 0 <= i < |done| ==> Answered(m, x, (head + i) % m.cq.entries, done[i])
  }

  lemma CounterDistance(head: nat, n: nat)
    requires head < TWO32 && n < TWO32
    ensures ((head + n) % TWO32 - head) % TWO32 == n
  {
  }

  lemma CounterSum(head: nat, tail: nat)
    requires head < TWO32 && tail < TWO32
    ensures (head + (tail - head) % TWO32) % TWO32 == tail
  {
  }

  lemma CountersCount(m: RingMeta, data: seq<Byte>, head: nat, n: nat)
    requires Sized(m) && CountersInside(m, |data|) && head < TWO32 && n < TWO32 && n <= m.entries
    requires m.entries >= 1 && PowerOfTwo(m.entries) && Counters(m, data, head, (head + n) % TWO32)
    ensures CountersOk(m, data) && Pending(m, data) == n
  {
    CounterDistance(head, n);
    LowestBitTest(m.entries);
  }

  lemma SqeDecodes(m: Meta, x: Image, head: nat, pending: seq<Sqe>, i: nat)
    requires Queued(m, x, head, pending) && i < |pending| && CountersOk(m.sq, x.sq)
    ensures SqReadable(m, x, i) && ReadSqe(SqBytes(m, x, i)) == Observed(pending[i])
  {
    hide EncodeSqe, ReadSqe, Plain, FromBytes, BitAnd, CountersOk, PowerOfTwo, EntriesInside, Covered, SqeFits,
      Observed, Slot;
    var slot := (head + i) % m.sq.entries;
    assert StoredSomewhere(m, x, slot, pending[i]);
    var entry: nat :| Stored(m, x, slot, entry, pending[i]);
    SlotInside(m.sq, x.sq, i);
    SqeRoundTrip(pending[i]);
  }

  lemma CqeDecodes(m: Meta, x: Image, head: nat, done: seq<Cqe>, i: nat)
    requires Reaped(m, x, head, done) && i < |done| && CountersOk(m.cq, x.cq)
    ensures ReadCqe(CqBytes(m, x, i)) == Completed(done[i])
  {
    hide EncodeCqe, ReadCqe, FromBytes, BitAnd, CountersOk, PowerOfTwo, EntriesInside, Covered, CqeFits,
      Completed, Slot;
    assert Answered(m, x, (head + i) % m.cq.entries, done[i]);
    SlotInside(m.cq, x.cq, i);
    CqeRoundTrip(done[i]);
  }

  lemma QueueCounters(m: Meta, x: Image, head: nat, pending: seq<Sqe>)
    requires Queued(m, x, head, pending)
    ensures Layout(m, x) && CountersOk(m.sq, x.sq) && Pending(m.sq, x.sq) == |pending|
  {
    hide CountersOk, Pending, PowerOfTwo, StoredSomewhere;
    CountersCount(m.sq, x.sq, head, |pending|);
  }

  lemma AnswerCounters(m: Meta, x: Image, head: nat, done: seq<Cqe>)
    requires Reaped(m, x, head, done)
    ensures Layout(m, x) && CountersOk(m.cq, x.cq) && Pending(m.cq, x.cq) == |done|
  {
    hide CountersOk, Pending, PowerOfTwo, Answered;
    CountersCount(m.cq, x.cq, head, |done|);
  }

  function Submissions(pending: seq<Sqe>): (r: seq<Observation>)
    ensures |r| == |pending| && forall i :: 0 <= i < |r| ==> r[i] == Observed(pending[i])
  {
    seq(|pending|, i requires 0 <= i < |pending| => Observed(pending[i]))
  }

  function Completions(done: seq<Cqe>): (r: seq<Observation>)
    ensures |r| == |done| && forall i :: 0 <= i < |r| ==> r[i] == Completed(done[i])
  {
    seq(|done|, i requires 0 <= i < |done| => Completed(done[i]))
  }

  lemma QueueDecodes(m: Meta, x: Image, head: nat, pending: seq<Sqe>)
    requires Queued(m, x, head, pending)
    ensures Layout(m, x) && SqRecords(m, x, Submissions(pending))
  {
    hide Queued, ReadSqe, SqBytes, CountersOk, Layout, Pending, SqReadable, Observed;
    QueueCounters(m, x, head, pending);
    forall i | 0 <= i < |pending| ensures SqReadable(m, x, i) && ReadIs(m, x, i, Observed(pending[i])) {
      SqeDecodes(m, x, head, pending, i);
    }
  }

  ghost predicate ReadIs(m: Meta, x: Image, i: nat, r: Observation) {
    Layout(m, x) && CountersOk(m.sq, x.sq) && SqReadable(m, x, i) && r == ReadSqe(SqBytes(m, x, i))
  }

  lemma AnswersDecode(m: Meta, x: Image, head: nat, done: seq<Cqe>)
    requires Reaped(m, x, head, done)
    ensures Layout(m, x) && CqRecords(m, x, Completions(done))
  {
    hide Reaped, ReadCqe, CqBytes, CountersOk, Layout, Pending, Completed;
    AnswerCounters(m, x, head, done);
    forall i | 0 <= i < |done| ensures ReadCqe(CqBytes(m, x, i)) == Completed(done[i]) {
      CqeDecodes(m, x, head, done, i);
    }
  }

  /** Decoding inverts producing: a snapshot of any queued submissions and completions, with
      free-running counters at any point of their range, reads as exactly those, in order. */
  lemma DecodeInvertsQueueing(m: Meta, x: Image, head: nat, pending: seq<Sqe>, reaped: nat, done: seq<Cqe>)
    requires Queued(m, x, head, pending) && Reaped(m, x, reaped, done)
    ensures Decodes(m, x, Submissions(pending) + Completions(done))
  {
    hide *;
    QueueDecodes(m, x, head, pending);
    AnswersDecode(m, x, reaped, done);
    Together(m, x, Submissions(pending), Completions(done));
  }

  lemma DecodesOnce(m: Meta, x: Image, a: seq<Observation>, b: seq<Observation>)
    requires Decodes(m, x, a) && Decodes(m, x, b)
    ensures a == b && Decodable(m, x)
  {
    hide Layout, CountersOk, Pending, SqReadable, ReadSqe, ReadCqe, SqBytes, CqBytes;
    LayoutParts(m, x);
    var n := Pending(m.sq, x.sq);
    assert a[..n] == b[..n];
    assert a[n..] == b[n..];
    assert a == a[..n] + a[n..] && b == b[..n] + b[n..];
  }

  /** The decoder, run on memory that holds a queue, returns the queue. */
  method DecodeQueue(m: Meta, x: Image, ghost head: nat, ghost pending: seq<Sqe>, ghost reaped: nat,
                     ghost done: seq<Cqe>)
    returns (r: Decoded)
    requires Queued(m, x, head, pending) && Reaped(m, x, reaped, done)
    ensures r == Records(Submissions(pending) + Completions(done))
  {
    hide *;
    DecodeInvertsQueueing(m, x, head, pending, reaped, done);
    DecodesOnce(m, x, Submissions(pending) + Completions(done), Submissions(pending) + Completions(done));
    r := Decode(m, x);
    DecodesOnce(m, x, r.records, Submissions(pending) + Completions(done));
  }

  /** Only queues decode: an accepted snapshot holds some submissions and completions. */
  lemma AcceptedIsQueued(m: Meta, x: Image)
    requires Decodable(m, x)
    ensures exists head, pending, reaped, done :: Queued(m, x, head, pending) && Reaped(m, x, reaped, done)
  {
    hide Queued, Reaped, Decodable;
    var head, pending := SubmissionsOf(m, x);
    var reaped, done := CompletionsOf(m, x);
    assert Queued(m, x, head, pending) && Reaped(m, x, reaped, done);
  }

  lemma CountersOf(m: RingMeta, data: seq<Byte>) returns (head: nat)
    requires Sized(m) && CountersInside(m, |data|) && CountersOk(m, data)
    ensures 1 <= m.entries && PowerOfTwo(m.entries) && head < TWO32 && head == Get(data, m.head, 4)
    ensures Pending(m, data) < TWO32 && Pending(m, data) <= m.entries
    ensures Counters(m, data, head, (head + Pending(m, data)) % TWO32)
  {
    hide FromBytes, ToBytes, BitAnd, Pow, PowerOfTwo;
    head := Get(data, m.head, 4);
    var tail := Get(data, m.tail, 4);
    LowestBitTest(m.entries);
    Widths();
    ToFrom(data[m.head..m.head + 4]);
    ToFrom(data[m.tail..m.tail + 4]);
    CounterSum(head, tail);
  }

  lemma SubmissionAt(m: Meta, x: Image, i: nat) returns (q: Sqe)
    requires Layout(m, x) && CountersOk(m.sq, x.sq) && SqReadable(m, x, i)
    ensures StoredSomewhere(m, x, (Get(x.sq, m.sq.head, 4) + i) % m.sq.entries, q)
  {
    hide FromBytes, BitAnd, CountersOk, Plain, EncodeSqe, SqeFits, Covered, Slot;
    SlotInside(m.sq, x.sq, i);
    q := SqeOnto(SqBytes(m, x, i));
    assert Stored(m, x, (Get(x.sq, m.sq.head, 4) + i) % m.sq.entries, SqIndex(m, x, i), q);
  }

  lemma SubmissionsOf(m: Meta, x: Image) returns (head: nat, pending: seq<Sqe>)
    requires Decodable(m, x)
    ensures Queued(m, x, head, pending)
  {
    hide Layout, CountersOk, StoredSomewhere, SqReadable, Counters, PowerOfTwo, Pending, Get;
    LayoutParts(m, x);
    head := CountersOf(m.sq, x.sq);
    pending := [];
    var n := Pending(m.sq, x.sq);
    while |pending| < n
      invariant |pending| <= n
      invariant forall i :: 0 <= i < |pending| ==> StoredSomewhere(m, x, (head + i) % m.sq.entries, pending[i])
    {
      var q := SubmissionAt(m, x, |pending|);
      pending := pending + [q];
    }
  }

  lemma CompletionAt(m: Meta, x: Image, i: nat) returns (c: Cqe)
    requires Layout(m, x) && CountersOk(m.cq, x.cq)
    ensures 1 <= m.cq.entries && Answered(m, x, (Get(x.cq, m.cq.head, 4) + i) % m.cq.entries, c)
  {
    hide FromBytes, BitAnd, EncodeCqe, CqeFits, Covered, Slot;
    SlotInside(m.cq, x.cq, i);
    c := CqeOnto(CqBytes(m, x, i));
  }

  lemma CompletionsOf(m: Meta, x: Image) returns (head: nat, done: seq<Cqe>)
    requires Decodable(m, x)
    ensures Reaped(m, x, head, done)
  {
    hide Layout, CountersOk, Answered, Counters, PowerOfTwo, Pending, SqSound, Get;
    LayoutParts(m, x);
    head := CountersOf(m.cq, x.cq);
    done := [];
    var n := Pending(m.cq, x.cq);
    while |done| < n
      invariant |done| <= n
      invariant forall i :: 0 <= i < |done| ==> Answered(m, x, (head + i) % m.cq.entries, done[i])
    {
      var c := CompletionAt(m, x, |done|);
      done := done + [c];
    }
  }
}
