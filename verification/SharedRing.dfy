/** The shared-ring worker's producer: each batch appends three submissions per job, writing
    entries, array slots and finally the tail counter. */
module SharedRing {
  import opened Bytes
  import opened RingMemory
  import opened RingProducer

  const OP_READ: nat := 22
  const OP_WRITE: nat := 23

  /** A dispatched job: its slot in the file and its scratch buffer. */
  datatype Job = Job(slot: nat, scratch: nat)

  /** What the worker was started with: the open file and its two payload buffers. */
  datatype Setup = Setup(file: int, first: nat, second: nat)

  predicate Valid(w: Setup, jobs: seq<Job>) {
    && -(TWO31 as int) <= w.file < TWO31 && w.first < TWO64 && w.second < TWO64
    && forall j :: 0 <= j < |jobs| ==> jobs[j].slot <= 9999 && jobs[j].scratch < TWO64
  }

  /** The i-th submission of a job: two writes and one read that must fail. */
  function JobSqe(w: Setup, job: Job, i: nat, id: nat): Sqe {
    Sqe(if i == 2 then OP_READ else OP_WRITE, 0, if i == 2 then -1 else w.file,
        job.slot * 512 + i * 128, if i == 0 then w.first else if i == 1 then w.second else job.scratch, 7, id)
  }

  /** The first k submissions of a batch whose identities start at `id`. */
  function Batch(w: Setup, jobs: seq<Job>, id: nat, k: nat): (s: seq<Sqe>)
    requires k <= 3 * |jobs|
    ensures |s| == k
  {
    seq(k, n requires 0 <= n < k => JobSqe(w, jobs[n / 3], n % 3, id + n))
  }

  // ----- memory ----------------------------------------------------------------------------------------

  lemma Within(s: seq<Byte>, base: nat, inner: seq<Byte>, off: nat, b: seq<Byte>)
    requires base + |inner| <= |s| && off + |b| <= |inner|
    ensures Put(Put(s, base, inner), base + off, b) == Put(s, base, Put(inner, off, b))
  {
  }

  /** Zeroing an entry and storing its fields writes exactly its encoding. */
  method WriteEntry(sqes: array<Byte>, base: nat, q: Sqe)
    requires base + SQE_SIZE <= sqes.Length && SqeFits(q) && q.flags == 0
    modifies sqes
    ensures sqes[..] == Put(old(sqes[..]), base, EncodeSqe(q))
  {
    ghost var before := sqes[..];
    ghost var e0: seq<Byte> := seq(64, _ => 0);
    Store(sqes, base, seq(64, _ => 0));
    Store(sqes, base, [q.opcode]);
    Within(before, base, e0, 0, [q.opcode]);
    ghost var e1 := Put(e0, 0, [q.opcode]);
    Store(sqes, base + 4, ToBytes(Unsigned(q.fd), 4));
    Within(before, base, e1, 4, ToBytes(Unsigned(q.fd), 4));
    ghost var e2 := Put(e1, 4, ToBytes(Unsigned(q.fd), 4));
    Store(sqes, base + 16, ToBytes(q.address, 8));
    Within(before, base, e2, 16, ToBytes(q.address, 8));
    ghost var e3 := Put(e2, 16, ToBytes(q.address, 8));
    Store(sqes, base + 8, ToBytes(q.offset, 8));
    Within(before, base, e3, 8, ToBytes(q.offset, 8));
    ghost var e4 := Put(e3, 8, ToBytes(q.offset, 8));
    Store(sqes, base + 24, ToBytes(q.length, 4));
    Within(before, base, e4, 24, ToBytes(q.length, 4));
    ghost var e5 := Put(e4, 24, ToBytes(q.length, 4));
    Store(sqes, base + 32, ToBytes(q.userData, 8));
    Within(before, base, e5, 32, ToBytes(q.userData, 8));
    FieldsEncode(q);
  }

  lemma FieldsEncode(q: Sqe)
    requires SqeFits(q) && q.flags == 0
    ensures var e1 := Put(seq(64, _ => 0), 0, [q.opcode]);
            var e2 := Put(e1, 4, ToBytes(Unsigned(q.fd), 4));
            var e3 := Put(e2, 16, ToBytes(q.address, 8));
            var e4 := Put(e3, 8, ToBytes(q.offset, 8));
            var e5 := Put(e4, 24, ToBytes(q.length, 4));
            Put(e5, 32, ToBytes(q.userData, 8)) == EncodeSqe(q)
  {
    hide ToBytes;
    var fd, off, addr, len, user :=
      ToBytes(Unsigned(q.fd), 4), ToBytes(q.offset, 8), ToBytes(q.address, 8), ToBytes(q.length, 4),
        ToBytes(q.userData, 8);
    var zeros: seq<Byte> := seq(64, _ => 0);
    var e1 := Put(zeros, 0, [q.opcode]);
    assert e1 == [q.opcode, 0, 0, 0] + zeros[4..];
    var e2 := Put(e1, 4, fd);
    assert e2 == [q.opcode, 0, 0, 0] + fd + zeros[8..];
    var e3 := Put(e2, 16, addr);
    assert e3 == [q.opcode, 0, 0, 0] + fd + zeros[8..16] + addr + zeros[24..];
    var e4 := Put(e3, 8, off);
    assert e4 == [q.opcode, 0, 0, 0] + fd + off + addr + zeros[24..];
    var e5 := Put(e4, 24, len);
    assert e5 == [q.opcode, 0, 0, 0] + fd + off + addr + len + zeros[28..];
    var e6 := Put(e5, 32, user);
    assert e6 == [q.opcode, 0, 0, 0] + fd + off + addr + len + zeros[28..32] + user + zeros[40..];
    assert zeros[28..32] == [0, 0, 0, 0] && zeros[40..] == seq(24, _ => 0);
  }

  // ----- one submission ------------------------------------------------------------------------------------

  /** Slot and entry number agree, as this producer keeps them. */
  ghost predicate Own(m: Meta, x: Image, slot: nat, q: Sqe) { Layout(m, x) && Stored(m, x, slot, slot, q) }

  function Written(m: Meta, x: Image, slot: nat, q: Sqe): Image
    requires Layout(m, x) && slot < m.sq.entries && SqeFits(q)
  {
    Image(Put(x.sq, m.sq.base + slot * 4, ToBytes(slot, 4)), Put(x.sqes, slot * SQE_SIZE, EncodeSqe(q)), x.cq)
  }

  /** Array slots and counters are inside the ring and apart. */
  lemma SlotApart(m: RingMeta, length: nat, slot: nat, at: int)
    requires RingLayout(m, length, 4) && slot < m.entries && (at == m.head || at == m.tail || at == m.mask)
    ensures 0 <= at && at + 4 <= length && 0 <= m.base && m.base + slot * 4 + 4 <= length
    ensures at + 4 <= m.base + slot * 4 || m.base + slot * 4 + 4 <= at
  {
  }

  lemma LayoutKept(m: Meta, x: Image, y: Image)
    requires Layout(m, x) && |y.sq| == |x.sq| && |y.sqes| == |x.sqes| && |y.cq| == |x.cq|
    ensures Layout(m, y)
  {
    hide RingLayout;
  }

  lemma LayoutBounds(m: Meta, x: Image, slot: nat)
    requires Layout(m, x) && slot < m.sq.entries
    ensures RingLayout(m.sq, |x.sq|, 4) && Sized(m.sq) && CountersInside(m.sq, |x.sq|) && EntriesInside(m.sq, |x.sq|, 4)
    ensures |x.sqes| == m.sq.entries * SQE_SIZE && 0 <= m.sq.base && m.sq.base + slot * 4 + 4 <= |x.sq|
  {
  }

  lemma CountersUntouched(m: RingMeta, data: seq<Byte>, slot: nat, at: int)
    requires RingLayout(m, |data|, 4) && slot < m.entries && (at == m.head || at == m.tail || at == m.mask)
    ensures Get(Put(data, m.base + slot * 4, ToBytes(slot, 4)), at, 4) == Get(data, at, 4)
  {
    hide RingLayout, Put, ToBytes, FromBytes;
    SlotApart(m, |data|, slot, at);
    PutApart(data, m.base + slot * 4, ToBytes(slot, 4), at, at + 4);
  }

  lemma WrittenOwn(m: Meta, x: Image, slot: nat, q: Sqe)
    requires Layout(m, x) && slot < m.sq.entries < TWO32 && SqeFits(q)
    ensures Own(m, Written(m, x, slot, q), slot, q)
  {
    hide Layout, RingLayout, Put, EncodeSqe, ToBytes, FromBytes, SqeFits, Pow, CountersInside, EntriesInside;
    LayoutBounds(m, x, slot);
    Widths();
    FromTo(slot, 4);
    PutSame(x.sq, m.sq.base + slot * 4, ToBytes(slot, 4));
    PutSame(x.sqes, slot * SQE_SIZE, EncodeSqe(q));
    LayoutKept(m, x, Written(m, x, slot, q));
  }

  lemma WrittenElsewhere(m: Meta, x: Image, slot: nat, q: Sqe, other: nat, p: Sqe)
    requires Layout(m, x) && slot < m.sq.entries && SqeFits(q) && other != slot && Own(m, x, other, p)
    ensures Own(m, Written(m, x, slot, q), other, p)
  {
    hide Layout, RingLayout, Put, EncodeSqe, ToBytes, FromBytes, SqeFits, CountersInside, EntriesInside;
    LayoutBounds(m, x, slot);
    LayoutBounds(m, x, other);
    PutApart(x.sq, m.sq.base + slot * 4, ToBytes(slot, 4), m.sq.base + other * 4, m.sq.base + other * 4 + 4);
    PutApart(x.sqes, slot * SQE_SIZE, EncodeSqe(q), other * SQE_SIZE, other * SQE_SIZE + SQE_SIZE);
    LayoutKept(m, x, Written(m, x, slot, q));
  }

  // ----- slots ----------------------------------------------------------------------------------------------

  lemma DistinctSlots(head: nat, e: nat, i: nat, j: nat)
    requires e >= 1 && i < j && j - i < e
    ensures (head + i) % e != (head + j) % e
  {
    var a, b := (head + i) / e, (head + j) / e;
    assert head + i == a * e + (head + i) % e && head + j == b * e + (head + j) % e;
    ProductBounds(b - a, e);
    assert (b - a) * e == b * e - a * e;
  }

  lemma NestedModulo(n: nat, e: nat, f: nat)
    requires e >= 1 && f >= 1
    ensures e * f >= 1 && (n % (e * f)) % e == n % e
  {
    ProductBounds(f, e);
    var t := e * f;
    var q, r := n / t, n % t;
    var s := r / e;
    calc {
      n;
      q * t + r;
      q * (e * f) + (s * e + r % e);
      { Regroup(q, e, f, s, r % e); }
      (q * f + s) * e + r % e;
    }
    ModuloUnique(n, e, q * f + s, r % e);
  }

  lemma Regroup(q: int, e: int, f: int, s: int, r: int)
    ensures q * (e * f) + (s * e + r) == (q * f + s) * e + r
  {
  }

  /** Wrapping a counter to 32 bits does not change its slot. */
  lemma WrapKeepsSlot(n: nat, e: nat)
    requires 1 <= e < TWO32 && PowerOfTwo(e)
    ensures (n % TWO32) % e == n % e
  {
    var k: nat :| e == Pow(2, k);
    Divides32(k);
    PowSplit(0, 32 - k);
    NestedModulo(n, e, Pow(2, 32 - k));
  }

  lemma AddWrapped(a: nat, k: nat)
    ensures (a % TWO32 + k) % TWO32 == (a + k) % TWO32
  {
  }

  lemma NewSlot(e: nat, head: nat, tail: nat, before: nat, k: nat)
    requires 1 <= e < TWO32 && PowerOfTwo(e) && tail == (head + before) % TWO32
    ensures BitAnd((tail + k) % TWO32, e - 1) == (head + before + k) % e
  {
    hide BitAnd;
    var p: nat :| e == Pow(2, p);
    hide Pow;
    MaskIsModulo((tail + k) % TWO32, p);
    AddWrapped(head + before, k);
    WrapKeepsSlot(head + before + k, e);
  }

  // ----- a batch ----------------------------------------------------------------------------------------------

  /** `queue` lies in the slots behind `head`, each slot naming its own entry. */
  ghost predicate Placed(m: Meta, x: Image, head: nat, queue: seq<Sqe>) {
    Layout(m, x) && m.sq.entries >= 1 && forall i :: 0 <= i < |queue| ==> Own(m, x, (head + i) % m.sq.entries, queue[i])
  }

  ghost predicate Ring(m: Meta, x: Image, head: nat, tail: nat, queue: seq<Sqe>) {
    && Placed(m, x, head, queue) && 1 <= m.sq.entries < TWO31 && PowerOfTwo(m.sq.entries)
    && |queue| <= m.sq.entries && head < TWO32 && Counters(m.sq, x.sq, head, tail)
  }

  lemma WrittenCounters(m: Meta, x: Image, slot: nat, q: Sqe, head: nat, tail: nat)
    requires Layout(m, x) && slot < m.sq.entries && SqeFits(q) && Counters(m.sq, x.sq, head, tail)
    ensures Layout(m, Written(m, x, slot, q)) && Counters(m.sq, Written(m, x, slot, q).sq, head, tail)
  {
    hide Layout, RingLayout, Put, EncodeSqe, ToBytes, SqeFits, CountersInside, EntriesInside, Get;
    LayoutBounds(m, x, slot);
    LayoutKept(m, x, Written(m, x, slot, q));
    CountersUntouched(m.sq, x.sq, slot, m.sq.head);
    CountersUntouched(m.sq, x.sq, slot, m.sq.tail);
    CountersUntouched(m.sq, x.sq, slot, m.sq.mask);
  }

  lemma Appended(m: Meta, x: Image, head: nat, tail: nat, queue: seq<Sqe>, q: Sqe)
    requires Ring(m, x, head, tail, queue) && |queue| < m.sq.entries && SqeFits(q)
    ensures Ring(m, Written(m, x, (head + |queue|) % m.sq.entries, q), head, tail, queue + [q])
  {
    hide Written, EncodeSqe, FromBytes, SqeFits, Own, CountersInside, EntriesInside, Covered, PowerOfTwo, Counters,
      RingLayout;
    var slot := (head + |queue|) % m.sq.entries;
    var y := Written(m, x, slot, q);
    WrittenOwn(m, x, slot, q);
    WrittenCounters(m, x, slot, q, head, tail);
    forall i | 0 <= i < |queue| ensures Own(m, y, (head + i) % m.sq.entries, queue[i]) {
      DistinctSlots(head, m.sq.entries, i, |queue|);
      WrittenElsewhere(m, x, slot, q, (head + i) % m.sq.entries, queue[i]);
    }
  }

  lemma ReleasedSlot(m: Meta, x: Image, b: seq<Byte>, slot: nat, q: Sqe)
    requires Own(m, x, slot, q) && |b| == 4
    ensures Own(m, x.(sq := Put(x.sq, m.sq.tail, b)), slot, q)
  {
    hide Layout, RingLayout, Put, EncodeSqe, FromBytes, SqeFits, CountersInside, EntriesInside;
    LayoutBounds(m, x, slot);
    SlotApart(m.sq, |x.sq|, slot, m.sq.tail);
    PutApart(x.sq, m.sq.tail, b, m.sq.base + slot * 4, m.sq.base + slot * 4 + 4);
    LayoutKept(m, x, x.(sq := Put(x.sq, m.sq.tail, b)));
  }

  lemma CountersApart(m: Meta, x: Image)
    requires Layout(m, x)
    ensures Sized(m.sq) && CountersInside(m.sq, |x.sq|)
    ensures m.sq.head + 4 <= m.sq.tail || m.sq.tail + 4 <= m.sq.head
    ensures m.sq.mask + 4 <= m.sq.tail || m.sq.tail + 4 <= m.sq.mask
  {
  }

  lemma ReleasedCounters(m: Meta, x: Image, head: nat, tail: nat, new': nat)
    requires Layout(m, x) && Counters(m.sq, x.sq, head, tail) && new' < TWO32
    ensures Counters(m.sq, Put(x.sq, m.sq.tail, ToBytes(new', 4)), head, new')
  {
    hide Layout, Put, ToBytes, FromBytes, Pow;
    var b := ToBytes(new', 4);
    CountersApart(m, x);
    Widths();
    FromTo(new', 4);
    PutSame(x.sq, m.sq.tail, b);
    PutApart(x.sq, m.sq.tail, b, m.sq.head, m.sq.head + 4);
    PutApart(x.sq, m.sq.tail, b, m.sq.mask, m.sq.mask + 4);
  }

  /** Storing the tail releases the queue: it is now what a snapshot sees. */
  lemma Released(m: Meta, x: Image, head: nat, tail: nat, queue: seq<Sqe>, y: Image)
    requires Ring(m, x, head, tail, queue)
    requires y == x.(sq := Put(x.sq, m.sq.tail, ToBytes((head + |queue|) % TWO32, 4)))
    ensures Ring(m, y, head, (head + |queue|) % TWO32, queue) && Queued(m, y, head, queue)
  {
    hide Own, ToBytes, PowerOfTwo, CountersInside, EntriesInside, Covered, Counters, StoredSomewhere;
    ReleasedCounters(m, x, head, tail, (head + |queue|) % TWO32);
    forall i | 0 <= i < |queue|
      ensures Own(m, y, (head + i) % m.sq.entries, queue[i])
              && StoredSomewhere(m, y, (head + i) % m.sq.entries, queue[i])
    {
      ReleasedSlot(m, x, ToBytes((head + |queue|) % TWO32, 4), (head + i) % m.sq.entries, queue[i]);
      OwnIsSomewhere(m, y, (head + i) % m.sq.entries, queue[i]);
    }
  }

  lemma OwnIsSomewhere(m: Meta, x: Image, slot: nat, q: Sqe)
    requires Own(m, x, slot, q)
    ensures StoredSomewhere(m, x, slot, q)
  {
  }

  lemma RingBounds(m: Meta, x: Image, head: nat, tail: nat, queue: seq<Sqe>)
    requires Ring(m, x, head, tail, queue)
    ensures 1 <= m.sq.entries < TWO31 && PowerOfTwo(m.sq.entries)
    ensures 0 <= m.sq.head && 0 <= m.sq.tail && 0 <= m.sq.mask
    ensures m.sq.head + 4 <= |x.sq| && m.sq.tail + 4 <= |x.sq| && m.sq.mask + 4 <= |x.sq|
    ensures Get(x.sq, m.sq.head, 4) == head && Get(x.sq, m.sq.tail, 4) == tail
            && Get(x.sq, m.sq.mask, 4) == m.sq.entries - 1
    ensures 0 <= m.sq.base && m.sq.base + m.sq.entries * 4 <= |x.sq| && |x.sqes| == m.sq.entries * SQE_SIZE
    ensures Layout(m, x)
  {
    hide Get, PowerOfTwo;
  }

  lemma WrittenIs(m: Meta, x: Image, slot: nat, q: Sqe, y: Image)
    requires Layout(m, x) && slot < m.sq.entries && SqeFits(q) && y.cq == x.cq
    requires y.sq == Put(x.sq, m.sq.base + slot * 4, ToBytes(slot, 4))
             && y.sqes == Put(x.sqes, slot * SQE_SIZE, EncodeSqe(q))
    ensures y == Written(m, x, slot, q)
  {
    hide EncodeSqe, ToBytes, SqeFits;
  }

  /** One submission: the entry, then the array slot that names it. */
  method Submit(m: Meta, sq: array<Byte>, sqes: array<Byte>, ghost cq: seq<Byte>, tail: nat, k: nat, q: Sqe,
                ghost head: nat, ghost before: nat, ghost queue: seq<Sqe>)
    requires sq != sqes && Ring(m, Image(sq[..], sqes[..], cq), head, tail, queue)
    requires tail == (head + before) % TWO32 && |queue| == before + k < m.sq.entries && SqeFits(q) && q.flags == 0
    modifies sq, sqes
    ensures Ring(m, Image(sq[..], sqes[..], cq), head, tail, queue + [q])
  {
    hide Ring, Layout, Get, Put, EncodeSqe, ToBytes, PowerOfTwo, SqeFits, BitAnd;
    ghost var x := Image(sq[..], sqes[..], cq);
    RingBounds(m, x, head, tail, queue);
    NewSlot(m.sq.entries, head, tail, before, k);
    var mask := Get(sq[..], m.sq.mask, 4);
    var index := BitAnd((tail + k) % TWO32, mask);
    Appended(m, x, head, tail, queue, q);
    WriteEntry(sqes, index * SQE_SIZE, q);
    Store(sq, m.sq.base + index * 4, ToBytes(index, 4));
    WrittenIs(m, x, index, q, Image(sq[..], sqes[..], cq));
  }

  lemma BatchStep(w: Setup, jobs: seq<Job>, id: nat, j: nat, i: nat, pending: seq<Sqe>)
    requires j < |jobs| && i < 3
    ensures pending + Batch(w, jobs, id, 3 * j + i + 1) ==
            pending + Batch(w, jobs, id, 3 * j + i) + [JobSqe(w, jobs[j], i, id + 3 * j + i)]
  {
    assert (3 * j + i) / 3 == j && (3 * j + i) % 3 == i;
  }

  /** What a batch asks for: each job writes the two payloads to the first two 128-byte parts of its
      slot and reads into its scratch buffer through a descriptor that is not open. */
  lemma BatchMeans(w: Setup, jobs: seq<Job>, id: nat, i: nat)
    requires i < 3 * |jobs|
    ensures var q := Batch(w, jobs, id, 3 * |jobs|)[i];
            var job := jobs[i / 3];
            && q.userData == id + i && q.length == 7 && q.flags == 0
            && (i % 3 == 0 ==> q.opcode == 23 && q.fd == w.file && q.offset == job.slot * 512 && q.address == w.first)
            && (i % 3 == 1 ==>
                q.opcode == 23 && q.fd == w.file && q.offset == job.slot * 512 + 128 && q.address == w.second)
            && (i % 3 == 2 ==>
                q.opcode == 22 && q.fd == -1 && q.offset == job.slot * 512 + 256 && q.address == job.scratch)
  {
  }

  lemma JobFits(w: Setup, jobs: seq<Job>, j: nat, i: nat, id: nat)
    requires Valid(w, jobs) && j < |jobs| && i < 3 && id < TWO64
    ensures SqeFits(JobSqe(w, jobs[j], i, id)) && JobSqe(w, jobs[j], i, id).flags == 0
  {
  }

  /** Queue a whole batch, or nothing if the ring has no room for it. */
  method Produce(m: Meta, sq: array<Byte>, sqes: array<Byte>, ghost cq: seq<Byte>, w: Setup, jobs: seq<Job>,
                 nextId: nat,
                 ghost head: nat, ghost pending: seq<Sqe>)
    returns (ok: bool, next: nat)
    requires sq != sqes && Ring(m, Image(sq[..], sqes[..], cq), head, (head + |pending|) % TWO32, pending)
    requires Valid(w, jobs) && |jobs| <= 128 && nextId + 3 * |jobs| <= TWO64
    modifies sq, sqes
    ensures ok <==> |pending| + 3 * |jobs| <= m.sq.entries
    ensures ok ==> next == nextId + 3 * |jobs|
                   && var queue := pending + Batch(w, jobs, nextId, 3 * |jobs|);
                      && Queued(m, Image(sq[..], sqes[..], cq), head, queue)
                      && Ring(m, Image(sq[..], sqes[..], cq), head, (head + |queue|) % TWO32, queue)
    ensures !ok ==> sq[..] == old(sq[..]) && sqes[..] == old(sqes[..]) && next == nextId
  {
    hide Ring, Layout, Get, Put, Batch, JobSqe, Valid, SqeFits, PowerOfTwo, ToBytes;
    ghost var x := Image(sq[..], sqes[..], cq);
    RingBounds(m, x, head, (head + |pending|) % TWO32, pending);
    RingRoom(m, x, head, (head + |pending|) % TWO32, pending);
    next := nextId;
    var start := Get(sq[..], m.sq.tail, 4);
    var first := Get(sq[..], m.sq.head, 4);
    if (start - first) % TWO32 + 3 * |jobs| > m.sq.entries {
      return false, next;
    }
    var j := 0;
    EmptyBatch(w, jobs, nextId, pending);
    while j < |jobs|
      invariant 0 <= j <= |jobs| && next == nextId + 3 * j
      invariant Ring(m, Image(sq[..], sqes[..], cq), head, start, pending + Batch(w, jobs, nextId, 3 * j))
    {
      var i := 0;
      while i < 3
        invariant 0 <= i <= 3 && next == nextId + 3 * j + i
        invariant Ring(m, Image(sq[..], sqes[..], cq), head, start, pending + Batch(w, jobs, nextId, 3 * j + i))
      {
        var q := JobSqe(w, jobs[j], i, next);
        JobFits(w, jobs, j, i, next);
        Submit(m, sq, sqes, cq, start, 3 * j + i, q, head, |pending|, pending + Batch(w, jobs, nextId, 3 * j + i));
        BatchStep(w, jobs, nextId, j, i, pending);
        next := next + 1;
        i := i + 1;
      }
      j := j + 1;
    }
    Release(m, sq, sqes, cq, start, 3 * |jobs|, head, |pending|, pending + Batch(w, jobs, nextId, 3 * |jobs|));
    return true, next;
  }

  /** Store the new tail. */
  method Release(m: Meta, sq: array<Byte>, sqes: array<Byte>, ghost cq: seq<Byte>, tail: nat, count: nat,
                 ghost head: nat, ghost before: nat, ghost queue: seq<Sqe>)
    requires sq != sqes && Ring(m, Image(sq[..], sqes[..], cq), head, tail, queue)
    requires tail == (head + before) % TWO32 && |queue| == before + count
    modifies sq
    ensures Queued(m, Image(sq[..], sqes[..], cq), head, queue)
    ensures Ring(m, Image(sq[..], sqes[..], cq), head, (head + |queue|) % TWO32, queue)
  {
    hide Ring, Layout, Get, Put, ToBytes, PowerOfTwo, Queued;
    ghost var x := Image(sq[..], sqes[..], cq);
    RingBounds(m, x, head, tail, queue);
    AddWrapped(head + before, count);
    Store(sq, m.sq.tail, ToBytes((tail + count) % TWO32, 4));
    Released(m, x, head, tail, queue, Image(sq[..], sqes[..], cq));
  }

  lemma RingRoom(m: Meta, x: Image, head: nat, tail: nat, queue: seq<Sqe>)
    requires Ring(m, x, head, tail, queue) && tail == (head + |queue|) % TWO32
    ensures (tail - head) % TWO32 == |queue|
  {
    hide Placed, PowerOfTwo, Counters;
    CounterDistance(head, |queue|);
  }

  lemma EmptyBatch(w: Setup, jobs: seq<Job>, id: nat, pending: seq<Sqe>)
    ensures pending + Batch(w, jobs, id, 0) == pending
  {
  }

  // ----- reaping a batch --------------------------------------------------------------------------------------

  const BAD_DESCRIPTOR: int := -9

  /** What the i-th submission of a job must return. */
  function Expected(i: nat): int { if i == 2 then BAD_DESCRIPTOR else 7 }

  /** The completion is one this batch waits for, with the expected result. */
  predicate Settles(id: nat, count: nat, c: Observation) {
    c.CqeSeen? && id <= c.userData < id + 3 * count && c.flags == 0 && c.result == Expected((c.userData - id) % 3)
  }

  predicate Unrepeated(c: seq<Observation>) {
    forall i, j :: 0 <= i < j < |c| && c[i].CqeSeen? && c[j].CqeSeen? ==> c[i].userData != c[j].userData
  }

  predicate AllSettle(id: nat, count: nat, c: seq<Observation>) {
    forall k :: 0 <= k < |c| ==> Settles(id, count, c[k])
  }

  /** The completion ring holds exactly what settles the batch. */
  ghost predicate Settled(m: Meta, x: Image, count: nat, id: nat, c: seq<Observation>)
    requires Layout(m, x)
  {
    CqRecords(m, x, c) && AllSettle(id, count, c) && Unrepeated(c)
  }

  /** Read the completion ring from head to tail, ticking off each submission of the batch once. */
  method Drain(m: Meta, x: Image, count: nat, id: nat) returns (ok: bool, completions: seq<Observation>)
    requires Layout(m, x) && CountersOk(m.cq, x.cq)
    ensures ok ==> Settled(m, x, count, id, completions)
    ensures !ok ==> forall c :: !Settled(m, x, count, id, c)
  {
    hide Layout, CountersOk, CqBytes, ReadCqe, Pending, Settles;
    LayoutParts(m, x);
    completions := [];
    var seen: set<nat> := {};
    var total := Pending(m.cq, x.cq);
    while |completions| < total
      invariant |completions| <= total && AllSettle(id, count, completions) && Unrepeated(completions)
      invariant forall j ::
                0 <= j < |completions| ==> completions[j] == ReadCqe(CqBytes(m, x, j)) && completions[j].CqeSeen?
      invariant forall v :: v in seen <==> exists j :: 0 <= j < |completions| && completions[j].userData == v
    {
      var bytes := FetchCqe(m, x, |completions|);
      var entry := ReadCqe(bytes);
      CqeIsSeen(bytes);
      if !Settles(id, count, entry) || entry.userData in seen {
        Refuted(m, x, completions, entry, id, count);
        return false, completions;
      }
      completions := completions + [entry];
      seen := seen + {entry.userData};
    }
    ok := true;
  }

  /** What the ring is after the worker has advanced the head to the tail it saw. */
  function Advanced(m: RingMeta, cq: seq<Byte>): seq<Byte>
    requires Sized(m) && CountersInside(m, |cq|)
  {
    Put(cq, m.head, ToBytes(Get(cq, m.tail, 4), 4))
  }

  lemma AdvancedIsEmpty(m: Meta, x: Image)
    requires Layout(m, x) && CountersOk(m.cq, x.cq)
    ensures Sized(m.cq) && CountersInside(m.cq, |x.cq|)
    ensures var y := x.(cq := Advanced(m.cq, x.cq));
            Layout(m, y) && CountersOk(m.cq, y.cq) && Pending(m.cq, y.cq) == 0
  {
    hide Layout, ToBytes, FromBytes, Pow, BitAnd, Put;
    LayoutParts(m, x);
    var b := ToBytes(Get(x.cq, m.cq.tail, 4), 4);
    Widths();
    ToFrom(x.cq[m.cq.tail..m.cq.tail + 4]);
    FromTo(Get(x.cq, m.cq.tail, 4), 4);
    CqCountersApart(m, x);
    PutSame(x.cq, m.cq.head, b);
    PutApart(x.cq, m.cq.head, b, m.cq.tail, m.cq.tail + 4);
    PutApart(x.cq, m.cq.head, b, m.cq.mask, m.cq.mask + 4);
    LayoutKept(m, x, x.(cq := Advanced(m.cq, x.cq)));
  }

  lemma CqCountersApart(m: Meta, x: Image)
    requires Layout(m, x)
    ensures m.cq.head + 4 <= m.cq.tail || m.cq.tail + 4 <= m.cq.head
    ensures m.cq.mask + 4 <= m.cq.head || m.cq.head + 4 <= m.cq.mask
  {
  }

  /** Reap a batch: succeeds exactly if the completions are the batch's, each once; then the ring is
      empty for the next one. */
  method Reap(m: Meta, sq: seq<Byte>, sqes: seq<Byte>, cq: array<Byte>, count: nat, id: nat)
    returns (ok: bool, completions: seq<Observation>)
    requires Layout(m, Image(sq, sqes, cq[..])) && CountersOk(m.cq, cq[..])
    modifies cq
    ensures ok ==> Settled(m, Image(sq, sqes, old(cq[..])), count, id, completions) && |completions| == 3 * count
    ensures !ok ==> forall c :: Settled(m, Image(sq, sqes, old(cq[..])), count, id, c) ==> |c| != 3 * count
    ensures ok ==> cq[..] == Advanced(m.cq, old(cq[..]))
                   && Layout(m, Image(sq, sqes, cq[..])) && CountersOk(m.cq, cq[..]) && Pending(m.cq, cq[..]) == 0
  {
    hide Layout, CountersOk, Pending, AllSettle, Unrepeated, Get, Put, ToBytes;
    ghost var x := Image(sq, sqes, cq[..]);
    LayoutParts(m, x);
    AdvancedIsEmpty(m, x);
    ok, completions := Drain(m, Image(sq, sqes, cq[..]), count, id);
    if ok {
      Store(cq, m.cq.head, ToBytes(Get(cq[..], m.cq.tail, 4), 4));
      ok := |completions| == 3 * count;
    }
  }

  lemma CqeIsSeen(b: seq<Byte>)
    requires |b| == CQE_SIZE
    ensures ReadCqe(b).CqeSeen?
  {
  }

  /** A first completion that does not settle the batch spoils every reading of the ring. */
  lemma Refuted(m: Meta, x: Image, before: seq<Observation>, entry: Observation, id: nat, count: nat)
    requires Layout(m, x) && CountersOk(m.cq, x.cq) && |before| < Pending(m.cq, x.cq)
    requires forall j :: 0 <= j < |before| ==> before[j] == ReadCqe(CqBytes(m, x, j)) && before[j].CqeSeen?
    requires entry == ReadCqe(CqBytes(m, x, |before|)) && entry.CqeSeen?
    requires !Settles(id, count, entry) || exists j :: 0 <= j < |before| && before[j].userData == entry.userData
    ensures forall c :: CqRecords(m, x, c) ==> !(AllSettle(id, count, c) && Unrepeated(c))
  {
    hide Layout, CountersOk, CqBytes, ReadCqe, Pending, Settles;
    forall c | CqRecords(m, x, c) ensures !(AllSettle(id, count, c) && Unrepeated(c)) {
      assert c[|before|] == entry;
      if j :| 0 <= j < |before| && before[j].userData == entry.userData { assert c[j] == before[j]; }
    }
  }

  /** An accepted reaping completes every submission of its batch, each exactly once: the
      identities completed are the identities queued. */
  lemma ReapedIsBatch(w: Setup, jobs: seq<Job>, id: nat, completions: seq<Observation>, i: nat)
    requires |completions| == 3 * |jobs| && AllSettle(id, |jobs|, completions) && Unrepeated(completions)
             && i < 3 * |jobs|
    ensures var q := Batch(w, jobs, id, 3 * |jobs|)[i];
            exists k ::
              0 <= k < |completions| && completions[k] == CqeSeen(q.userData, if i % 3 == 2 then -9 else 7, 0)
  {
    EachIdentity(completions, id, id + i);
    var k :| 0 <= k < |completions| && completions[k].CqeSeen? && completions[k].userData == id + i;
    assert Settles(id, |jobs|, completions[k]);
  }

  /** As many distinct values as a range has elements hit every element. */
  lemma {:induction false} EachIdentity(c: seq<Observation>, lo: nat, v: nat)
    requires Unrepeated(c) && lo <= v < lo + |c|
    requires forall k :: 0 <= k < |c| ==> c[k].CqeSeen? && lo <= c[k].userData < lo + |c|
    ensures exists k :: 0 <= k < |c| && c[k].userData == v
  {
    var values := set k | 0 <= k < |c| :: c[k].userData;
    var range := Range(lo, |c|);
    DistinctCount(c, values);
    RangeCount(lo, |c|);
    SubsetSame(values, range);
    assert v in range;
  }

  lemma {:induction false} DistinctCount(c: seq<Observation>, values: set<nat>)
    requires Unrepeated(c) && (forall k :: 0 <= k < |c| ==> c[k].CqeSeen?)
    requires forall v :: v in values <==> exists k :: 0 <= k < |c| && c[k].userData == v
    ensures |values| == |c|
  {
    if c == [] {
      assert values == {};
    } else {
      var n := |c| - 1;
      var last := c[n].userData;
      assert last in values;
      DistinctCount(c[..n], values - {last});
    }
  }

  function Range(lo: nat, n: nat): set<nat> { if n == 0 then {} else Range(lo, n - 1) + {lo + n - 1} }

  lemma {:induction false} RangeCount(lo: nat, n: nat)
    ensures |Range(lo, n)| == n && forall x: nat :: x in Range(lo, n) <==> lo <= x < lo + n
  {
    if n > 0 { RangeCount(lo, n - 1); }
  }

  lemma SubsetSame(a: set<nat>, b: set<nat>)
    requires a <= b && |a| == |b|
    ensures a == b
  {
    if x :| x in b && x !in a {
      SubsetSize(a, b - {x});
      assert false;
    }
  }

  lemma SubsetSize(a: set<nat>, b: set<nat>)
    requires a <= b
    ensures |a| <= |b|
  {
    if a != {} {
      var x :| x in a;
      SubsetSize(a - {x}, b - {x});
    }
  }
}
