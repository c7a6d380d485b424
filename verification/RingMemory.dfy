/** Decoding a snapshot of io_uring memory, and the proof that it inverts what was queued. */
module RingMemory {
  import opened Bytes

  /** Where one ring keeps its counters and entries; a field that is not a non-negative
      integer reads as -1. */
  datatype RingMeta = RingMeta(entries: int, size: int, base: int, head: int, tail: int, mask: int)
  datatype Meta = Meta(sq: RingMeta, cq: RingMeta)

  /** The three mapped regions. */
  datatype Image = Image(sq: seq<Byte>, sqes: seq<Byte>, cq: seq<Byte>)

  datatype Observation =
    | SqeSeen(userData: nat, opcode: nat, flags: nat, fd: int, offset: nat, length: nat)
    | CqeSeen(userData: nat, result: int, flags: nat)

  datatype Fault = BadMetadata | BadLength | BadCounterOffsets | EntriesOutside | Overlap | BadCounters | BadIndex
    | Auxiliary

  datatype Decoded = Records(records: seq<Observation>) | Refused(fault: Fault)

  const SQE_SIZE: nat := 64
  const CQE_SIZE: nat := 16

  // ----- layout -----------------------------------------------------------------------------------

  predicate Sized(m: RingMeta) {
    m.entries >= 0 && m.size >= 0 && m.base >= 0 && m.head >= 0 && m.tail >= 0 && m.mask >= 0
  }

  predicate CountersInside(m: RingMeta, length: nat) {
    && m.head != m.tail && m.head != m.mask && m.tail != m.mask
    && m.head % 4 == 0 && m.tail % 4 == 0 && m.mask % 4 == 0
    && m.head + 4 <= length && m.tail + 4 <= length && m.mask + 4 <= length
  }

  predicate EntriesInside(m: RingMeta, length: nat, stride: nat)
    requires stride > 0
  {
    m.base % stride == 0 && m.base + m.entries * stride <= length
  }

  predicate Covered(m: RingMeta, stride: nat, offset: int) { m.base <= offset < m.base + m.entries * stride }

  predicate RingLayout(m: RingMeta, length: nat, stride: nat)
    requires stride > 0
  {
    && Sized(m) && CountersInside(m, length) && EntriesInside(m, length, stride)
    && !Covered(m, stride, m.head) && !Covered(m, stride, m.tail) && !Covered(m, stride, m.mask)
  }

  predicate Layout(m: Meta, x: Image) {
    && Sized(m.sq) && Sized(m.cq)
    && |x.sq| == m.sq.size && |x.cq| == m.cq.size && |x.sqes| == m.sq.entries * SQE_SIZE
    && RingLayout(m.sq, |x.sq|, 4) && RingLayout(m.cq, |x.cq|, CQE_SIZE)
  }

  lemma LayoutParts(m: Meta, x: Image)
    requires Layout(m, x)
    ensures Sized(m.sq) && CountersInside(m.sq, |x.sq|) && Sized(m.cq) && CountersInside(m.cq, |x.cq|)
  {
  }

  // ----- counters ----------------------------------------------------------------------------------

  function Pending(m: RingMeta, data: seq<Byte>): nat
    requires Sized(m) && CountersInside(m, |data|)
  {
    (Get(data, m.tail, 4) - Get(data, m.head, 4)) % TWO32
  }

  predicate CountersOk(m: RingMeta, data: seq<Byte>)
    requires Sized(m) && CountersInside(m, |data|)
  {
    m.entries >= 1 && BitAnd(m.entries, m.entries - 1) == 0 && Get(data, m.mask, 4) == m.entries - 1
      && Pending(m, data) <= m.entries
  }

  /** The slot of the i-th pending entry: the free-running counter, masked. */
  function Slot(m: RingMeta, data: seq<Byte>, i: nat): nat
    requires Sized(m) && CountersInside(m, |data|)
  {
    BitAnd(Get(data, m.head, 4) + i, Get(data, m.mask, 4))
  }

  lemma SlotInside(m: RingMeta, data: seq<Byte>, i: nat)
    requires Sized(m) && CountersInside(m, |data|) && CountersOk(m, data)
    ensures Slot(m, data, i) == (Get(data, m.head, 4) + i) % m.entries && 0 <= Slot(m, data, i) < m.entries
  {
    LowestBitTest(m.entries);
    var k: nat :| m.entries == Pow(2, k);
    MaskIsModulo(Get(data, m.head, 4) + i, k);
  }

  // ----- entries ------------------------------------------------------------------------------------

  predicate Zeros(b: seq<Byte>) { forall i :: 0 <= i < |b| ==> b[i] == 0 }

  predicate Plain(b: seq<Byte>)
    requires |b| == SQE_SIZE
  {
    Zeros(b[2..4]) && Zeros(b[28..32]) && Zeros(b[40..64])
  }

  function ReadSqe(b: seq<Byte>): Observation
    requires |b| == SQE_SIZE
  {
    SqeSeen(Get(b, 32, 8), b[0], b[1], Signed(Get(b, 4, 4)), Get(b, 8, 8), Get(b, 24, 4))
  }

  function ReadCqe(b: seq<Byte>): Observation
    requires |b| == CQE_SIZE
  {
    CqeSeen(Get(b, 0, 8), Signed(Get(b, 8, 4)), Get(b, 12, 4))
  }

  function SqIndex(m: Meta, x: Image, i: nat): nat
    requires Layout(m, x) && CountersOk(m.sq, x.sq)
  {
    SlotInside(m.sq, x.sq, i);
    Get(x.sq, m.sq.base + Slot(m.sq, x.sq, i) * 4, 4)
  }

  function SqBytes(m: Meta, x: Image, i: nat): (b: seq<Byte>)
    requires Layout(m, x) && CountersOk(m.sq, x.sq) && SqIndex(m, x, i) < m.sq.entries
    ensures |b| == SQE_SIZE
  {
    x.sqes[SqIndex(m, x, i) * SQE_SIZE..SqIndex(m, x, i) * SQE_SIZE + SQE_SIZE]
  }

  function CqBytes(m: Meta, x: Image, i: nat): (b: seq<Byte>)
    requires Layout(m, x) && CountersOk(m.cq, x.cq)
    ensures |b| == CQE_SIZE
  {
    SlotInside(m.cq, x.cq, i);
    var at := m.cq.base + Slot(m.cq, x.cq, i) * CQE_SIZE;
    x.cq[at..at + CQE_SIZE]
  }

  predicate SqReadable(m: Meta, x: Image, i: nat)
    requires Layout(m, x) && CountersOk(m.sq, x.sq)
  {
    SqIndex(m, x, i) < m.sq.entries && Plain(SqBytes(m, x, i))
  }

  /** The submission ring is sound. */
  ghost predicate SqSound(m: Meta, x: Image)
    requires Layout(m, x)
  {
    CountersOk(m.sq, x.sq) && forall i :: 0 <= i < Pending(m.sq, x.sq) ==> SqReadable(m, x, i)
  }

  /** The pending submissions read as these records, oldest first. */
  ghost predicate SqRecords(m: Meta, x: Image, records: seq<Observation>)
    requires Layout(m, x)
  {
    && CountersOk(m.sq, x.sq) && |records| == Pending(m.sq, x.sq)
    && forall i :: 0 <= i < |records| ==> SqReadable(m, x, i) && records[i] == ReadSqe(SqBytes(m, x, i))
  }

  ghost predicate CqRecords(m: Meta, x: Image, records: seq<Observation>)
    requires Layout(m, x)
  {
    && CountersOk(m.cq, x.cq) && |records| == Pending(m.cq, x.cq)
    && forall i :: 0 <= i < |records| ==> records[i] == ReadCqe(CqBytes(m, x, i))
  }

  /** The snapshot is sound and reads as these records: submissions, then completions. */
  ghost predicate Decodes(m: Meta, x: Image, records: seq<Observation>) {
    && Layout(m, x) && Pending(m.sq, x.sq) <= |records|
    && SqRecords(m, x, records[..Pending(m.sq, x.sq)]) && CqRecords(m, x, records[Pending(m.sq, x.sq)..])
  }

  ghost predicate Decodable(m: Meta, x: Image) { Layout(m, x) && SqSound(m, x) && CountersOk(m.cq, x.cq) }

  method CheckRing(m: RingMeta, data: seq<Byte>, stride: nat) returns (fault: Option)
    requires Sized(m) && stride > 0
    ensures fault.None? <==> RingLayout(m, |data|, stride)
  {
    if !CountersInside(m, |data|) { return Some(BadCounterOffsets); }
    if !EntriesInside(m, |data|, stride) { return Some(EntriesOutside); }
    if Covered(m, stride, m.head) || Covered(m, stride, m.tail) || Covered(m, stride, m.mask) { return Some(Overlap); }
    return None;
  }

  datatype Option = None | Some(value: Fault)

  /** One pending submission: its entry number and its bytes, if the number is in range. */
  method FetchSqe(m: Meta, x: Image, i: nat) returns (bytes: seq<Byte>, found: bool)
    requires Layout(m, x) && CountersOk(m.sq, x.sq)
    ensures found <==> SqIndex(m, x, i) < m.sq.entries
    ensures found ==> bytes == SqBytes(m, x, i)
  {
    hide FromBytes, BitAnd, CountersOk, Covered;
    var index := BitAnd(Get(x.sq, m.sq.head, 4) + i, Get(x.sq, m.sq.mask, 4));
    SlotInside(m.sq, x.sq, i);
    var entry := Get(x.sq, m.sq.base + index * 4, 4);
    if entry >= m.sq.entries { return [], false; }
    var base := entry * SQE_SIZE;
    return x.sqes[base..base + SQE_SIZE], true;
  }

  method DecodeSq(m: Meta, x: Image) returns (r: Decoded)
    requires Layout(m, x)
    ensures r.Records? <==> SqSound(m, x)
    ensures r.Records? ==> SqRecords(m, x, r.records)
  {
    hide ReadSqe, Plain, CountersOk, SqBytes, SqIndex, Layout, Pending;
    LayoutParts(m, x);
    if !CountersOk(m.sq, x.sq) { return Refused(BadCounters); }
    var count := Pending(m.sq, x.sq);
    var records: seq<Observation> := [];
    var i := 0;
    while i < count
      invariant 0 <= i <= count && |records| == i
      invariant forall j :: 0 <= j < i ==> SqReadable(m, x, j) && records[j] == ReadSqe(SqBytes(m, x, j))
    {
      var bytes, found := FetchSqe(m, x, i);
      assert SqReadable(m, x, i) <==> found && Plain(bytes);
      if !found { return Refused(BadIndex); }
      if !Plain(bytes) { return Refused(Auxiliary); }
      records := records + [ReadSqe(bytes)];
      i := i + 1;
    }
    return Records(records);
  }

  method FetchCqe(m: Meta, x: Image, i: nat) returns (bytes: seq<Byte>)
    requires Layout(m, x) && CountersOk(m.cq, x.cq)
    ensures bytes == CqBytes(m, x, i)
  {
    hide FromBytes, BitAnd, CountersOk, Covered;
    var index := BitAnd(Get(x.cq, m.cq.head, 4) + i, Get(x.cq, m.cq.mask, 4));
    SlotInside(m.cq, x.cq, i);
    var at := m.cq.base + index * CQE_SIZE;
    return x.cq[at..at + CQE_SIZE];
  }

  method DecodeCq(m: Meta, x: Image) returns (r: Decoded)
    requires Layout(m, x)
    ensures r.Records? <==> CountersOk(m.cq, x.cq)
    ensures r.Records? ==> CqRecords(m, x, r.records)
  {
    hide ReadCqe, CountersOk, CqBytes, Layout, Pending;
    LayoutParts(m, x);
    if !CountersOk(m.cq, x.cq) { return Refused(BadCounters); }
    var count := Pending(m.cq, x.cq);
    var records: seq<Observation> := [];
    var i := 0;
    while i < count
      invariant 0 <= i <= count && |records| == i
      invariant forall j :: 0 <= j < i ==> records[j] == ReadCqe(CqBytes(m, x, j))
    {
      var bytes := FetchCqe(m, x, i);
      records := records + [ReadCqe(bytes)];
      i := i + 1;
    }
    return Records(records);
  }

  /** The pending submissions, then the pending completions; every byte read is inside the
      snapshot, and a snapshot is refused exactly when it is not sound. */
  method Decode(m: Meta, x: Image) returns (r: Decoded)
    ensures r.Records? <==> Decodable(m, x)
    ensures r.Records? ==> Decodes(m, x, r.records)
  {
    hide SqSound, SqReadable, CountersOk, Pending, CountersInside, EntriesInside, Covered, ReadSqe, ReadCqe, SqBytes,
      CqBytes;
    if !Sized(m.sq) || !Sized(m.cq) { return Refused(BadMetadata); }
    if |x.sq| != m.sq.size || |x.cq| != m.cq.size || |x.sqes| != m.sq.entries * SQE_SIZE { return Refused(BadLength); }
    var fault := CheckRing(m.sq, x.sq, 4);
    if fault.Some? { return Refused(fault.value); }
    fault := CheckRing(m.cq, x.cq, CQE_SIZE);
    if fault.Some? { return Refused(fault.value); }
    var submissions := DecodeSq(m, x);
    if submissions.Refused? { return submissions; }
    var completions := DecodeCq(m, x);
    if completions.Refused? { return completions; }
    Together(m, x, submissions.records, completions.records);
    return Records(submissions.records + completions.records);
  }

  lemma Together(m: Meta, x: Image, submissions: seq<Observation>, completions: seq<Observation>)
    requires Layout(m, x) && SqRecords(m, x, submissions) && CqRecords(m, x, completions)
    ensures Decodes(m, x, submissions + completions)
  {
    hide Layout, SqReadable, CountersOk, Pending, ReadSqe, ReadCqe, SqBytes, CqBytes;
    var records := submissions + completions;
    assert records[..|submissions|] == submissions && records[|submissions|..] == completions;
  }

  // ----- what is queued -----------------------------------------------------------------------------

  datatype Sqe = Sqe(opcode: nat, flags: nat, fd: int, offset: nat, address: nat, length: nat, userData: nat)
  datatype Cqe = Cqe(userData: nat, result: int, flags: nat)

  predicate SqeFits(q: Sqe) {
    && q.opcode < 256 && q.flags < 256 && -(TWO31 as int) <= q.fd < TWO31
    && q.offset < TWO64 && q.address < TWO64 && q.length < TWO32 && q.userData < TWO64
  }

  predicate CqeFits(c: Cqe) { c.userData < TWO64 && -(TWO31 as int) <= c.result < TWO31 && c.flags < TWO32 }

  /** The 64 bytes of a submission entry whose auxiliary fields are zero. */
  function EncodeSqe(q: Sqe): (b: seq<Byte>)
    requires SqeFits(q)
    ensures |b| == SQE_SIZE
  {
    [q.opcode, q.flags, 0, 0] + ToBytes(Unsigned(q.fd), 4) + ToBytes(q.offset, 8) + ToBytes(q.address, 8)
    + ToBytes(q.length, 4) + [0, 0, 0, 0] + ToBytes(q.userData, 8) + seq(24, _ => 0)
  }

  function EncodeCqe(c: Cqe): (b: seq<Byte>)
    requires CqeFits(c)
    ensures |b| == CQE_SIZE
  {
    ToBytes(c.userData, 8) + ToBytes(Unsigned(c.result), 4) + ToBytes(c.flags, 4)
  }

  function Observed(q: Sqe): Observation { SqeSeen(q.userData, q.opcode, q.flags, q.fd, q.offset, q.length) }

  function Completed(c: Cqe): Observation { CqeSeen(c.userData, c.result, c.flags) }

  lemma SqeParts(q: Sqe)
    requires SqeFits(q)
    ensures var b := EncodeSqe(q);
            && b[0] == q.opcode && b[1] == q.flags && b[2..4] == [0, 0] && b[4..8] == ToBytes(Unsigned(q.fd), 4)
            && b[8..16] == ToBytes(q.offset, 8) && b[16..24] == ToBytes(q.address, 8)
            && b[24..28] == ToBytes(q.length, 4)
            && b[28..32] == [0, 0, 0, 0] && b[32..40] == ToBytes(q.userData, 8) && b[40..64] == seq(24, _ => 0)
  {
  }

  lemma SqeRoundTrip(q: Sqe)
    requires SqeFits(q)
    ensures Plain(EncodeSqe(q)) && ReadSqe(EncodeSqe(q)) == Observed(q)
    ensures var r := Observed(q);
            && r.SqeSeen? && r.userData == q.userData && r.opcode == q.opcode && r.flags == q.flags && r.fd == q.fd
            && r.offset == q.offset && r.length == q.length
  {
    hide EncodeSqe, ToBytes, FromBytes, Pow;
    Widths();
    SqeParts(q);
    FromTo(Unsigned(q.fd), 4);
    FromTo(q.offset, 8);
    FromTo(q.length, 4);
    FromTo(q.userData, 8);
  }

  lemma PlainParts(b: seq<Byte>)
    requires |b| == SQE_SIZE && Plain(b)
    ensures b[2..4] == [0, 0] && b[28..32] == [0, 0, 0, 0] && b[40..64] == seq(24, _ => 0)
  {
  }

  /** Plain bytes are the encoding of some entry: nothing else decodes. */
  lemma SqeOnto(b: seq<Byte>) returns (q: Sqe)
    requires |b| == SQE_SIZE && Plain(b)
    ensures SqeFits(q) && EncodeSqe(q) == b
  {
    hide ToBytes, FromBytes, Pow;
    Widths();
    q := Sqe(b[0], b[1], Signed(Get(b, 4, 4)), Get(b, 8, 8), Get(b, 16, 8), Get(b, 24, 4), Get(b, 32, 8));
    ToFrom(b[4..8]);
    ToFrom(b[8..16]);
    ToFrom(b[16..24]);
    ToFrom(b[24..28]);
    ToFrom(b[32..40]);
    PlainParts(b);
    assert b == [b[0], b[1]] + b[2..4] + b[4..8] + b[8..16] + b[16..24] + b[24..28] + b[28..32] + b[32..40] + b[40..64];
  }

  lemma CqeRoundTrip(c: Cqe)
    requires CqeFits(c)
    ensures ReadCqe(EncodeCqe(c)) == Completed(c)
    ensures var r := Completed(c);
            r.CqeSeen? && r.userData == c.userData && r.result == c.result && r.flags == c.flags
  {
    hide ToBytes, FromBytes, Pow;
    Widths();
    var b := EncodeCqe(c);
    assert b[0..8] == ToBytes(c.userData, 8) && b[8..12] == ToBytes(Unsigned(c.result), 4)
           && b[12..16] == ToBytes(c.flags, 4);
    FromTo(c.userData, 8);
    FromTo(Unsigned(c.result), 4);
    FromTo(c.flags, 4);
  }

  lemma CqeOnto(b: seq<Byte>) returns (c: Cqe)
    requires |b| == CQE_SIZE
    ensures CqeFits(c) && EncodeCqe(c) == b
  {
    hide ToBytes, FromBytes, Pow;
    Widths();
    c := Cqe(Get(b, 0, 8), Signed(Get(b, 8, 4)), Get(b, 12, 4));
    ToFrom(b[0..8]);
    ToFrom(b[8..12]);
    ToFrom(b[12..16]);
    assert b == b[0..8] + b[8..12] + b[12..16];
  }
}
