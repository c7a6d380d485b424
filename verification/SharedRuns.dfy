/** The shared-ring worker over any number of batches, on one pair of rings.  The kernel's side of
    each io_uring_enter is a parameter: what it returned and the completion ring it left. */
module SharedRuns {
  import opened Bytes
  import opened RingMemory
  import opened RingProducer
  import opened SharedRing

  type Batches = seq<seq<Job>>
  datatype Reply = Reply(consumed: int, cq: seq<Byte>)

  function Jobs(batches: Batches): nat {
    if batches == [] then 0 else Jobs(batches[..|batches| - 1]) + |batches[|batches| - 1]|
  }

  /** The identity at which batch b starts. */
  function Start(batches: Batches, id: nat, b: nat): nat
    requires b <= |batches|
  {
    id + 3 * Jobs(batches[..b])
  }

  /** The submissions of successive batches, the counter running on. */
  function Submitted(w: Setup, batches: Batches, id: nat): (s: seq<Sqe>) {
    if batches == [] then []
    else
      var n := |batches| - 1;
      Submitted(w, batches[..n], id) + Batch(w, batches[n], id + 3 * Jobs(batches[..n]), 3 * |batches[n]|)
  }

  /** Identities are the counter's values in order, so none repeats within or across batches. */
  lemma {:induction false} IdentitiesRunOn(w: Setup, batches: Batches, id: nat)
    ensures |Submitted(w, batches, id)| == 3 * Jobs(batches)
    ensures forall i :: 0 <= i < |Submitted(w, batches, id)| ==> Submitted(w, batches, id)[i].userData == id + i
  {
    if batches != [] { IdentitiesRunOn(w, batches[..|batches| - 1], id); }
  }

  /** A run submits batch after batch. */
  lemma {:induction false} SubmittedAt(w: Setup, batches: Batches, id: nat, b: nat, i: nat)
    requires b < |batches| && i < 3 * |batches[b]|
    ensures Jobs(batches[..b]) + |batches[b]| <= Jobs(batches) && |Submitted(w, batches, id)| == 3 * Jobs(batches)
    ensures Submitted(w, batches, id)[3 * Jobs(batches[..b]) + i] ==
            Batch(w, batches[b], Start(batches, id, b), 3 * |batches[b]|)[i]
  {
    hide Batch;
    var n := |batches| - 1;
    IdentitiesRunOn(w, batches, id);
    IdentitiesRunOn(w, batches[..n], id);
    if b < n {
      SubmittedAt(w, batches[..n], id, b, i);
      assert batches[..n][..b] == batches[..b];
    }
  }

  // ----- what a run accepts ---------------------------------------------------------------------

  /** These completions settle a batch of `count` jobs whose identities start at `id`. */
  predicate Full(count: nat, id: nat, c: seq<Observation>) {
    |c| == 3 * count && AllSettle(id, count, c) && Unrepeated(c)
  }

  /** Batch by batch, the completions of a run. */
  ghost predicate Completed(batches: Batches, id: nat, done: seq<seq<Observation>>) {
    |done| == |batches| && forall b :: 0 <= b < |done| ==> Full(|batches[b]|, Start(batches, id, b), done[b])
  }

  /** The kernel's counters are sound, whatever else it wrote. */
  ghost predicate Sound(m: Meta, length: nat, reply: Reply) {
    && Sized(m.cq) && |reply.cq| == length && CountersInside(m.cq, length) && CountersOk(m.cq, reply.cq)
  }

  /** No completion is left unread. */
  predicate Drained(m: Meta, cq: seq<Byte>) { Sized(m.cq) && CountersInside(m.cq, |cq|) && Pending(m.cq, cq) == 0 }

  /** The batch fits the ring, is consumed whole, and its completions settle it. */
  ghost predicate Good(m: Meta, x: Image, count: nat, id: nat, reply: Reply) {
    && 3 * count <= m.sq.entries && reply.consumed == 3 * count
    && Layout(m, x.(cq := reply.cq))
    && exists c :: Settled(m, x.(cq := reply.cq), count, id, c) && |c| == 3 * count
  }

  lemma SettledSame(m: Meta, x: Image, y: Image, count: nat, id: nat, c: seq<Observation>)
    requires Layout(m, x) && Layout(m, y) && x.cq == y.cq
    ensures Settled(m, x, count, id, c) <==> Settled(m, y, count, id, c)
  {
    hide RingLayout, CountersOk, ReadCqe, AllSettle, Unrepeated, Get, Pending;
  }

  // ----- the kernel's side ------------------------------------------------------------------------

  lemma CountersAside(m: Meta, x: Image)
    requires Layout(m, x)
    ensures Sized(m.sq) && CountersInside(m.sq, |x.sq|)
    ensures m.sq.head + 4 <= m.sq.tail || m.sq.tail + 4 <= m.sq.head
    ensures m.sq.head + 4 <= m.sq.mask || m.sq.mask + 4 <= m.sq.head
  {
  }

  /** Once the kernel has advanced the head to the tail, nothing is queued. */
  lemma Consumed(m: Meta, x: Image, head: nat, tail: nat, queue: seq<Sqe>, y: Image)
    requires Ring(m, x, head, tail, queue) && tail < TWO32 && |y.cq| == |x.cq| && y.sqes == x.sqes
    requires y.sq == Put(x.sq, m.sq.head, ToBytes(tail, 4))
    ensures Ring(m, y, tail, tail, [])
  {
    hide Own, ToBytes, FromBytes, PowerOfTwo, RingLayout, Put, Pow;
    var b := ToBytes(tail, 4);
    CountersAside(m, x);
    Widths();
    FromTo(tail, 4);
    PutSame(x.sq, m.sq.head, b);
    PutApart(x.sq, m.sq.head, b, m.sq.tail, m.sq.tail + 4);
    PutApart(x.sq, m.sq.head, b, m.sq.mask, m.sq.mask + 4);
    LayoutKept(m, x, y);
  }

  /** io_uring_enter, called when memory holds exactly `queue`: if all of it is consumed, the ring is
      empty afterwards.  The completion ring is whatever the kernel left. */
  method Enter(m: Meta, sq: array<Byte>, ghost sqes: seq<Byte>, cq: array<Byte>, reply: Reply,
               count: nat, ghost head: nat, ghost queue: seq<Sqe>)
    returns (consumed: int)
    requires sq != cq && |reply.cq| == cq.Length && head < TWO32 && |queue| == count
    requires Queued(m, Image(sq[..], sqes, cq[..]), head, queue)
    requires Ring(m, Image(sq[..], sqes, cq[..]), head, (head + |queue|) % TWO32, queue)
    modifies sq, cq
    ensures consumed == reply.consumed && cq[..] == reply.cq
    ensures consumed == count ==>
              Ring(m, Image(sq[..], sqes, cq[..]), (head + |queue|) % TWO32, (head + |queue|) % TWO32, [])
  {
    hide Ring, Layout, Get, ToBytes, PowerOfTwo, Queued;
    ghost var x := Image(sq[..], sqes, cq[..]);
    RingBounds(m, x, head, (head + |queue|) % TWO32, queue);
    if reply.consumed == count {
      Store(sq, m.sq.head, ToBytes(Get(sq[..], m.sq.tail, 4), 4));
    }
    Store(cq, 0, reply.cq);
    assert Put(x.cq, 0, reply.cq) == reply.cq;
    if reply.consumed == count {
      Consumed(m, x, head, (head + |queue|) % TWO32, queue, Image(sq[..], sqes, cq[..]));
    }
    consumed := reply.consumed;
  }

  // ----- the worker's loop ------------------------------------------------------------------------

  /** Queue each batch, enter the kernel with exactly that batch pending, and reap it, stopping at
      the first batch that goes wrong. */
  method Work(m: Meta, sq: array<Byte>, sqes: array<Byte>, cq: array<Byte>, w: Setup, batches: Batches,
              replies: seq<Reply>, id: nat, ghost head: nat)
    returns (ok: bool, done: seq<seq<Observation>>)
    requires sq != sqes && sq != cq && sqes != cq && head < TWO32
    requires Ring(m, Image(sq[..], sqes[..], cq[..]), head, head, [])
    requires forall b :: 0 <= b < |batches| ==> Valid(w, batches[b]) && |batches[b]| <= 128
    requires id + 3 * Jobs(batches) <= TWO64
    requires |replies| == |batches| && forall b :: 0 <= b < |replies| ==> Sound(m, cq.Length, replies[b])
    modifies sq, sqes, cq
    ensures ok <==> forall b :: 0 <= b < |batches| ==>
                      Good(m, old(Image(sq[..], sqes[..], cq[..])), |batches[b]|, Start(batches, id, b), replies[b])
    ensures ok ==> Completed(batches, id, done)
    ensures ok ==> var at := (head + 3 * Jobs(batches)) % TWO32; Ring(m, Image(sq[..], sqes[..], cq[..]), at, at, [])
    ensures ok && batches != [] ==> Drained(m, cq[..])
  {
    hide Ring, Layout, Valid, Full, Good, Sound, Drained, Jobs;
    ghost var x := Image(sq[..], sqes[..], cq[..]);
    ghost var at := head;
    var next := id;
    done := [];
    NoJobs(batches, head);
    while |done| < |batches|
      invariant |done| <= |batches| && next == Start(batches, id, |done|)
      invariant at == (head + 3 * Jobs(batches[..|done|])) % TWO32
      invariant Ring(m, Image(sq[..], sqes[..], cq[..]), at, at, []) && (done != [] ==> Drained(m, cq[..]))
      invariant forall b :: 0 <= b < |done| ==> Good(m, x, |batches[b]|, Start(batches, id, b), replies[b])
      invariant forall b :: 0 <= b < |done| ==> Full(|batches[b]|, Start(batches, id, b), done[b])
    {
      StartNext(batches, id, |done|);
      WrapOn(head, Jobs(batches[..|done|]), |batches[|done|]|);
      var settled, c := Round(m, sq, sqes, cq, w, batches[|done|], replies[|done|], next, at, x);
      if !settled { return false, done; }
      at := (at + 3 * |batches[|done|]|) % TWO32;
      next := next + 3 * |batches[|done|]|;
      done := done + [c];
    }
    assert batches[..|batches|] == batches;
    return true, done;
  }

  /** One batch.  `x` is any image with this layout: what makes a batch good does not depend on the
      submission ring. */
  method Round(m: Meta, sq: array<Byte>, sqes: array<Byte>, cq: array<Byte>, w: Setup, jobs: seq<Job>, reply: Reply,
               id: nat, ghost head: nat, ghost x: Image)
    returns (ok: bool, completions: seq<Observation>)
    requires sq != sqes && sq != cq && sqes != cq && head < TWO32
    requires Ring(m, Image(sq[..], sqes[..], cq[..]), head, head, [])
    requires Valid(w, jobs) && |jobs| <= 128 && id + 3 * |jobs| <= TWO64 && Sound(m, cq.Length, reply)
    requires |x.sq| == sq.Length && |x.sqes| == sqes.Length && |x.cq| == cq.Length
    modifies sq, sqes, cq
    ensures ok <==> Good(m, x, |jobs|, id, reply)
    ensures ok ==> Full(|jobs|, id, completions)
    ensures ok ==> var at := (head + 3 * |jobs|) % TWO32; Ring(m, Image(sq[..], sqes[..], cq[..]), at, at, [])
    ensures ok ==> Drained(m, cq[..])
  {
    hide Ring, Layout, Queued, Valid, Batch, CountersOk, AllSettle, Unrepeated, CqRecords, Pending, Advanced;
    RingSame(m, Image(sq[..], sqes[..], cq[..]), head, head, [], x.(cq := reply.cq));
    var fits, next := Produce(m, sq, sqes, cq[..], w, jobs, id, head, []);
    if !fits { return false, []; }
    ghost var queue := [] + Batch(w, jobs, id, 3 * |jobs|);
    var consumed := Enter(m, sq, sqes[..], cq, reply, 3 * |jobs|, head, queue);
    if consumed != 3 * |jobs| { return false, []; }
    ghost var at := (head + 3 * |jobs|) % TWO32;
    ghost var y := Image(sq[..], sqes[..], cq[..]);
    RingSame(m, y, at, at, [], y);
    ok, completions := Reap(m, sq[..], sqes[..], cq, |jobs|, id);
    forall c ensures Settled(m, y, |jobs|, id, c) <==> Settled(m, x.(cq := reply.cq), |jobs|, id, c) {
      SettledSame(m, y, x.(cq := reply.cq), |jobs|, id, c);
    }
    if ok {
      RingSame(m, y, at, at, [], Image(sq[..], sqes[..], cq[..]));
      LayoutParts(m, Image(sq[..], sqes[..], cq[..]));
    }
  }

  /** The submission ring does not care about the completion ring's contents. */
  lemma RingSame(m: Meta, x: Image, head: nat, tail: nat, queue: seq<Sqe>, y: Image)
    requires Ring(m, x, head, tail, queue) && |y.sq| == |x.sq| && |y.sqes| == |x.sqes| && |y.cq| == |x.cq|
    ensures Layout(m, x) && Layout(m, y)
    ensures y.sq == x.sq && y.sqes == x.sqes ==> Ring(m, y, head, tail, queue)
  {
    LayoutKept(m, x, y);
    hide RingLayout, EncodeSqe, SqeFits, PowerOfTwo;
  }

  lemma NoJobs(batches: Batches, head: nat)
    requires head < TWO32
    ensures Jobs(batches[..0]) == 0 && head == (head + 3 * Jobs(batches[..0])) % TWO32
  {
  }

  lemma {:induction false} StartNext(batches: Batches, id: nat, b: nat)
    requires b < |batches|
    ensures Jobs(batches[..b + 1]) == Jobs(batches[..b]) + |batches[b]|
    ensures Jobs(batches[..b + 1]) <= Jobs(batches)
  {
    assert batches[..b + 1][..b] == batches[..b];
    PrefixFewer(batches, b + 1);
  }

  lemma {:induction false} PrefixFewer(batches: Batches, n: nat)
    requires n <= |batches|
    ensures Jobs(batches[..n]) <= Jobs(batches)
  {
    var last := |batches| - 1;
    if n <= last {
      PrefixFewer(batches[..last], n);
      assert batches[..last][..n] == batches[..n];
    } else {
      assert batches[..n] == batches;
    }
  }

  /** The counter wraps the same whether reduced batch by batch or at the end. */
  lemma WrapOn(head: nat, jobs: nat, count: nat)
    ensures ((head + 3 * jobs) % TWO32 + 3 * count) % TWO32 == (head + 3 * (jobs + count)) % TWO32
  {
    AddWrapped(head + 3 * jobs, 3 * count);
  }

  // ----- a whole run ------------------------------------------------------------------------------

  lemma CompletedPrefix(batches: Batches, id: nat, done: seq<seq<Observation>>)
    requires batches != [] && Completed(batches, id, done)
    ensures Completed(batches[..|batches| - 1], id, done[..|batches| - 1])
  {
    hide Full;
    var n := |batches| - 1;
    forall b | 0 <= b < n ensures Start(batches[..n], id, b) == Start(batches, id, b) {
      assert batches[..n][..b] == batches[..b];
    }
  }

  ghost predicate Among(done: seq<seq<Observation>>, c: Observation) {
    exists b, k :: 0 <= b < |done| && 0 <= k < |done[b]| && done[b][k] == c
  }

  /** An accepted run completes every submission of every batch with the result expected of it. */
  lemma {:induction false} EverySubmissionCompleted(w: Setup, batches: Batches, id: nat,
                                                    done: seq<seq<Observation>>, i: nat)
    requires Completed(batches, id, done) && i < |Submitted(w, batches, id)|
    ensures Among(done, CqeSeen(Submitted(w, batches, id)[i].userData, if i % 3 == 2 then -9 else 7, 0))
  {
    hide Batch, Full, Start;
    var n := |batches| - 1;
    var before := Submitted(w, batches[..n], id);
    IdentitiesRunOn(w, batches[..n], id);
    if i < |before| {
      CompletedPrefix(batches, id, done);
      EverySubmissionCompleted(w, batches[..n], id, done[..n], i);
      var c := CqeSeen(before[i].userData, if i % 3 == 2 then -9 else 7, 0);
      var b, k :| 0 <= b < n && 0 <= k < |done[..n][b]| && done[..n][b][k] == c;
      assert done[b][k] == c;
    } else {
      LastCompleted(w, batches, id, done, i - |before|);
    }
  }

  lemma LastCompleted(w: Setup, batches: Batches, id: nat, done: seq<seq<Observation>>, i: nat)
    requires batches != [] && Completed(batches, id, done)
    requires i < 3 * |batches[|batches| - 1]|
    ensures var n := |batches| - 1;
            Among(done, CqeSeen(Batch(w, batches[n], id + 3 * Jobs(batches[..n]), 3 * |batches[n]|)[i].userData,
                                if i % 3 == 2 then -9 else 7, 0))
  {
    hide Batch, AllSettle, Unrepeated;
    var n := |batches| - 1;
    assert Full(|batches[n]|, Start(batches, id, n), done[n]);
    ReapedIsBatch(w, batches[n], Start(batches, id, n), done[n], i);
  }

  /** And no identity is completed twice, within or across batches. */
  lemma NoneTwice(batches: Batches, id: nat, done: seq<seq<Observation>>, b: nat, k: nat, b': nat, k': nat)
    requires Completed(batches, id, done)
    requires b <= b' < |done| && k < |done[b]| && k' < |done[b']| && (b, k) != (b', k')
    ensures done[b][k].CqeSeen? && done[b'][k'].CqeSeen? && done[b][k].userData != done[b'][k'].userData
  {
    assert Full(|batches[b]|, Start(batches, id, b), done[b]) && Full(|batches[b']|, Start(batches, id, b'), done[b']);
    assert Settles(Start(batches, id, b), |batches[b]|, done[b][k])
           && Settles(Start(batches, id, b'), |batches[b']|, done[b'][k']);
    if b < b' {
      StartNext(batches, id, b);
      PrefixFewer(batches[..b'], b + 1);
      assert batches[..b'][..b + 1] == batches[..b + 1];
    }
  }
}
