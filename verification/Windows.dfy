/** Validating serialized ring batches in a native debugger log. */
module Windows {
  import opened Trace

  const TWO32: int := 0x1_0000_0000
  const TWO31: int := 0x8000_0000
  const TWO64: int := 0x1_0000_0000_0000_0000

  /** A submission line's fields beyond the first four. */
  datatype Extra = Plain | Control(target: int, operation: int)
    | ControlFlags(target: int, operation: int, flags: int) | Malformed

  datatype Sqe = Sqe(index: int, opcode: int, fd: int, identity: int, extra: Extra)

  datatype Line =
    | Submitter(tid: int)
    | BatchStart(fd: int, head: int, tail: int, mask: int)
    | SqeLine(sqe: Sqe)
    | Return(value: int)
    | Completions(fd: int, head: int, tail: int, mask: int)
    | CqeLine(identity: int, result: int, flags: int)
    | BatchEnd
    | OtherLine

  datatype Operation = Operation(sqe: Sqe, result: int)

  /** A validated batch: the lines it spans, its window, and its joined operations. */
  datatype Batch = Batch(start: nat, end: nat, submitter: Option<int>, fd: int, head: int, tail: int,
                         operations: seq<Operation>)

  /** A batch in progress. */
  datatype Open = Open(start: nat, submitter: Option<int>, window: Window, sq: seq<Sqe>, cq: map<int, int>,
                       returned: Option<int>, completing: bool)
  datatype Window = Window(fd: int, head: int, tail: int)

  datatype State = State(open: Option<Open>, batches: seq<Batch>, lastTail: map<int, int>, submitter: Option<int>)

  function Count(w: Window): int { (w.tail - w.head) % TWO32 }

  predicate Has(sq: seq<Sqe>, identity: int) { exists i :: 0 <= i < |sq| && sq[i].identity == identity }

  predicate ExtraOk(q: Sqe) {
    match q.extra
    case Plain => true
    case Control(target, operation) => q.opcode == 29 && target <= 0x7fff_ffff && 1 <= operation <= 3
    case ControlFlags(target, operation, flags) =>
      q.opcode == 29 && target <= 0x7fff_ffff && 1 <= operation <= 3 && flags == 0
    case Malformed => false
  }

  function Joined(sq: seq<Sqe>, cq: map<int, int>): (r: seq<Operation>)
    requires forall i :: 0 <= i < |sq| ==> sq[i].identity in cq
    ensures |r| == |sq| && forall i :: 0 <= i < |sq| ==> r[i] == Operation(sq[i], cq[sq[i].identity])
  {
    seq(|sq|, i requires 0 <= i < |sq| => Operation(sq[i], cq[sq[i].identity]))
  }

  /** All submissions completed, and nothing else. */
  predicate Complete(o: Open) {
    && o.completing && o.returned == Some(Count(o.window)) && |o.sq| == Count(o.window)
    && (forall i :: 0 <= i < |o.sq| ==> o.sq[i].identity in o.cq) && (forall id :: id in o.cq ==> Has(o.sq, id))
  }

  /** The state after line n; None if the line is out of place.  `setups` gives, for rings with
      setup evidence, the line of the setup, if setups are required. */
  function Step(setups: Option<map<int, int>>, s: State, line: Line, n: nat): Option<State> {
    match line
    case OtherLine => Some(s)
    case Submitter(tid) => Some(s.(submitter := Some(tid)))
    case BatchStart(fd, head, tail, mask) =>
      var w := Window(fd, head, tail);
      if s.open.Some? || mask != 255 || !(0 < Count(w) <= mask + 1) then None
      else if setups.Some? && (fd !in setups.value || setups.value[fd] >= n) then None
      else if fd in s.lastTail && head != s.lastTail[fd] then None
      else Some(s.(open := Some(Open(n, s.submitter, w, [], map[], None, false)), submitter := None))
    case SqeLine(q) =>
      if s.open.None? || s.open.value.returned.Some? then None
      else if q.extra.Malformed? || !(0 <= q.index <= 255) || Has(s.open.value.sq, q.identity) || !ExtraOk(q) then None
      else Some(s.(open := Some(s.open.value.(sq := s.open.value.sq + [q]))))
    case Return(value) =>
      if s.open.None? || s.open.value.returned.Some? || |s.open.value.sq| != Count(s.open.value.window) then None
      else Some(s.(open := Some(s.open.value.(returned := Some(value)))))
    case Completions(fd, head, tail, mask) =>
      if s.open.None? || s.open.value.returned.None? || s.open.value.completing then None
      else
        var w := s.open.value.window;
        if fd != w.fd || mask != 511 || head != w.head || (tail - head) % TWO32 != Count(w) then None
        else Some(s.(open := Some(s.open.value.(completing := true))))
    case CqeLine(identity, result, flags) =>
      if s.open.None? || !s.open.value.completing || flags != 0 then None
      else if !(-TWO31 <= result < TWO31) || !(0 <= identity < TWO64) then None
      else if identity in s.open.value.cq || !Has(s.open.value.sq, identity) then None
      else Some(s.(open := Some(s.open.value.(cq := s.open.value.cq[identity := result]))))
    case BatchEnd =>
      if s.open.None? || !Complete(s.open.value) then None
      else
        var o := s.open.value;
        Some(s.(open := None,
                batches := s.batches
                  + [Batch(o.start, n, o.submitter, o.window.fd, o.window.head, o.window.tail, Joined(o.sq, o.cq))],
                lastTail := s.lastTail[o.window.fd := o.window.tail]))
  }

  function Begin(): State { State(None, [], map[], None) }

  function After(setups: Option<map<int, int>>, lines: seq<Line>, n: nat): Option<State>
    requires n <= |lines|
  {
    if n == 0 then Some(Begin())
    else
      match After(setups, lines, n - 1)
      case None => None
      case Some(s) => Step(setups, s, lines[n - 1], n - 1)
  }

  predicate Finished(s: State) { s.open.None? && s.batches != [] }

  /** The batches of an acceptable log. */
  method Inspect(lines: seq<Line>, setups: Option<map<int, int>>) returns (r: Option<seq<Batch>>)
    ensures r.Some? <==> After(setups, lines, |lines|).Some? && Finished(After(setups, lines, |lines|).value)
    ensures r.Some? ==> r.value == After(setups, lines, |lines|).value.batches
    ensures r.Some? ==> Sound(setups, lines, r.value)
  {
    hide Step;
    var s := Begin();
    var n := 0;
    while n < |lines|
      invariant 0 <= n <= |lines| && After(setups, lines, n) == Some(s)
    {
      var next := Step(setups, s, lines[n], n);
      if next.None? {
        Stuck(setups, lines, n + 1);
        return None;
      }
      s := next.value;
      n := n + 1;
    }
    if !Finished(s) { return None; }
    AcceptedIsSound(setups, lines);
    return Some(s.batches);
  }

  lemma {:induction false} Stuck(setups: Option<map<int, int>>, lines: seq<Line>, n: nat)
    requires n <= |lines| && After(setups, lines, n).None?
    ensures After(setups, lines, |lines|).None?
    decreases |lines| - n
  {
    if n < |lines| { Stuck(setups, lines, n + 1); }
  }

  // ----- what a batch is, in terms of the log ----------------------------------------------------------

  /** The submission lines among lines lo..hi, in order. */
  function SqesIn(lines: seq<Line>, lo: nat, hi: nat): seq<Sqe>
    requires hi <= |lines|
    decreases hi
  {
    if hi <= lo then [] else SqesIn(lines, lo, hi - 1) + if lines[hi - 1].SqeLine? then [lines[hi - 1].sqe] else []
  }

  predicate CqeAt(lines: seq<Line>, lo: nat, hi: nat, k: nat, identity: int) {
    lo <= k < hi <= |lines| && lines[k].CqeLine? && lines[k].identity == identity
  }

  ghost predicate Reports(lines: seq<Line>, lo: nat, hi: nat, identity: int, result: int) {
    exists k: nat :: CqeAt(lines, lo, hi, k, identity) && lines[k].result == result
  }

  ghost predicate Describes(lines: seq<Line>, n: nat, o: Open)
    requires n <= |lines|
  {
    && o.start < n && lines[o.start] == BatchStart(o.window.fd, o.window.head, o.window.tail, 255)
    && o.sq == SqesIn(lines, o.start, n) && Distinct(o.sq) && Completes(lines, o.start, n, o.cq)
  }

  /** `cq` is what the completion lines among lo..hi say, one line per identity. */
  ghost predicate Completes(lines: seq<Line>, lo: nat, hi: nat, cq: map<int, int>)
    requires hi <= |lines|
  {
    && (forall id :: id in cq ==> Reports(lines, lo, hi, id, cq[id]))
    && (forall k: nat :: lo <= k < hi && lines[k].CqeLine? ==> lines[k].identity in cq)
    && (forall j: nat,
        k: nat :: lo <= j < k < hi && lines[j].CqeLine? && lines[k].CqeLine? ==> lines[j].identity != lines[k].identity)
  }

  predicate Distinct(sq: seq<Sqe>) { forall i, j :: 0 <= i < j < |sq| ==> sq[i].identity != sq[j].identity }

  /** The batch is exactly what its lines say: every submission with its own completion, and no
      other completion; as many as its window. */
  ghost predicate Faithful(lines: seq<Line>, b: Batch) {
    && b.start < b.end < |lines| && lines[b.start] == BatchStart(b.fd, b.head, b.tail, 255) && lines[b.end] == BatchEnd
    && |b.operations| == (b.tail - b.head) % TWO32
    && |b.operations| == |SqesIn(lines, b.start, b.end)|
    && (forall i :: 0 <= i < |b.operations| ==>
          && b.operations[i].sqe == SqesIn(lines, b.start, b.end)[i]
          && Reports(lines, b.start, b.end, b.operations[i].sqe.identity, b.operations[i].result))
    && Distinct(SqesIn(lines, b.start, b.end))
    && (forall k: nat ::
        b.start <= k < b.end && lines[k].CqeLine? ==> Has(SqesIn(lines, b.start, b.end), lines[k].identity))
    && (forall j: nat,
        k: nat :: b.start <= j < k < b.end && lines[j].CqeLine? && lines[k].CqeLine? ==>
          lines[j].identity != lines[k].identity)
  }

  lemma CompletesMore(lines: seq<Line>, lo: nat, hi: nat, cq: map<int, int>)
    requires lo <= hi < |lines| && Completes(lines, lo, hi, cq)
    ensures !lines[hi].CqeLine? ==> Completes(lines, lo, hi + 1, cq)
    ensures lines[hi].CqeLine? && lines[hi].identity !in cq ==>
            Completes(lines, lo, hi + 1, cq[lines[hi].identity := lines[hi].result])
  {
    forall id | id in cq ensures Reports(lines, lo, hi + 1, id, cq[id]) {
      var k: nat :| CqeAt(lines, lo, hi, k, id) && lines[k].result == cq[id];
      assert CqeAt(lines, lo, hi + 1, k, id);
    }
    if lines[hi].CqeLine? { assert CqeAt(lines, lo, hi + 1, hi, lines[hi].identity); }
  }

  lemma DistinctMore(sq: seq<Sqe>, q: Sqe)
    requires Distinct(sq) && !Has(sq, q.identity)
    ensures Distinct(sq + [q])
  {
  }

  /** What a line inside a batch does to it. */
  lemma InsideStep(setups: Option<map<int, int>>, s: State, line: Line, n: nat)
    requires s.open.Some? && Step(setups, s, line, n).Some? && Step(setups, s, line, n).value.open.Some?
    ensures var o, p := s.open.value, Step(setups, s, line, n).value.open.value;
            && p.start == o.start && p.window == o.window
            && p.sq == o.sq + (if line.SqeLine? then [line.sqe] else [])
            && p.cq == (if line.CqeLine? then o.cq[line.identity := line.result] else o.cq)
            && (line.SqeLine? ==> !Has(o.sq, line.sqe.identity)) && (line.CqeLine? ==> line.identity !in o.cq)
  {
    hide ExtraOk, Complete, Has;
  }

  lemma DescribesStep(setups: Option<map<int, int>>, lines: seq<Line>, n: nat, s: State)
    requires n < |lines| && s.open.Some? && Describes(lines, n, s.open.value) && Step(setups, s, lines[n], n).Some?
    requires Step(setups, s, lines[n], n).value.open.Some?
    ensures Describes(lines, n + 1, Step(setups, s, lines[n], n).value.open.value)
  {
    hide Step, Has, Completes, Distinct;
    var o := s.open.value;
    InsideStep(setups, s, lines[n], n);
    CompletesMore(lines, o.start, n, o.cq);
    if lines[n].SqeLine? { DistinctMore(o.sq, lines[n].sqe); } else { assert o.sq + [] == o.sq; }
  }

  lemma EndIsFaithful(setups: Option<map<int, int>>, lines: seq<Line>, n: nat, s: State)
    requires n < |lines| && s.open.Some? && Describes(lines, n, s.open.value) && lines[n].BatchEnd?
             && Complete(s.open.value)
    ensures Faithful(lines,
                     Batch(s.open.value.start, n, s.open.value.submitter, s.open.value.window.fd,
                           s.open.value.window.head,
                                  s.open.value.window.tail, Joined(s.open.value.sq, s.open.value.cq)))
  {
    var o := s.open.value;
    forall i | 0 <= i < |o.sq| ensures Reports(lines, o.start, n, o.sq[i].identity, o.cq[o.sq[i].identity]) {}
  }

  // ----- chains ------------------------------------------------------------------------------------------

  /** The tail where the ring's next batch must start. */
  function TailOf(batches: seq<Batch>, fd: int): Option<int> {
    if batches == [] then None
    else
      var b := batches[|batches| - 1];
      if b.fd == fd then Some(b.tail) else TailOf(batches[..|batches| - 1], fd)
  }

  function HeadOf(batches: seq<Batch>, fd: int): Option<int> {
    if batches == [] then None
    else
      var front := HeadOf(batches[..|batches| - 1], fd);
      var b := batches[|batches| - 1];
      if front.Some? then front else if b.fd == fd then Some(b.head) else None
  }

  function OperationsOf(batches: seq<Batch>, fd: int): nat {
    if batches == [] then 0
    else
      var b := batches[|batches| - 1];
      OperationsOf(batches[..|batches| - 1], fd) + if b.fd == fd then |b.operations| else 0
  }

  /** Every batch starts where the ring's previous batch ended. */
  ghost predicate Chained(batches: seq<Batch>) {
    forall i :: 0 <= i < |batches| ==>
      TailOf(batches[..i], batches[i].fd).Some? ==> TailOf(batches[..i], batches[i].fd).value == batches[i].head
  }

  ghost predicate Sound(setups: Option<map<int, int>>, lines: seq<Line>, batches: seq<Batch>) {
    && (forall i :: 0 <= i < |batches| ==> Faithful(lines, batches[i]))
    && Chained(batches)
    && (forall i, j :: 0 <= i < j < |batches| ==> batches[i].end < batches[j].start)
    && (setups.Some? ==> forall i :: 0 <= i < |batches| ==>
          batches[i].fd in setups.value && setups.value[batches[i].fd] < batches[i].start)
  }

  ghost predicate Inv(setups: Option<map<int, int>>, lines: seq<Line>, n: nat, s: State)
    requires n <= |lines|
  {
    && Sound(setups, lines, s.batches)
    && (forall i :: 0 <= i < |s.batches| ==> s.batches[i].end < n)
    && (forall fd ::
        (fd in s.lastTail <==> TailOf(s.batches, fd).Some?)
          && (fd in s.lastTail ==> TailOf(s.batches, fd) == Some(s.lastTail[fd])))
    && (s.open.Some? ==>
          && Describes(lines, n, s.open.value)
          && (forall i :: 0 <= i < |s.batches| ==> s.batches[i].end < s.open.value.start)
          && Continues(s, s.open.value.window)
          && (setups.Some? ==>
              s.open.value.window.fd in setups.value && setups.value[s.open.value.window.fd] < s.open.value.start))
  }

  predicate Continues(s: State, w: Window) { w.fd in s.lastTail ==> s.lastTail[w.fd] == w.head }

  lemma TailPush(batches: seq<Batch>, b: Batch, fd: int)
    ensures TailOf(batches + [b], fd) == if b.fd == fd then Some(b.tail) else TailOf(batches, fd)
  {
    assert (batches + [b])[..|batches|] == batches;
  }

  lemma SoundPush(setups: Option<map<int, int>>, lines: seq<Line>, batches: seq<Batch>, b: Batch)
    requires Sound(setups, lines, batches) && Faithful(lines, b)
    requires TailOf(batches, b.fd).Some? ==> TailOf(batches, b.fd).value == b.head
    requires forall i :: 0 <= i < |batches| ==> batches[i].end < b.start
    requires setups.Some? ==> b.fd in setups.value && setups.value[b.fd] < b.start
    ensures Sound(setups, lines, batches + [b])
  {
    hide Faithful;
    var grown := batches + [b];
    forall i | 0 <= i < |grown|
      ensures TailOf(grown[..i], grown[i].fd).Some? ==> TailOf(grown[..i], grown[i].fd).value == grown[i].head {
      if i < |batches| { assert grown[..i] == batches[..i]; } else { assert grown[..i] == batches; }
    }
  }

  lemma StepEnd(setups: Option<map<int, int>>, lines: seq<Line>, n: nat, s: State)
    requires n < |lines| && Inv(setups, lines, n, s) && lines[n].BatchEnd? && Step(setups, s, lines[n], n).Some?
    ensures Inv(setups, lines, n + 1, Step(setups, s, lines[n], n).value)
  {
    hide Sound, Describes, Faithful;
    var o := s.open.value;
    var b := Batch(o.start, n, o.submitter, o.window.fd, o.window.head, o.window.tail, Joined(o.sq, o.cq));
    EndIsFaithful(setups, lines, n, s);
    SoundPush(setups, lines, s.batches, b);
    forall fd ensures TailOf(s.batches + [b], fd) == if b.fd == fd then Some(b.tail) else TailOf(s.batches, fd) {
      TailPush(s.batches, b, fd);
    }
  }

  lemma FreshDescribes(lines: seq<Line>, n: nat, o: Open)
    requires n < |lines| && o.start == n && lines[n] == BatchStart(o.window.fd, o.window.head, o.window.tail, 255)
    requires o.sq == [] && o.cq == map[]
    ensures Describes(lines, n + 1, o)
  {
    assert SqesIn(lines, n, n) == [];
    assert SqesIn(lines, n, n + 1) == [];
  }

  lemma StepStart(setups: Option<map<int, int>>, lines: seq<Line>, n: nat, s: State)
    requires n < |lines| && Inv(setups, lines, n, s) && lines[n].BatchStart? && Step(setups, s, lines[n], n).Some?
    ensures Inv(setups, lines, n + 1, Step(setups, s, lines[n], n).value)
  {
    hide Sound, Faithful, Describes;
    FreshDescribes(lines, n, Step(setups, s, lines[n], n).value.open.value);
  }

  lemma StepFrame(setups: Option<map<int, int>>, s: State, line: Line, n: nat)
    requires !line.BatchStart? && !line.BatchEnd? && Step(setups, s, line, n).Some?
    ensures var t := Step(setups, s, line, n).value;
            && t.batches == s.batches && t.lastTail == s.lastTail && (t.open.Some? <==> s.open.Some?)
            && (s.open.Some? ==> t.open.value.start == s.open.value.start && t.open.value.window == s.open.value.window)
  {
    hide Has, ExtraOk;
  }

  lemma StepInside(setups: Option<map<int, int>>, lines: seq<Line>, n: nat, s: State)
    requires n < |lines| && Inv(setups, lines, n, s) && !lines[n].BatchStart? && !lines[n].BatchEnd?
             && Step(setups, s, lines[n], n).Some?
    ensures Inv(setups, lines, n + 1, Step(setups, s, lines[n], n).value)
  {
    hide Step, Sound, Describes;
    StepFrame(setups, s, lines[n], n);
    if s.open.Some? { DescribesStep(setups, lines, n, s); }
  }

  lemma {:induction false} RunInv(setups: Option<map<int, int>>, lines: seq<Line>, n: nat)
    requires n <= |lines| && After(setups, lines, n).Some?
    ensures Inv(setups, lines, n, After(setups, lines, n).value)
  {
    hide Step, Inv;
    if n == 0 {
      BeginInv(setups, lines);
    } else {
      RunInv(setups, lines, n - 1);
      var s := After(setups, lines, n - 1).value;
      match lines[n - 1] {
        case BatchStart(_, _, _, _) => StepStart(setups, lines, n - 1, s);
        case BatchEnd => StepEnd(setups, lines, n - 1, s);
        case _ => StepInside(setups, lines, n - 1, s);
      }
    }
  }

  lemma BeginInv(setups: Option<map<int, int>>, lines: seq<Line>)
    ensures Inv(setups, lines, 0, Begin())
  {
  }

  /** In an accepted log every batch is what its lines say, batches of a ring are gapless, and
      batches do not interleave. */
  lemma AcceptedIsSound(setups: Option<map<int, int>>, lines: seq<Line>)
    requires After(setups, lines, |lines|).Some?
    ensures Sound(setups, lines, After(setups, lines, |lines|).value.batches)
  {
    RunInv(setups, lines, |lines|);
  }

  /** Gapless windows: a ring's operations are its last tail minus its first head, modulo 2^32. */
  lemma {:induction false} WindowsAddUp(lines: seq<Line>, batches: seq<Batch>, fd: int)
    requires Chained(batches) && forall i :: 0 <= i < |batches| ==> Faithful(lines, batches[i])
    ensures HeadOf(batches, fd).Some? <==> TailOf(batches, fd).Some?
    ensures HeadOf(batches, fd).Some? ==>
              (TailOf(batches, fd).value - HeadOf(batches, fd).value - OperationsOf(batches, fd)) % TWO32 == 0
    ensures HeadOf(batches, fd).None? ==> OperationsOf(batches, fd) == 0
  {
    hide Faithful, Chained;
    if batches != [] {
      var n := |batches| - 1;
      var b := batches[n];
      ChainedFront(batches);
      WindowsAddUp(lines, batches[..n], fd);
      FaithfulCount(lines, b);
      if b.fd == fd && HeadOf(batches[..n], fd).Some? {
        WindowSum(HeadOf(batches[..n], fd).value, b.head, b.tail, OperationsOf(batches[..n], fd), |b.operations|);
      }
    }
  }

  lemma ChainedFront(batches: seq<Batch>)
    requires Chained(batches) && batches != []
    ensures var n := |batches| - 1;
            && Chained(batches[..n])
            && (TailOf(batches[..n], batches[n].fd).Some? ==>
                TailOf(batches[..n], batches[n].fd).value == batches[n].head)
  {
    var front := batches[..|batches| - 1];
    forall i | 0 <= i < |front|
      ensures TailOf(front[..i], front[i].fd).Some? ==> TailOf(front[..i], front[i].fd).value == front[i].head {
      assert front[..i] == batches[..i];
    }
  }

  lemma WindowSum(first: int, head: int, tail: int, before: int, count: int)
    requires (head - first - before) % TWO32 == 0 && count == (tail - head) % TWO32
    ensures (tail - first - (before + count)) % TWO32 == 0
  {
    var k := (head - first - before) / TWO32;
    var l := (tail - head) / TWO32;
    assert tail - first - (before + count) == (k + l) * TWO32;
  }

  lemma FaithfulCount(lines: seq<Line>, b: Batch)
    requires Faithful(lines, b)
    ensures |b.operations| == (b.tail - b.head) % TWO32
  {
  }

  // ----- outcomes --------------------------------------------------------------------------------------------

  function Outcomes(operations: seq<Operation>, succeeded: bool): nat {
    if operations == [] then 0
    else
      Outcomes(operations[..|operations| - 1], succeeded)
      + if (operations[|operations| - 1].result >= 0) == succeeded then 1 else 0
  }

  function Total(batches: seq<Batch>, succeeded: bool): nat {
    if batches == [] then 0
    else Total(batches[..|batches| - 1], succeeded) + Outcomes(batches[|batches| - 1].operations, succeeded)
  }

  function Operations(batches: seq<Batch>): nat {
    if batches == [] then 0 else Operations(batches[..|batches| - 1]) + |batches[|batches| - 1].operations|
  }

  lemma {:induction false} OutcomesAddUp(operations: seq<Operation>)
    ensures Outcomes(operations, true) + Outcomes(operations, false) == |operations|
  {
    if operations != [] { OutcomesAddUp(operations[..|operations| - 1]); }
  }

  /** Every operation succeeded or failed. */
  lemma {:induction false} TotalsAddUp(batches: seq<Batch>)
    ensures Total(batches, true) + Total(batches, false) == Operations(batches)
  {
    if batches != [] {
      TotalsAddUp(batches[..|batches| - 1]);
      OutcomesAddUp(batches[|batches| - 1].operations);
    }
  }
}
