/** When a debugger log is accepted, line by line and in terms of the lines alone, and what each of
    its batches is. */
module WindowHistory {
  import opened Trace
  import opened Windows

  // ----- reading back from a line ---------------------------------------------------------------

  /** The start of the batch that line n is in, if it is in one. */
  function OpenAt(lines: seq<Line>, n: nat): (r: Option<nat>)
    requires n <= |lines|
    ensures r.Some? ==> r.value < n && lines[r.value].BatchStart?
  {
    if n == 0 || lines[n - 1].BatchEnd? then None
    else if lines[n - 1].BatchStart? then Some(n - 1)
    else OpenAt(lines, n - 1)
  }

  /** The last batch start of a ring before line n. */
  function LastStart(lines: seq<Line>, n: nat, fd: int): (r: Option<nat>)
    requires n <= |lines|
    ensures r.Some? ==> r.value < n && lines[r.value].BatchStart?
  {
    if n == 0 then None
    else if lines[n - 1].BatchStart? && lines[n - 1].fd == fd then Some(n - 1)
    else LastStart(lines, n - 1, fd)
  }

  /** The submitter announced since the last batch started. */
  function Announced(lines: seq<Line>, n: nat): Option<int>
    requires n <= |lines|
  {
    if n == 0 || lines[n - 1].BatchStart? then None
    else if lines[n - 1].Submitter? then Some(lines[n - 1].tid)
    else Announced(lines, n - 1)
  }

  /** The value returned to the batch, if its call has returned. */
  function Returned(lines: seq<Line>, lo: nat, n: nat): Option<int>
    requires n <= |lines|
    decreases n
  {
    if n <= lo then None else if lines[n - 1].Return? then Some(lines[n - 1].value) else Returned(lines, lo, n - 1)
  }

  predicate Completing(lines: seq<Line>, lo: nat, n: nat)
    requires n <= |lines|
  {
    exists k :: lo <= k < n && lines[k].Completions?
  }

  predicate Submitted(lines: seq<Line>, lo: nat, n: nat, identity: int)
    requires n <= |lines|
  {
    exists k :: lo <= k < n && lines[k].SqeLine? && lines[k].sqe.identity == identity
  }

  predicate Completed(lines: seq<Line>, lo: nat, n: nat, identity: int)
    requires n <= |lines|
  {
    exists k :: lo <= k < n && lines[k].CqeLine? && lines[k].identity == identity
  }

  /** The size of a window of free-running 32-bit counters. */
  function Size(head: int, tail: int): int { (tail - head) % 0x1_0000_0000 }

  /** The size of the window that starts at a batch start. */
  function WindowAt(lines: seq<Line>, lo: nat): int
    requires lo < |lines| && lines[lo].BatchStart?
  {
    Size(lines[lo].head, lines[lo].tail)
  }

  /** Submissions carry nothing more, or a control operation on a plain descriptor without flags. */
  predicate Supported(q: Sqe) {
    match q.extra
    case Plain => true
    case Control(target, operation) =>
      q.opcode == 29 && target <= 2147483647 && (operation == 1 || operation == 2 || operation == 3)
    case ControlFlags(target, operation, flags) =>
      q.opcode == 29 && target <= 2147483647 && (operation == 1 || operation == 2 || operation == 3) && flags == 0
    case Malformed => false
  }

  /** The line is right where it stands. */
  ghost predicate LineRight(setups: Option<map<int, int>>, lines: seq<Line>, n: nat)
    requires n < |lines|
  {
    var open := OpenAt(lines, n);
    match lines[n]
    case BatchStart(fd, head, tail, mask) =>
      && open.None? && mask == 255 && 0 < Size(head, tail) <= 256
      && (setups.Some? ==> fd in setups.value && setups.value[fd] < n)
      && var last := LastStart(lines, n, fd);
         last.Some? ==> lines[last.value].tail == head
    case SqeLine(q) =>
      && open.Some? && Returned(lines, open.value, n).None?
      && 0 <= q.index <= 255 && Supported(q) && !Submitted(lines, open.value, n, q.identity)
    case Return(value) =>
      && open.Some? && Returned(lines, open.value, n).None?
      && |SqesIn(lines, open.value, n)| == WindowAt(lines, open.value)
    case Completions(fd, head, tail, mask) =>
      && open.Some? && Returned(lines, open.value, n).Some? && !Completing(lines, open.value, n)
      && fd == lines[open.value].fd && head == lines[open.value].head && mask == 511
      && Size(head, tail) == WindowAt(lines, open.value)
    case CqeLine(identity, result, flags) =>
      && open.Some? && Completing(lines, open.value, n) && flags == 0
      && -0x8000_0000 <= result < 0x8000_0000 && 0 <= identity < 0x1_0000_0000_0000_0000
      && Submitted(lines, open.value, n, identity) && !Completed(lines, open.value, n, identity)
    case BatchEnd =>
      && open.Some? && Completing(lines, open.value, n)
      && Returned(lines, open.value, n) == Some(WindowAt(lines, open.value))
      && |SqesIn(lines, open.value, n)| == WindowAt(lines, open.value)
      && forall id :: Submitted(lines, open.value, n, id) <==> Completed(lines, open.value, n, id)
    case Submitter(_) => true
    case OtherLine => true
  }

  // ----- the reader's state says the same ---------------------------------------------------------

  ghost predicate OpenRight(lines: seq<Line>, n: nat, o: Open)
    requires n <= |lines|
  {
    && o.start < n && lines[o.start].BatchStart?
    && o.window == Window(lines[o.start].fd, lines[o.start].head, lines[o.start].tail)
    && o.submitter == Announced(lines, o.start) && o.sq == SqesIn(lines, o.start, n)
    && o.returned == Returned(lines, o.start, n) && (o.completing <==> Completing(lines, o.start, n))
    && (forall id :: Has(o.sq, id) <==> Submitted(lines, o.start, n, id))
    && (forall id :: id in o.cq <==> Completed(lines, o.start, n, id))
  }

  ghost predicate StateRight(lines: seq<Line>, n: nat, s: State)
    requires n <= |lines|
  {
    && (s.open.Some? <==> OpenAt(lines, n).Some?)
    && (s.open.Some? ==> s.open.value.start == OpenAt(lines, n).value && OpenRight(lines, n, s.open.value))
    && s.submitter == Announced(lines, n)
    && (s.open.None? ==> forall fd :: TailRight(lines, n, s, fd))
    && (s.open.Some? ==> forall fd :: fd != s.open.value.window.fd ==> TailRight(lines, n, s, fd))
  }

  predicate TailRight(lines: seq<Line>, n: nat, s: State, fd: int)
    requires n <= |lines|
  {
    var last := LastStart(lines, n, fd);
    && (fd in s.lastTail <==> last.Some?)
    && (fd in s.lastTail ==> s.lastTail[fd] == lines[last.value].tail)
  }

  lemma HasMore(sq: seq<Sqe>, q: Sqe, id: int)
    ensures Has(sq + [q], id) <==> Has(sq, id) || q.identity == id
  {
    if Has(sq, id) { var i :| 0 <= i < |sq| && sq[i].identity == id; assert (sq + [q])[i].identity == id; }
    assert (sq + [q])[|sq|] == q;
  }

  lemma SeenMore(lines: seq<Line>, lo: nat, n: nat, id: int)
    requires lo <= n < |lines|
    ensures Submitted(lines, lo, n + 1, id) <==>
            Submitted(lines, lo, n, id) || (lines[n].SqeLine? && lines[n].sqe.identity == id)
    ensures Completed(lines, lo, n + 1, id) <==>
            Completed(lines, lo, n, id) || (lines[n].CqeLine? && lines[n].identity == id)
    ensures Completing(lines, lo, n + 1) <==> Completing(lines, lo, n) || lines[n].Completions?
  {
  }

  /** A step is allowed exactly for a right line. */
  lemma StepAllowed(setups: Option<map<int, int>>, lines: seq<Line>, n: nat, s: State)
    requires n < |lines| && StateRight(lines, n, s)
    ensures Step(setups, s, lines[n], n).Some? <==> LineRight(setups, lines, n)
  {
    hide SqesIn, Announced;
    match lines[n]
    case BatchStart(fd, _, _, _) => if s.open.None? { assert TailRight(lines, n, s, fd); }
    case SqeLine(q) =>
      if s.open.Some? {
        assert Has(s.open.value.sq, q.identity) <==> Submitted(lines, s.open.value.start, n, q.identity);
      }
    case BatchEnd => if s.open.Some? { EndAllowed(lines, n, s.open.value); }
    case _ =>
  }

  lemma EndAllowed(lines: seq<Line>, n: nat, o: Open)
    requires n < |lines| && OpenRight(lines, n, o)
    ensures Windows.Complete(o) <==>
            && Completing(lines, o.start, n) && Returned(lines, o.start, n) == Some(WindowAt(lines, o.start))
            && |SqesIn(lines, o.start, n)| == WindowAt(lines, o.start)
            && forall id :: Submitted(lines, o.start, n, id) <==> Completed(lines, o.start, n, id)
  {
    hide SqesIn, Submitted, Completed, Completing, Announced;
    if Windows.Complete(o) {
      forall id ensures Submitted(lines, o.start, n, id) <==> Completed(lines, o.start, n, id) {
        assert Has(o.sq, id) <==> Submitted(lines, o.start, n, id);
        if Has(o.sq, id) { var i :| 0 <= i < |o.sq| && o.sq[i].identity == id; }
      }
    }
    if forall id :: Submitted(lines, o.start, n, id) <==> Completed(lines, o.start, n, id) {
      forall i | 0 <= i < |o.sq| ensures o.sq[i].identity in o.cq {
        assert Has(o.sq, o.sq[i].identity);
      }
    }
  }

  lemma InsideKeeps(setups: Option<map<int, int>>, lines: seq<Line>, n: nat, s: State)
    requires n < |lines| && StateRight(lines, n, s) && s.open.Some?
    requires Step(setups, s, lines[n], n).Some? && !lines[n].BatchEnd?
    ensures var t := Step(setups, s, lines[n], n).value;
            && t.open.Some? && t.open.value.start == s.open.value.start && OpenRight(lines, n + 1, t.open.value)
            && t.lastTail == s.lastTail && t.batches == s.batches
  {
    hide ExtraOk, Windows.Complete, Has, Submitted, Completed, Completing, Announced;
    var o := s.open.value;
    var t := Step(setups, s, lines[n], n).value;
    forall id
      ensures Submitted(lines, o.start, n + 1, id) <==>
              Submitted(lines, o.start, n, id) || (lines[n].SqeLine? && lines[n].sqe.identity == id)
      ensures Completed(lines, o.start, n + 1, id) <==>
              Completed(lines, o.start, n, id) || (lines[n].CqeLine? && lines[n].identity == id)
      ensures Completing(lines, o.start, n + 1) <==> Completing(lines, o.start, n) || lines[n].Completions?
      ensures lines[n].SqeLine? ==> (Has(o.sq + [lines[n].sqe], id) <==> Has(o.sq, id) || lines[n].sqe.identity == id)
    {
      SeenMore(lines, o.start, n, id);
      if lines[n].SqeLine? { HasMore(o.sq, lines[n].sqe, id); }
    }
    SeenMore(lines, o.start, n, 0);
    assert !lines[n].SqeLine? ==> t.open.value.sq == o.sq;
  }

  lemma StartKeeps(setups: Option<map<int, int>>, lines: seq<Line>, n: nat, s: State)
    requires n < |lines| && StateRight(lines, n, s) && lines[n].BatchStart? && Step(setups, s, lines[n], n).Some?
    ensures var t := Step(setups, s, lines[n], n).value;
            && t.open.Some? && t.open.value.start == n && OpenRight(lines, n + 1, t.open.value)
            && t.lastTail == s.lastTail && t.submitter == None && s.open.None? && t.batches == s.batches
  {
    assert SqesIn(lines, n, n) == [];
    assert Returned(lines, n, n) == None;
  }

  lemma StepKeeps(setups: Option<map<int, int>>, lines: seq<Line>, n: nat, s: State)
    requires n < |lines| && StateRight(lines, n, s) && Step(setups, s, lines[n], n).Some?
    ensures StateRight(lines, n + 1, Step(setups, s, lines[n], n).value)
  {
    hide OpenRight, ExtraOk, Windows.Complete, Has, SqesIn;
    var t := Step(setups, s, lines[n], n).value;
    var m := n + 1;
    if lines[n].BatchStart? {
      StartKeeps(setups, lines, n, s);
      forall fd | fd != lines[n].fd ensures TailRight(lines, m, t, fd) { assert TailRight(lines, n, s, fd); }
      OpenWindow(lines, m, t.open.value);
    } else if lines[n].BatchEnd? {
      EndTails(setups, lines, n, s);
    } else if s.open.Some? {
      InsideKeeps(setups, lines, n, s);
      OpenWindow(lines, n, s.open.value);
      OpenWindow(lines, m, t.open.value);
      forall fd | fd != t.open.value.window.fd ensures TailRight(lines, m, t, fd) { assert TailRight(lines, n, s, fd); }
    } else {
      forall fd ensures TailRight(lines, m, t, fd) { assert TailRight(lines, n, s, fd); }
    }
  }

  lemma OpenWindow(lines: seq<Line>, n: nat, o: Open)
    requires n <= |lines| && OpenRight(lines, n, o)
    ensures o.start < n && lines[o.start].BatchStart?
    ensures o.window == Window(lines[o.start].fd, lines[o.start].head, lines[o.start].tail)
  {
  }

  lemma {:induction false} OpenIsLast(lines: seq<Line>, n: nat)
    requires n <= |lines| && OpenAt(lines, n).Some?
    ensures LastStart(lines, n, lines[OpenAt(lines, n).value].fd) == OpenAt(lines, n)
  {
    if !lines[n - 1].BatchStart? { OpenIsLast(lines, n - 1); }
  }

  lemma EndTails(setups: Option<map<int, int>>, lines: seq<Line>, n: nat, s: State)
    requires n < |lines| && StateRight(lines, n, s) && lines[n].BatchEnd? && Step(setups, s, lines[n], n).Some?
    ensures var t := Step(setups, s, lines[n], n).value;
            var m := n + 1;
            t.open.None? && t.submitter == s.submitter && forall fd :: TailRight(lines, m, t, fd)
  {
    hide Windows.Complete, SqesIn, Announced;
    var t := Step(setups, s, lines[n], n).value;
    var m := n + 1;
    OpenIsLast(lines, n);
    forall fd ensures TailRight(lines, m, t, fd) {
      if fd != s.open.value.window.fd { assert TailRight(lines, n, s, fd); }
    }
  }

  lemma {:induction false} RunKeeps(setups: Option<map<int, int>>, lines: seq<Line>, n: nat)
    requires n <= |lines|
    ensures After(setups, lines, n).Some? <==> forall k :: 0 <= k < n ==> LineRight(setups, lines, k)
    ensures After(setups, lines, n).Some? ==> StateRight(lines, n, After(setups, lines, n).value)
  {
    hide Step, StateRight, LineRight;
    if n == 0 {
      NothingRead(lines);
    } else {
      RunKeeps(setups, lines, n - 1);
      if After(setups, lines, n - 1).Some? {
        var s := After(setups, lines, n - 1).value;
        StepAllowed(setups, lines, n - 1, s);
        if Step(setups, s, lines[n - 1], n - 1).Some? { StepKeeps(setups, lines, n - 1, s); }
      }
    }
  }

  lemma NothingRead(lines: seq<Line>)
    ensures StateRight(lines, 0, Begin())
  {
  }

  // ----- the batches of an accepted log -------------------------------------------------------------

  /** The lines that end a batch. */
  function Ends(lines: seq<Line>, n: nat): seq<nat>
    requires n <= |lines|
  {
    if n == 0 then [] else Ends(lines, n - 1) + if lines[n - 1].BatchEnd? then [n - 1] else []
  }

  /** The batch ended by line k: its start's window and submitter, and each of its submissions, in order, with
      what its own completion says. */
  ghost predicate BatchRight(lines: seq<Line>, k: nat, b: Batch)
    requires k < |lines|
  {
    && OpenAt(lines, k) == Some(b.start) && b.end == k
    && b.fd == lines[b.start].fd && b.head == lines[b.start].head && b.tail == lines[b.start].tail
    && b.submitter == Announced(lines, b.start)
    && |b.operations| == |SqesIn(lines, b.start, k)|
    && forall i :: 0 <= i < |b.operations| ==>
         b.operations[i].sqe == SqesIn(lines, b.start, k)[i]
         && exists c :: b.start <= c < k && lines[c].CqeLine? && lines[c].identity == b.operations[i].sqe.identity
                        && lines[c].result == b.operations[i].result
  }

  ghost predicate BatchesRight(lines: seq<Line>, n: nat, batches: seq<Batch>)
    requires n <= |lines|
  {
    && |batches| == |Ends(lines, n)|
    && forall i ::
         0 <= i < |batches| ==> Ends(lines, n)[i] < |lines| && BatchRight(lines, Ends(lines, n)[i], batches[i])
  }

  lemma {:induction false} BatchesMean(setups: Option<map<int, int>>, lines: seq<Line>, n: nat)
    requires n <= |lines| && After(setups, lines, n).Some?
    ensures BatchesRight(lines, n, After(setups, lines, n).value.batches)
  {
    hide BatchRight, StateRight, Inv;
    if n > 0 {
      BatchesMean(setups, lines, n - 1);
      RunKeeps(setups, lines, n - 1);
      RunInv(setups, lines, n - 1);
      StepBatches(setups, lines, n - 1, After(setups, lines, n - 1).value);
      hide Step;
    }
  }

  lemma StepBatches(setups: Option<map<int, int>>, lines: seq<Line>, n: nat, s: State)
    requires n < |lines| && StateRight(lines, n, s) && Inv(setups, lines, n, s) && Step(setups, s, lines[n], n).Some?
    ensures var t := Step(setups, s, lines[n], n).value;
            if lines[n].BatchEnd? then
              |t.batches| == |s.batches| + 1 && s.batches < t.batches && BatchRight(lines, n, t.batches[|s.batches|])
            else t.batches == s.batches
  {
    hide ExtraOk, Has, Sound, SqesIn, Announced, TailRight;
    if lines[n].BatchEnd? {
      EndRight(lines, n, s.open.value);
    }
  }

  lemma EndRight(lines: seq<Line>, n: nat, o: Open)
    requires n < |lines| && OpenRight(lines, n, o) && Describes(lines, n, o) && Windows.Complete(o)
    requires OpenAt(lines, n) == Some(o.start)
    ensures BatchRight(lines, n,
                       Batch(o.start, n, o.submitter, o.window.fd, o.window.head, o.window.tail, Joined(o.sq, o.cq)))
  {
    hide SqesIn, Announced, Has, Submitted, Completed, Distinct;
    var b := Batch(o.start, n, o.submitter, o.window.fd, o.window.head, o.window.tail, Joined(o.sq, o.cq));
    assert o.submitter == Announced(lines, o.start) && o.sq == SqesIn(lines, o.start, n);
    forall i | 0 <= i < |b.operations|
      ensures b.operations[i].sqe == SqesIn(lines, o.start, n)[i]
      ensures exists c :: o.start <= c < n && lines[c].CqeLine? && lines[c].identity == b.operations[i].sqe.identity
                          && lines[c].result == b.operations[i].result
    {
      var id := o.sq[i].identity;
      assert Reports(lines, o.start, n, id, o.cq[id]);
      var c: nat :| CqeAt(lines, o.start, n, c, id) && lines[c].result == o.cq[id];
      assert lines[c].CqeLine? && lines[c].identity == id;
    }
  }

  /** The log is accepted exactly if every line is right where it stands, no batch is left open and there is one;
      then the answer is the batches its lines make, in order. */
  lemma AcceptedMeans(setups: Option<map<int, int>>, lines: seq<Line>)
    ensures After(setups, lines, |lines|).Some? && Finished(After(setups, lines, |lines|).value) <==>
            && (forall k :: 0 <= k < |lines| ==> LineRight(setups, lines, k))
            && OpenAt(lines, |lines|).None? && Ends(lines, |lines|) != []
    ensures After(setups, lines, |lines|).Some? ==>
            BatchesRight(lines, |lines|, After(setups, lines, |lines|).value.batches)
  {
    hide LineRight, BatchRight, OpenRight, TailRight;
    RunKeeps(setups, lines, |lines|);
    if After(setups, lines, |lines|).Some? { BatchesMean(setups, lines, |lines|); }
  }
}
