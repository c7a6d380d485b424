/** The IPC job protocol: what an error-free run says about every job. */
module IpcProtocol {
  import opened Trace
  import opened Attribution
  import opened Replay
  import opened MarkerFacts

  datatype Mark = Mark(kind: Kind, tid: Tid, request: Context)

  predicate IpcKind(kind: Kind) { kind.IpcSend? || kind.IpcEnter? || kind.IpcLeave? || kind.IpcCancel? }

  predicate About(line: Line, j: string) {
    line.MarkerLine? && IpcKind(line.note.kind) && line.note.job == Some(j)
  }

  /** The markers about job `j`, in trace order. */
  function Marks(lines: seq<Line>, j: string): seq<Mark> {
    if lines == [] then []
    else
      var line := lines[|lines| - 1];
      Marks(lines[..|lines| - 1], j)
      + if About(line, j) then [Mark(line.note.kind, line.at.tid, line.note.request)] else []
  }

  /** A job was sent once and then entered and left by one thread, or cancelled unentered,
      always under the request it was sent with. */
  predicate Finished(marks: seq<Mark>) {
    && marks != [] && marks[0].kind.IpcSend?
    && (forall i :: 0 <= i < |marks| ==> marks[i].request == marks[0].request)
    && (|| (|marks| == 3 && marks[1].kind.IpcEnter? && marks[2].kind.IpcLeave? && marks[1].tid == marks[2].tid)
        || (|marks| == 2 && marks[1].kind.IpcCancel?))
  }

  /** Sent, entered by `tid`, and not yet left. */
  predicate Inside(marks: seq<Mark>, tid: Tid) {
    |marks| == 2 && marks[0].kind.IpcSend? && marks[1].kind.IpcEnter? && marks[1].tid == tid
  }

  // ----- invariant -------------------------------------------------------------------------

  /** The record of job `j` summarises its markers. */
  predicate Fits(ipc: Ipc, j: string, marks: seq<Mark>) {
    if j !in ipc.jobs then marks == []
    else
      var job := ipc.jobs[j];
      && marks != [] && marks[0].kind.IpcSend?
      && (forall i :: 0 <= i < |marks| ==> marks[i].request == job.request)
      && (if job.started && job.finished then
            !job.cancelled && |marks| == 3 && marks[1].kind.IpcEnter? && marks[2].kind.IpcLeave?
              && marks[1].tid == marks[2].tid
          else if job.started then
            !job.cancelled && |marks| == 2 && Inside(marks, marks[1].tid) && marks[1].tid in ipc.running
              && ipc.running[marks[1].tid] == j
          else if job.finished then job.cancelled && |marks| == 2 && marks[1].kind.IpcCancel?
          else !job.cancelled && |marks| == 1)
  }

  /** A thread running a job carries that job and its request. */
  predicate Carries(s: State, lines: seq<Line>, t: Tid) {
    t in s.ipc.running ==>
      var j := s.ipc.running[t];
      && j in s.ipc.jobs && s.ipc.jobs[j].started && !s.ipc.jobs[j].finished && Inside(Marks(lines, j), t)
      && t in s.threads && s.threads[t].origin == IpcWorker && s.threads[t].job == Some(j)
      && s.threads[t].request == s.ipc.jobs[j].request && s.threads[t].operation == 0
  }

  ghost predicate Inv(s: State, lines: seq<Line>) {
    && (forall j :: Fits(s.ipc, j, Marks(lines, j)))
    && (forall t :: Carries(s, lines, t))
  }

  // ----- one line ------------------------------------------------------------------------------

  /** The effect of an IPC marker that raises no error. */
  lemma IpcMarker(m: Mapping, s: State, at: Stamp, n: Marker)
    requires IpcKind(n.kind) && MarkerStep(m, s, at, n).errors == s.errors
    ensures n.job.Some? && MarkerStep(m, s, at, n).works == s.works && MarkerStep(m, s, at, n).effects == s.effects
    ensures var g := MarkerStep(m, s, at, n);
            var j := n.job.value;
            match n.kind
            case IpcSend =>
              && j !in s.ipc.jobs && ContextOf(s, at).Some? && RequestOf(ContextOf(s, at)) == n.request
              && g.ipc == PutJob(s.ipc, j, Job(n.request, false, false, false)) && g.threads == s.threads
              && g.graph == s.graph + SendRecords(m, ContextOf(s, at), n)
            case IpcCancel =>
              && Waiting(JobOf(s.ipc, n.job), n.request) && g.threads == s.threads
              && g.ipc == PutJob(s.ipc, j, s.ipc.jobs[j].(finished := true, cancelled := true))
              && g.graph ==
                   s.graph + [Node(CancelNode(n.job)),
                              Edge(IpcNode(n.job), CancelNode(n.job), CancelledBeforeExecution)]
            case IpcEnter =>
              && Waiting(JobOf(s.ipc, n.job), n.request) && at.tid !in s.ipc.running
              && g.ipc == PutJob(s.ipc, j, s.ipc.jobs[j].(started := true)).(running := s.ipc.running[at.tid := j])
              && g.threads == s.threads[at.tid := Ctx(n.request, 0, IpcWorker, n.job, Observed(at.source))]
              && g.graph == s.graph
            case _ =>
              && j in s.ipc.jobs && at.tid in s.ipc.running && s.ipc.running[at.tid] == j
              && at.tid in s.threads && s.threads[at.tid].request == n.request
              && g.ipc == PutJob(s.ipc, j, s.ipc.jobs[j].(finished := true)).(running := s.ipc.running - {at.tid})
              && g.threads == s.threads[at.tid := Ctx(0, 0, AsyncContext, None, Observed(at.source))]
              && g.graph == s.graph
  {
    hide SendRecords;
  }

  /** Other markers leave jobs alone, and never change the context of a thread in a job. */
  lemma OtherMarker(m: Mapping, s: State, at: Stamp, n: Marker)
    requires !IpcKind(n.kind) && MarkerStep(m, s, at, n).errors == s.errors
    ensures MarkerStep(m, s, at, n).ipc == s.ipc
    ensures forall t :: t in s.ipc.running ==>
              (t in MarkerStep(m, s, at, n).threads <==> t in s.threads)
              && (t in s.threads ==> MarkerStep(m, s, at, n).threads[t] == s.threads[t])
  {
    DispatchOther(m, s, at, n);
    DispatchOther(m, Fail(s, UnknownContext(n.request)), at, n);
    DispatchErrors(m, s, at, n);
    DispatchErrors(m, Fail(s, UnknownContext(n.request)), at, n);
    hide Dispatch;
  }

  lemma DispatchOther(m: Mapping, s: State, at: Stamp, n: Marker)
    requires !IpcKind(n.kind)
    ensures Dispatch(m, s, at, n).ipc == s.ipc && Dispatch(m, s, at, n).threads == s.threads
  {
    hide SubmitRecords, SubmitErrors, PutWork, ActiveOf, JobOf, OnIpcSend, OnIpcCancel, OnIpcEnter, OnIpcLeave;
  }

  lemma StepFits(m: Mapping, s: State, lines: seq<Line>, line: Line, j: string)
    requires Inv(s, lines) && Apply(m, s, line).errors == s.errors
    ensures Fits(Apply(m, s, line).ipc, j, Marks(lines + [line], j))
  {
    hide MarkerStep, TraceStep;
    assert (lines + [line])[..|lines|] == lines;
    assert Fits(s.ipc, j, Marks(lines, j));
    match line
    case CallLine(e) => TraceFrame(m, s, e);
    case MarkerLine(at, n) =>
      assert Carries(s, lines, at.tid);
      if IpcKind(n.kind) {
        IpcMarker(m, s, at, n);
        assert Fits(s.ipc, n.job.value, Marks(lines, n.job.value));
      } else {
        OtherMarker(m, s, at, n);
      }
  }

  lemma StepCarries(m: Mapping, s: State, lines: seq<Line>, line: Line, t: Tid)
    requires Inv(s, lines) && Apply(m, s, line).errors == s.errors
    ensures Carries(Apply(m, s, line), lines + [line], t)
  {
    hide MarkerStep, TraceStep;
    assert (lines + [line])[..|lines|] == lines;
    assert Carries(s, lines, t);
    assert t in s.ipc.running ==> Fits(s.ipc, s.ipc.running[t], Marks(lines, s.ipc.running[t]));
    match line
    case CallLine(e) => TraceFrame(m, s, e);
    case MarkerLine(at, n) =>
      assert Carries(s, lines, at.tid);
      if IpcKind(n.kind) {
        IpcMarker(m, s, at, n);
        assert Fits(s.ipc, n.job.value, Marks(lines, n.job.value));
      } else {
        OtherMarker(m, s, at, n);
      }
  }

  lemma {:induction false} RunInv(m: Mapping, graph: seq<Record>, lines: seq<Line>)
    requires After(m, graph, lines).errors == []
    ensures Inv(After(m, graph, lines), lines)
  {
    hide Fits, Carries, Apply;
    if lines == [] {
      EmptyInv(graph);
    } else {
      var prefix := lines[..|lines| - 1];
      var line := lines[|lines| - 1];
      PrefixErrorFree(m, graph, lines, |lines| - 1);
      RunInv(m, graph, prefix);
      var s := After(m, graph, prefix);
      assert prefix + [line] == lines;
      forall j ensures Fits(After(m, graph, lines).ipc, j, Marks(lines, j)) { StepFits(m, s, prefix, line, j); }
      forall t ensures Carries(After(m, graph, lines), lines, t) { StepCarries(m, s, prefix, line, t); }
    }
  }

  lemma EmptyInv(graph: seq<Record>)
    ensures Inv(Initial(graph), [])
  {
  }

  // ----- results -----------------------------------------------------------------------------

  /** In a run that validates, every job that occurs has the complete protocol. */
  lemma JobsComplete(m: Mapping, graph: seq<Record>, lines: seq<Line>, j: string)
    requires After(m, graph, lines).errors == [] && UnfinishedJobs !in Findings(After(m, graph, lines))
    requires Marks(lines, j) != []
    ensures Finished(Marks(lines, j))
  {
    RunInv(m, graph, lines);
    var s := After(m, graph, lines);
    assert Fits(s.ipc, j, Marks(lines, j));
    assert s.ipc.jobs[j].finished;
  }

  /** The request a job is sent with is the one its sender's context held. */
  lemma SenderHeldRequest(m: Mapping, graph: seq<Record>, lines: seq<Line>, i: nat)
    requires After(m, graph, lines).errors == [] && i < |lines|
    requires lines[i].MarkerLine? && lines[i].note.kind.IpcSend?
    ensures var sender := ContextOf(After(m, graph, lines[..i]), lines[i].at);
            sender.Some? && sender.value.request == lines[i].note.request
  {
    AfterPrefix(m, graph, lines, i);
    PrefixErrorFree(m, graph, lines, i);
    PrefixErrorFree(m, graph, lines, i + 1);
    IpcMarker(m, After(m, graph, lines[..i]), lines[i].at, lines[i].note);
  }

  /** A job sent from inside another job keeps that job's request, and the graph records
      the relay. */
  lemma RelayKeepsRequest(m: Mapping, graph: seq<Record>, lines: seq<Line>, i: nat, outer: string)
    requires After(m, graph, lines).errors == [] && i < |lines|
    requires lines[i].MarkerLine? && lines[i].note.kind.IpcSend? && Inside(Marks(lines[..i], outer), lines[i].at.tid)
    ensures lines[i].note.request == Marks(lines[..i], outer)[0].request
    ensures lines[i].note.request != 0 ==>
              Edge(IpcNode(Some(outer)), IpcNode(lines[i].note.job), IpcSent) in After(m, graph, lines[..i + 1]).graph
  {
    AfterPrefix(m, graph, lines, i);
    PrefixErrorFree(m, graph, lines, i);
    PrefixErrorFree(m, graph, lines, i + 1);
    RunInv(m, graph, lines[..i]);
    var s := After(m, graph, lines[..i]);
    InsideContext(s, lines[..i], outer, lines[i].at.tid);
    IpcMarker(m, s, lines[i].at, lines[i].note);
    hide MarkerStep;
    if lines[i].note.request != 0 {
      var records := SendRecords(m, ContextOf(s, lines[i].at), lines[i].note);
      assert records[1] == Edge(IpcNode(Some(outer)), IpcNode(lines[i].note.job), IpcSent);
      assert (s.graph + records)[|s.graph| + 1] == records[1];
    }
  }

  lemma InsideContext(s: State, lines: seq<Line>, j: string, tid: Tid)
    requires Inv(s, lines) && Inside(Marks(lines, j), tid)
    ensures j in s.ipc.jobs && s.ipc.jobs[j].request == Marks(lines, j)[0].request
    ensures tid in s.threads && s.threads[tid].request == Marks(lines, j)[0].request
    ensures s.threads[tid].origin == IpcWorker && s.threads[tid].job == Some(j)
  {
    assert Fits(s.ipc, j, Marks(lines, j));
    assert Carries(s, lines, tid);
  }

  /** Every syscall row inside the bracket of a job sent under a request carries the job and
      that request, and keeps them to the end of the run. */
  lemma RowsInsideJob(m: Mapping, graph: seq<Record>, lines: seq<Line>, i: nat, j: string)
    requires After(m, graph, lines).errors == [] && i < |lines|
    requires lines[i].CallLine? && !lines[i].e.instrumentation
    requires Inside(Marks(lines[..i], j), lines[i].e.stamp.tid) && Marks(lines[..i], j)[0].request != 0
    ensures var k := |After(m, graph, lines[..i]).effects.rows|;
            var rows := After(m, graph, lines).effects.rows;
            k < |rows| && rows[k].stamp == lines[i].e.stamp && rows[k].job == Some(j)
            && rows[k].context == Marks(lines[..i], j)[0].request
  {
    var s := After(m, graph, lines[..i]);
    var e := lines[i].e;
    AfterPrefix(m, graph, lines, i);
    PrefixErrorFree(m, graph, lines, i);
    RunInv(m, graph, lines[..i]);
    InsideContext(s, lines[..i], j, e.stamp.tid);
    RowOfCaller(m, s, e);
    RowsKept(m, graph, lines, i + 1);
  }

  // ----- relays ----------------------------------------------------------------------------------

  predicate SendsAt(lines: seq<Line>, i: nat, j: string) {
    i < |lines| && About(lines[i], j) && lines[i].note.kind.IpcSend?
  }

  /** A chain of sends: each later one is made by a thread inside the job the previous one sent. */
  predicate RelayChain(lines: seq<Line>, hops: seq<nat>, jobs: seq<string>) {
    && |hops| == |jobs| >= 1
    && (forall k :: 0 <= k < |hops| ==> SendsAt(lines, hops[k], jobs[k]))
    && (forall k :: 0 < k < |hops| ==> RelayedFrom(lines, hops[k], jobs[k - 1]))
  }

  predicate RelayedFrom(lines: seq<Line>, i: nat, outer: string) {
    i < |lines| && lines[i].MarkerLine? && Inside(Marks(lines[..i], outer), lines[i].at.tid)
  }

  lemma MarksStep(lines: seq<Line>, k: nat, j: string)
    requires k < |lines|
    ensures Marks(lines[..k + 1], j) ==
            Marks(lines[..k], j)
              + if About(lines[k], j) then [Mark(lines[k].note.kind, lines[k].at.tid, lines[k].note.request)] else []
  {
    assert lines[..k + 1][..k] == lines[..k];
  }

  /** The marks of a job always begin with its one send. */
  lemma {:induction false} SendIsFirst(m: Mapping, graph: seq<Record>, lines: seq<Line>, i: nat, j: string, k: nat)
    requires After(m, graph, lines).errors == [] && SendsAt(lines, i, j) && i < k <= |lines|
    ensures Marks(lines[..k], j) != []
            && Marks(lines[..k], j)[0] == Mark(IpcSend, lines[i].at.tid, lines[i].note.request)
    decreases k
  {
    hide Fits, Carries, After;
    MarksStep(lines, k - 1, j);
    if k == i + 1 {
      AfterPrefix(m, graph, lines, i);
      PrefixErrorFree(m, graph, lines, i);
      PrefixErrorFree(m, graph, lines, i + 1);
      RunInv(m, graph, lines[..i]);
      IpcMarker(m, After(m, graph, lines[..i]), lines[i].at, lines[i].note);
      Unsent(After(m, graph, lines[..i]), lines[..i], j);
    } else {
      SendIsFirst(m, graph, lines, i, j, k - 1);
    }
  }

  lemma Unsent(s: State, lines: seq<Line>, j: string)
    requires Inv(s, lines) && j !in s.ipc.jobs
    ensures Marks(lines, j) == []
  {
    assert Fits(s.ipc, j, Marks(lines, j));
  }

  /** The jobs of a relay chain, however long, are all sent under the request of the first. */
  lemma {:induction false} ChainKeepsRequest(m: Mapping, graph: seq<Record>, lines: seq<Line>, hops: seq<nat>,
                                             jobs: seq<string>, k: nat)
    requires After(m, graph, lines).errors == [] && RelayChain(lines, hops, jobs) && k < |hops|
    ensures lines[hops[k]].note.request == lines[hops[0]].note.request
  {
    if k > 0 {
      ChainKeepsRequest(m, graph, lines, hops, jobs, k - 1);
      assert SendsAt(lines, hops[k], jobs[k]) && SendsAt(lines, hops[k - 1], jobs[k - 1])
             && RelayedFrom(lines, hops[k], jobs[k - 1]);
      hide After;
      RelayKeepsRequest(m, graph, lines, hops[k], jobs[k - 1]);
      SentBefore(m, graph, lines, hops[k - 1], jobs[k - 1], hops[k]);
      SendIsFirst(m, graph, lines, hops[k - 1], jobs[k - 1], hops[k]);
    }
  }

  /** A job with marks has been sent before them. */
  lemma {:induction false} SentBefore(m: Mapping, graph: seq<Record>, lines: seq<Line>, i: nat, j: string, k: nat)
    requires After(m, graph, lines).errors == [] && SendsAt(lines, i, j) && k <= |lines| && Marks(lines[..k], j) != []
    ensures i < k
  {
    hide Fits, Carries, After;
    if k <= i {
      MarksGrow(lines, k, i, j);
      AfterPrefix(m, graph, lines, i);
      PrefixErrorFree(m, graph, lines, i);
      PrefixErrorFree(m, graph, lines, i + 1);
      RunInv(m, graph, lines[..i]);
      IpcMarker(m, After(m, graph, lines[..i]), lines[i].at, lines[i].note);
      Unsent(After(m, graph, lines[..i]), lines[..i], j);
      assert false;
    }
  }

  lemma {:induction false} MarksGrow(lines: seq<Line>, i: nat, k: nat, j: string)
    requires i <= k <= |lines|
    ensures Marks(lines[..i], j) <= Marks(lines[..k], j)
    decreases k
  {
    if i < k {
      MarksGrow(lines, i, k - 1, j);
      MarksStep(lines, k - 1, j);
    }
  }

  /** Every syscall row inside the last job of a relay chain carries the request the first job was
      sent under. */
  lemma RowsAlongChain(m: Mapping, graph: seq<Record>, lines: seq<Line>, hops: seq<nat>, jobs: seq<string>, i: nat)
    requires After(m, graph, lines).errors == [] && RelayChain(lines, hops, jobs) && i < |lines|
    requires lines[i].CallLine? && !lines[i].e.instrumentation
    requires Inside(Marks(lines[..i], jobs[|jobs| - 1]), lines[i].e.stamp.tid) && lines[hops[0]].note.request != 0
    ensures var k := |After(m, graph, lines[..i]).effects.rows|;
            var rows := After(m, graph, lines).effects.rows;
            k < |rows| && rows[k].stamp == lines[i].e.stamp && rows[k].job == Some(jobs[|jobs| - 1])
            && rows[k].context == lines[hops[0]].note.request
  {
    hide After;
    var last := |hops| - 1;
    assert SendsAt(lines, hops[last], jobs[last]);
    ChainKeepsRequest(m, graph, lines, hops, jobs, last);
    SentBefore(m, graph, lines, hops[last], jobs[last], i);
    SendIsFirst(m, graph, lines, hops[last], jobs[last], i);
    RowsInsideJob(m, graph, lines, i, jobs[last]);
  }
}
