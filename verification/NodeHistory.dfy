/** What a Node run means, read off its events alone: the request and operation each thread works
    for after any number of events.  The bridge's thread-locals, records and markers are then shown
    to say exactly this. */
module NodeHistory {
  import opened Trace
  import opened NodeBridge
  import opened NodeReplay
  import opened Attribution

  // ----- the reading -----------------------------------------------------------------------

  predicate By(run: seq<Event>, i: nat, t: Tid) { i < |run| && run[i].Effect? && run[i].step.tid == t }

  predicate Submits(run: seq<Event>, i: nat, work: Pointer) {
    i < |run| && run[i].Effect? && run[i].step.Reserve? && run[i].step.work == work
  }

  /** How many submissions the first n events make; the next one has this number plus one. */
  function Submissions(run: seq<Event>, n: nat): nat
    requires n <= |run|
  {
    if n == 0 then 0
    else Submissions(run, n - 1) + if run[n - 1].Effect? && run[n - 1].step.Reserve? then 1 else 0
  }

  /** The last submission of a work object. */
  function SubmittedAt(run: seq<Event>, n: nat, work: Pointer): (r: Option<nat>)
    requires n <= |run|
    ensures r.Some? ==> r.value < n && Submits(run, r.value, work)
                        && forall i :: r.value < i < n ==> !Submits(run, i, work)
    ensures r.None? ==> forall i :: 0 <= i < n ==> !Submits(run, i, work)
  {
    if n == 0 then None else if Submits(run, n - 1, work) then Some(n - 1) else SubmittedAt(run, n - 1, work)
  }

  /** The last submission made by a thread. */
  function SubmittedBy(run: seq<Event>, n: nat, t: Tid): (r: Option<nat>)
    requires n <= |run|
    ensures r.Some? ==> r.value < n && By(run, r.value, t) && run[r.value].step.Reserve?
  {
    if n == 0 then None
    else if By(run, n - 1, t) && run[n - 1].step.Reserve? then Some(n - 1)
    else SubmittedBy(run, n - 1, t)
  }

  /** The last completion a thread began. */
  function CompletedBy(run: seq<Event>, n: nat, t: Tid): (r: Option<nat>)
    requires n <= |run|
    ensures r.Some? ==> r.value < n && By(run, r.value, t) && run[r.value].step.TakeRecord?
  {
    if n == 0 then None
    else if By(run, n - 1, t) && run[n - 1].step.TakeRecord? then Some(n - 1)
    else CompletedBy(run, n - 1, t)
  }

  /** The wrappers a thread has entered and not left, outermost first, as the events that entered them. */
  function Inside(run: seq<Event>, n: nat, t: Tid): (r: seq<nat>)
    requires n <= |run|
    ensures forall k :: 0 <= k < |r| ==> r[k] < n
  {
    if n == 0 then []
    else
      var before := Inside(run, n - 1, t);
      if !By(run, n - 1, t) then before
      else match run[n - 1].step
        case StartWork(_, _) => before + [n - 1]
        case StartDone(_) => before + [n - 1]
        case EndWork(_) => if before == [] then [] else before[..|before| - 1]
        case EndDone(_) => if before == [] then [] else before[..|before| - 1]
        case _ => before
  }

  /** The request and operation a thread works for after n events: what JavaScript named last, or
      what the wrapper entered last was submitted under, or, once a wrapper is left, what the thread
      worked for when it entered it. */
  function WorksFor(run: seq<Event>, n: nat, t: Tid): (Context, OpId)
    requires n <= |run|
    decreases n
  {
    if n == 0 then (0, 0)
    else if !By(run, n - 1, t) then WorksFor(run, n - 1, t)
    else match run[n - 1].step
      case SetContext(_, request) => (request, 0)
      case StartWork(_, work) => SubmittedUnder(run, n - 1, work)
      case StartDone(_) =>
        var taken := CompletedBy(run, n - 1, t);
        if taken.None? then (0, 0) else SubmittedUnder(run, taken.value, run[taken.value].step.work)
      case EndWork(_) =>
        var inside := Inside(run, n - 1, t);
        if inside == [] then (0, 0) else WorksFor(run, inside[|inside| - 1], t)
      case EndDone(_) =>
        var inside := Inside(run, n - 1, t);
        if inside == [] then (0, 0) else WorksFor(run, inside[|inside| - 1], t)
      case _ => WorksFor(run, n - 1, t)
  }

  /** The request its submitter worked for when it submitted the work, and the submission's number. */
  function SubmittedUnder(run: seq<Event>, n: nat, work: Pointer): (Context, OpId)
    requires n <= |run|
    decreases n
  {
    var i := SubmittedAt(run, n, work);
    if i.None? then (0, 0) else (WorksFor(run, i.value, run[i.value].step.tid).0, 1 + Submissions(run, i.value))
  }

  /** The marker the next event owes the trace, if any. */
  function Owed(run: seq<Event>, n: nat, step: Step): Option<Marker>
    requires n < |run| && run[n].Effect? && run[n].step == step
  {
    var t := step.tid;
    var (request, operation) := WorksFor(run, n + 1, t);
    match step
    case SetContext(_, _) =>
      if WorksFor(run, n, t) == (request, operation) then None
      else Some(Marker(JsContext, t, request, operation, 0, 0, false, None))
    case Announce(_) =>
      var i := SubmittedBy(run, n, t);
      if i.None? then None
      else Some(Marker(Submit, t, WorksFor(run, i.value, t).0, 1 + Submissions(run, i.value), run[i.value].step.work,
                       0, false, None))
    case StartWork(_, _) => Some(Marker(WorkEnter, t, request, operation, 0, 0, false, None))
    case EndWork(_) => Some(Marker(WorkLeave, t, request, operation, 0, 0, false, None))
    case StartDone(_) => Some(Marker(DoneEnter, t, request, operation, 0, 0, false, None))
    case EndDone(_) => Some(Marker(DoneLeave, t, request, operation, 0, 0, false, None))
    case ReportDone(_) =>
      var j := CompletedBy(run, n, t);
      if j.None? then None
      else
        var done := run[j.value].step;
        var (owner, number) := SubmittedUnder(run, j.value, done.work);
        Some(Marker(Complete, t, owner, number, done.work, done.status, false, None))
    case Reserve(_, _) => None
    case TakeRecord(_, _, _) => None
  }

  // ----- the bridge says the same -------------------------------------------------------------

  /** The submission numbered `op` belongs to this request and work object. */
  predicate Belongs(b: Bridge, op: OpId, request: Context, work: Pointer) {
    op in b.lives && b.lives[op].request == request && b.lives[op].work == work
  }

  predicate RecordRight(run: seq<Event>, n: nat, b: Bridge, work: Pointer)
    requires n <= |run|
  {
    work in b.records ==>
      var entry := b.records[work];
      SubmittedUnder(run, n, work) == (entry.request, entry.operation)
        && Belongs(b, entry.operation, entry.request, work)
  }

  predicate PhaseRight(run: seq<Event>, n: nat, b: Bridge, t: Tid)
    requires n <= |run|
  {
    match At(b, t).phase
    case Idle => true
    case Submitting(op) =>
      var i := SubmittedBy(run, n, t);
      && i.Some? && op == 1 + Submissions(run, i.value)
      && Belongs(b, op, WorksFor(run, i.value, t).0, run[i.value].step.work)
    case Entering(entry, status) =>
      var j := CompletedBy(run, n, t);
      && j.Some? && run[j.value].step.status == status
      && SubmittedUnder(run, j.value, run[j.value].step.work) == (entry.request, entry.operation)
      && Belongs(b, entry.operation, entry.request, run[j.value].step.work)
    case Completing(op, status) =>
      var j := CompletedBy(run, n, t);
      && j.Some? && run[j.value].step.status == status
      && SubmittedUnder(run, j.value, run[j.value].step.work).1 == op
      && Belongs(b, op, SubmittedUnder(run, j.value, run[j.value].step.work).0, run[j.value].step.work)
  }

  predicate FramesRight(run: seq<Event>, n: nat, b: Bridge, t: Tid)
    requires n <= |run|
  {
    var frames, inside := At(b, t).frames, Inside(run, n, t);
    && |frames| == |inside|
    && forall k :: 0 <= k < |frames| ==> WorksFor(run, inside[k], t) == (frames[k].request, frames[k].previous)
  }

  ghost predicate Right(run: seq<Event>, n: nat, b: Bridge)
    requires n <= |run|
  {
    && b.next == 1 + Submissions(run, n)
    && (forall work :: RecordRight(run, n, b, work))
    && (forall t :: WorksFor(run, n, t) == (At(b, t).request, At(b, t).operation))
    && (forall t :: PhaseRight(run, n, b, t))
    && (forall t :: FramesRight(run, n, b, t))
  }

  lemma {:induction false} RecordStep(known: set<Context>, run: seq<Event>, n: nat, b: Bridge, step: Step,
                                      work: Pointer)
    requires n < |run| && run[n].Effect? && run[n].step == step && Right(run, n, b)
    requires Inv(known, b) && Enabled(known, b, step) && b.next + 1 < COUNTER_LIMIT
    ensures RecordRight(run, n + 1, Next(known, b, step), work)
  {
    hide Held, Framed, Named, Recorded, FramesRight, WorksFor, Inside;
    assert RecordRight(run, n, b, work)
           && WorksFor(run, n, step.tid) == (At(b, step.tid).request, At(b, step.tid).operation);
    var c := Next(known, b, step);
    if work in c.records && !(step.Reserve? && step.work == work) {
      assert SubmittedAt(run, n + 1, work) == SubmittedAt(run, n, work);
    }
  }

  lemma {:induction false} PhaseStep(known: set<Context>, run: seq<Event>, n: nat, b: Bridge, step: Step, t: Tid)
    requires n < |run| && run[n].Effect? && run[n].step == step && Right(run, n, b)
    requires Inv(known, b) && Enabled(known, b, step) && b.next + 1 < COUNTER_LIMIT
    ensures PhaseRight(run, n + 1, Next(known, b, step), t)
  {
    hide Held, Framed, Named, Recorded, FramesRight, WorksFor, Inside;
    assert PhaseRight(run, n, b, t) && WorksFor(run, n, t) == (At(b, t).request, At(b, t).operation);
    if step.TakeRecord? { assert RecordRight(run, n, b, step.work); }
    if t != step.tid { Elsewhere(known, b, step, t); }
  }

  lemma {:induction false} ThreadStep(known: set<Context>, run: seq<Event>, n: nat, b: Bridge, step: Step, t: Tid)
    requires n < |run| && run[n].Effect? && run[n].step == step && Right(run, n, b)
    requires Inv(known, b) && Enabled(known, b, step) && b.next + 1 < COUNTER_LIMIT
    ensures var c := Next(known, b, step); WorksFor(run, n + 1, t) == (At(c, t).request, At(c, t).operation)
    ensures FramesRight(run, n + 1, Next(known, b, step), t)
  {
    hide Held, Framed, Named, Recorded, SubmittedUnder;
    assert PhaseRight(run, n, b, t) && FramesRight(run, n, b, t);
    assert WorksFor(run, n, t) == (At(b, t).request, At(b, t).operation);
    if t != step.tid {
      Elsewhere(known, b, step, t);
    } else if step.StartWork? {
      assert RecordRight(run, n, b, step.work);
    }
  }

  lemma StepRight(known: set<Context>, run: seq<Event>, n: nat, b: Bridge, step: Step)
    requires n < |run| && run[n].Effect? && run[n].step == step && Right(run, n, b)
    requires Inv(known, b) && Enabled(known, b, step) && b.next + 1 < COUNTER_LIMIT
    ensures Right(run, n + 1, Next(known, b, step))
  {
    hide Inv, Enabled, RecordRight, PhaseRight, FramesRight, WorksFor;
    NextNumber(known, run, n, b, step);
    var m, c := n + 1, Next(known, b, step);
    forall work ensures RecordRight(run, m, c, work) { RecordStep(known, run, n, b, step, work); }
    forall t ensures PhaseRight(run, m, c, t) { PhaseStep(known, run, n, b, step, t); }
    forall t ensures WorksFor(run, m, t) == (At(c, t).request, At(c, t).operation) && FramesRight(run, m, c, t) {
      ThreadStep(known, run, n, b, step, t);
    }
  }

  lemma NextNumber(known: set<Context>, run: seq<Event>, n: nat, b: Bridge, step: Step)
    requires n < |run| && run[n].Effect? && run[n].step == step && b.next == 1 + Submissions(run, n)
    requires Enabled(known, b, step) && b.next + 1 < COUNTER_LIMIT
    ensures Next(known, b, step).next == 1 + Submissions(run, n + 1)
  {
  }

  lemma CallRight(run: seq<Event>, n: nat, b: Bridge)
    requires n < |run| && run[n].Kernel? && Right(run, n, b)
    ensures Right(run, n + 1, b)
  {
    var m := n + 1;
    forall work ensures RecordRight(run, m, b, work) { assert RecordRight(run, n, b, work); }
    forall t ensures WorksFor(run, m, t) == WorksFor(run, n, t) && PhaseRight(run, m, b, t)
      && FramesRight(run, m, b, t) {
      assert PhaseRight(run, n, b, t) && FramesRight(run, n, b, t);
    }
  }

  /** After any number of events the bridge's state says what the events mean. */
  lemma {:induction false} RunRight(m: Mapping, server: Pid, run: seq<Event>, n: nat)
    requires Possible(m, server, run) && |run| + 2 < COUNTER_LIMIT && n <= |run|
    ensures Possible(m, server, run[..n]) && Inv(Known(m), BridgeAfter(m, server, run[..n]))
    ensures Right(run, n, BridgeAfter(m, server, run[..n])) && BridgeAfter(m, server, run[..n]).next <= 1 + n
  {
    hide Right, Inv, Enabled, Next, Sim;
    PrefixPossible(m, server, run, n);
    RunSim(m, server, run[..n], []);
    SimInv(m, server, BridgeAfter(m, server, run[..n]), StateAfter(m, server, run[..n], []));
    if n == 0 {
      StartRight(run);
    } else {
      RunRight(m, server, run, n - 1);
      assert run[..n][..n - 1] == run[..n - 1];
      var b := BridgeAfter(m, server, run[..n - 1]);
      match run[n - 1]
      case Effect(step, _) => StepRight(Known(m), run, n - 1, b, step);
      case Kernel(_) => CallRight(run, n - 1, b);
    }
  }

  lemma StartRight(run: seq<Event>)
    ensures Right(run, 0, Start())
  {
  }

  // ----- what follows ---------------------------------------------------------------------------

  /** Every thread's locals hold what the events so far say it works for. */
  lemma LocalsAreRight(m: Mapping, server: Pid, run: seq<Event>, n: nat, t: Tid)
    requires Possible(m, server, run) && |run| + 2 < COUNTER_LIMIT && n <= |run|
    ensures Possible(m, server, run[..n])
    ensures var l := At(BridgeAfter(m, server, run[..n]), t); (l.request, l.operation) == WorksFor(run, n, t)
  {
    hide RecordRight, PhaseRight, FramesRight, WorksFor, Inv, Possible, BridgeAfter;
    RunRight(m, server, run, n);
  }

  /** Every marker written is the one the events owe: nothing missing, nothing else. */
  lemma MarkersAreRight(m: Mapping, server: Pid, run: seq<Event>, n: nat)
    requires Possible(m, server, run) && |run| + 2 < COUNTER_LIMIT && n < |run| && run[n].Effect?
    ensures Possible(m, server, run[..n]) && Allowed(m, server, BridgeAfter(m, server, run[..n]), run[n])
    ensures Emitted(Known(m), BridgeAfter(m, server, run[..n]), run[n].step) == Owed(run, n, run[n].step)
  {
    hide Right, Inv, Enabled, Next, Emitted, Owed;
    RunRight(m, server, run, n);
    RunRight(m, server, run, n + 1);
    assert run[..n + 1][..n] == run[..n];
    MarkerRight(Known(m), run, n, BridgeAfter(m, server, run[..n]), run[n].step);
  }

  lemma MarkerRight(known: set<Context>, run: seq<Event>, n: nat, b: Bridge, step: Step)
    requires n < |run| && run[n].Effect? && run[n].step == step && Right(run, n, b)
    requires Inv(known, b) && Enabled(known, b, step) && b.next + 1 < COUNTER_LIMIT
    ensures Emitted(known, b, step) == Owed(run, n, step)
  {
    hide Held, Framed, Named, Recorded, RecordRight, FramesRight, WorksFor, Inside, SubmittedUnder;
    ThreadStep(known, run, n, b, step, step.tid);
    assert PhaseRight(run, n, b, step.tid)
           && WorksFor(run, n, step.tid) == (At(b, step.tid).request, At(b, step.tid).operation);
  }

  /** The attributor holds it too, for every thread. */
  lemma AttributorIsRight(m: Mapping, server: Pid, run: seq<Event>, n: nat, graph: seq<Record>, t: Tid, source: Source)
    requires Possible(m, server, run) && |run| + 2 < COUNTER_LIMIT && n <= |run|
    ensures Possible(m, server, run[..n])
    ensures var c := ContextOf(StateAfter(m, server, run[..n], graph), Stamp(t, server, source));
            (RequestOf(c), if c.Some? then c.value.operation else 0) == WorksFor(run, n, t)
  {
    hide WorksFor, Possible, BridgeAfter, StateAfter, ContextOf;
    LocalsAreRight(m, server, run, n, t);
    ContextsReplayed(m, server, run[..n], graph, t, source);
  }

  /** And so do the rows of the finished trace. */
  lemma RowsAreRight(m: Mapping, server: Pid, run: seq<Event>, graph: seq<Record>, i: nat)
    requires Possible(m, server, run) && |run| + 2 < COUNTER_LIMIT
    requires i < |run| && run[i].Kernel? && run[i].e.stamp.pid == server && !run[i].e.instrumentation
    ensures Possible(m, server, run[..i])
    ensures var (request, operation) := WorksFor(run, i, run[i].e.stamp.tid);
            var at := |StateAfter(m, server, run[..i], graph).effects.rows|;
            var rows := StateAfter(m, server, run, graph).effects.rows;
            && at < |rows| && rows[at].stamp == run[i].e.stamp
            && (request != 0 ==> rows[at].context == request && rows[at].operation == operation)
            && (request == 0 && !run[i].e.call.Receive? ==> rows[at].context == 0)
  {
    hide WorksFor, Possible, BridgeAfter, StateAfter;
    LocalsAreRight(m, server, run, i, run[i].e.stamp.tid);
    RowsNameRunningRequest(m, server, run, graph, i);
  }

  // ----- in plain words ----------------------------------------------------------------------------

  /** Work runs under the request that submitted it, whichever thread runs it, with the submission's number. */
  lemma WorkRunsUnderSubmitter(m: Mapping, server: Pid, run: seq<Event>, i: nat, j: nat, work: Pointer)
    requires Possible(m, server, run) && |run| + 2 < COUNTER_LIMIT && i < j < |run|
    requires Submits(run, i, work) && forall k :: i < k < j ==> !Submits(run, k, work)
    requires run[j].Effect? && run[j].step.StartWork? && run[j].step.work == work
    ensures Possible(m, server, run[..i]) && Possible(m, server, run[..j + 1])
    ensures var l := At(BridgeAfter(m, server, run[..j + 1]), run[j].step.tid);
            && l.request == At(BridgeAfter(m, server, run[..i]), run[i].step.tid).request
            && l.operation == 1 + Submissions(run, i)
  {
    hide Possible, BridgeAfter;
    LocalsAreRight(m, server, run, i, run[i].step.tid);
    LocalsAreRight(m, server, run, j + 1, run[j].step.tid);
  }

  /** So does its completion, even after the work object was submitted again for another request. */
  lemma CompletionRunsUnderSubmitter(m: Mapping, server: Pid, run: seq<Event>, i: nat, j: nat, k: nat, work: Pointer)
    requires Possible(m, server, run) && |run| + 2 < COUNTER_LIMIT && i < j < k < |run|
    requires Submits(run, i, work) && forall n :: i < n < j ==> !Submits(run, n, work)
    requires run[j].Effect? && run[j].step.TakeRecord? && run[j].step.work == work
    requires By(run, k, run[j].step.tid) && run[k].step.StartDone?
    requires forall n :: j < n < k ==> !By(run, n, run[j].step.tid)
    ensures Possible(m, server, run[..i]) && Possible(m, server, run[..k + 1])
    ensures var l := At(BridgeAfter(m, server, run[..k + 1]), run[k].step.tid);
            && l.request == At(BridgeAfter(m, server, run[..i]), run[i].step.tid).request
            && l.operation == 1 + Submissions(run, i)
  {
    hide Possible, BridgeAfter;
    TakenLast(run, j, k);
    LocalsAreRight(m, server, run, i, run[i].step.tid);
    LocalsAreRight(m, server, run, k + 1, run[k].step.tid);
  }

  lemma {:induction false} TakenLast(run: seq<Event>, j: nat, n: nat)
    requires j < n <= |run| && run[j].Effect? && run[j].step.TakeRecord?
    requires forall i :: j < i < n ==> !By(run, i, run[j].step.tid)
    ensures CompletedBy(run, n, run[j].step.tid) == Some(j)
  {
    if j + 1 < n { TakenLast(run, j, n - 1); }
  }

  /** Leaving a wrapper, the thread works again for what it worked for on entering it. */
  lemma LeavingRestores(m: Mapping, server: Pid, run: seq<Event>, j: nat, k: nat)
    requires Possible(m, server, run) && |run| + 2 < COUNTER_LIMIT && j < k < |run|
    requires run[k].Effect? && (run[k].step.EndWork? || run[k].step.EndDone?)
    requires var inside := Inside(run, k, run[k].step.tid); inside != [] && inside[|inside| - 1] == j
    ensures Possible(m, server, run[..j]) && Possible(m, server, run[..k + 1])
    ensures var before := At(BridgeAfter(m, server, run[..j]), run[k].step.tid);
            var after := At(BridgeAfter(m, server, run[..k + 1]), run[k].step.tid);
            after.request == before.request && after.operation == before.operation
  {
    hide Possible, BridgeAfter;
    LocalsAreRight(m, server, run, j, run[k].step.tid);
    LocalsAreRight(m, server, run, k + 1, run[k].step.tid);
  }

  /** Nothing another thread does, no syscall, submission or completion report changes what a thread works for. */
  lemma {:induction false} WorksForKept(run: seq<Event>, i: nat, n: nat, t: Tid)
    requires i <= n <= |run|
    requires forall k :: i <= k < n && By(run, k, t) ==>
               var step := run[k].step; step.Reserve? || step.Announce? || step.TakeRecord? || step.ReportDone?
    ensures WorksFor(run, n, t) == WorksFor(run, i, t)
  {
    if i < n { WorksForKept(run, i, n - 1, t); }
  }

  /** The j-th event enters, as work or as completion, the submission made by the i-th. */
  predicate Enters(run: seq<Event>, j: nat, i: nat) {
    && i < j < |run| && run[i].Effect? && run[i].step.Reserve? && run[j].Effect?
    && match run[j].step
       case StartWork(_, work) => SubmittedAt(run, j, work) == Some(i)
       case StartDone(t) =>
         var taken := CompletedBy(run, j, t);
         taken.Some? && SubmittedAt(run, taken.value, run[taken.value].step.work) == Some(i)
       case _ => false
  }

  /** Every syscall a thread makes inside, before it changes what it works for, is attributed to the
      request that made the submission. */
  lemma RowsNameSubmitter(m: Mapping, server: Pid, run: seq<Event>, graph: seq<Record>, i: nat, j: nat, k: nat)
    requires Possible(m, server, run) && |run| + 2 < COUNTER_LIMIT && Enters(run, j, i) && j < k < |run|
    requires forall n :: j < n < k && By(run, n, run[j].step.tid) ==>
               var step := run[n].step; step.Reserve? || step.Announce? || step.TakeRecord? || step.ReportDone?
    requires run[k].Kernel? && run[k].e.stamp.tid == run[j].step.tid && run[k].e.stamp.pid == server
    requires !run[k].e.instrumentation
    ensures Possible(m, server, run[..i]) && Possible(m, server, run[..k])
    ensures var request := At(BridgeAfter(m, server, run[..i]), run[i].step.tid).request;
            var at := |StateAfter(m, server, run[..k], graph).effects.rows|;
            var rows := StateAfter(m, server, run, graph).effects.rows;
            && at < |rows| && rows[at].stamp == run[k].e.stamp
            && (request != 0 ==> rows[at].context == request && rows[at].operation == 1 + Submissions(run, i))
            && (request == 0 && !run[k].e.call.Receive? ==> rows[at].context == 0)
  {
    hide Possible, BridgeAfter, StateAfter;
    LocalsAreRight(m, server, run, i, run[i].step.tid);
    WorksForKept(run, j + 1, k, run[j].step.tid);
    RowsAreRight(m, server, run, graph, k);
  }

  /** The innermost wrapper runs the work of `op`. */
  predicate Tops(l: Local, op: OpId) {
    l.frames != [] && l.frames[|l.frames| - 1].WorkFrame? && l.frames[|l.frames| - 1].operation == op
  }

  /** Nothing gets stuck: an idle thread may submit any work object not in use, and whatever stage a
      submission has reached, the next one is open to it. */
  lemma Progress(known: set<Context>, b: Bridge, op: OpId, idle: Tid, free: Pointer)
    requires Inv(known, b) && op in b.lives && At(b, idle).phase.Idle?
    ensures forall request :: request == 0 || request in known ==> Enabled(known, b, SetContext(idle, request))
    ensures (forall other :: other in b.lives && b.lives[other].work == free ==> !Pending(b.lives[other].stage)) ==>
            Enabled(known, b, Reserve(idle, free))
    ensures var life := b.lives[op];
            match life.stage
            case Reserved => Enabled(known, b, Announce(life.holder))
            case Queued =>
              && Enabled(known, b, StartWork(idle, life.work))
              && Enabled(known, b, TakeRecord(idle, life.work, ECANCELED))
            case Running =>
              var l := At(b, life.holder);
              l.phase.Idle? && Tops(l, op) ==> Enabled(known, b, EndWork(life.holder))
            case Ran => Enabled(known, b, TakeRecord(idle, life.work, 0))
            case Erased(_) => Enabled(known, b, StartDone(life.holder))
            case Finishing(_) => Enabled(known, b, ReportDone(life.holder))
            case Finished(_) => true
  {
    hide Framed, Named, Numbered;
    assert Attended(b, op);
  }
}
