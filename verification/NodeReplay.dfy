/** Replaying the Node bridge's markers, interleaved with any syscalls, rebuilds every
    thread's context: the attributor simulates the bridge. */
module NodeReplay {
  import opened Trace
  import opened NodeBridge
  import opened Attribution
  import opened MarkerFacts

  /** One line of the merged trace: a bridge step with the place of its marker, or a syscall. */
  datatype Event = Effect(step: Step, source: Source) | Kernel(e: Syscall)

  function Known(m: Mapping): set<Context> { m.owners.Keys }

  /** Bridge steps obey libuv; a forked child is a new process, never the server itself. */
  predicate Allowed(m: Mapping, server: Pid, b: Bridge, ev: Event) {
    match ev
    case Effect(step, _) => Enabled(Known(m), b, step)
    case Kernel(e) => Forks(e) ==> e.ret.value != server
  }

  function Follow(m: Mapping, server: Pid, b: Bridge, ev: Event): Bridge
    requires Allowed(m, server, b, ev)
  {
    match ev case Effect(step, _) => Next(Known(m), b, step) case Kernel(_) => b
  }

  /** What the attributor does with the line. */
  function Observe(m: Mapping, server: Pid, b: Bridge, s: State, ev: Event): State
    requires Allowed(m, server, b, ev)
  {
    match ev
    case Effect(step, source) =>
      (match Emitted(Known(m), b, step)
       case None => s
       case Some(n) => MarkerStep(m, s, Stamp(step.tid, server, source), n))
    case Kernel(e) => TraceStep(m, s, e)
  }

  // ----- the relation -----------------------------------------------------------------

  ghost predicate Quiet(s: State, server: Pid) {
    s.errors == [] && s.ipc == Ipc(map[], map[]) && server !in s.effects.inherited
  }

  ghost predicate Mirrors(b: Bridge, s: State, t: Tid) {
    if t in s.threads then
      && s.threads[t].request == At(b, t).request && s.threads[t].operation == At(b, t).operation
      && !s.threads[t].origin.IpcWorker? && !s.threads[t].origin.ProcessInheritance?
    else At(b, t).request == 0 && At(b, t).operation == 0
  }

  function WorkOps(frames: seq<Frame>): seq<OpId> {
    if frames == [] then []
    else
      var top := frames[|frames| - 1];
      WorkOps(frames[..|frames| - 1]) + if top.WorkFrame? then [top.operation] else []
  }

  ghost predicate Nested(b: Bridge, s: State, t: Tid) { ActiveOf(s.works, t) == WorkOps(At(b, t).frames) }

  /** The attributor's record of a submission at each stage of its life. */
  function Shadow(l: Life): Work {
    match l.stage
    case Running => Work(l.request, true, false, false, None)
    case Ran => Work(l.request, true, true, false, None)
    case Erased(status) => Work(l.request, status == 0, status == 0, false, None)
    case Finishing(status) => Work(l.request, status == 0, status == 0, false, None)
    case Finished(status) => Work(l.request, status == 0, status == 0, true, Some(status))
    case Reserved => Work(l.request, false, false, false, None)
    case Queued => Work(l.request, false, false, false, None)
  }

  ghost predicate Tracked(b: Bridge, s: State, op: OpId) {
    && (op in s.works.operations <==> op in b.lives && !b.lives[op].stage.Reserved?)
    && (op in s.works.operations ==> s.works.operations[op] == Shadow(b.lives[op]))
  }

  ghost predicate Sim(m: Mapping, server: Pid, b: Bridge, s: State) {
    && Inv(Known(m), b)
    && Quiet(s, server)
    && (forall t :: Mirrors(b, s, t))
    && (forall t :: Nested(b, s, t))
    && (forall op :: Tracked(b, s, op))
  }

  lemma SimStart(m: Mapping, server: Pid, graph: seq<Record>)
    ensures Sim(m, server, Start(), Initial(graph))
  {
    StartInv(Known(m));
  }

  lemma SimAt(m: Mapping, server: Pid, b: Bridge, s: State, t: Tid, op: OpId)
    requires Sim(m, server, b, s)
    ensures Inv(Known(m), b) && Quiet(s, server) && Mirrors(b, s, t) && Nested(b, s, t) && Tracked(b, s, op)
    ensures Busy(b, t) && Stacked(b, t) && NamesAt(Known(m), b, t)
    ensures op in b.lives ==> Attended(b, op) && (b.lives[op].request == 0 || b.lives[op].request in m.owners)
  {
  }

  // ----- one marker ----------------------------------------------------------------------

  function After(m: Mapping, server: Pid, b: Bridge, s: State, step: Step, source: Source): State
    requires Enabled(Known(m), b, step)
  {
    Observe(m, server, b, s, Effect(step, source))
  }

  lemma AfterIsObserve(m: Mapping, server: Pid, b: Bridge, s: State, step: Step, source: Source)
    requires Enabled(Known(m), b, step)
    ensures After(m, server, b, s, step, source) == Observe(m, server, b, s, Effect(step, source))
  {
    hide Observe;
  }

  ghost predicate Agree(server: Pid, b: Bridge, s: State, t: Tid, op: OpId) {
    Quiet(s, server) && Mirrors(b, s, t) && Nested(b, s, t) && Tracked(b, s, op)
  }

  lemma FrameRequest(known: set<Context>, b: Bridge, t: Tid, i: nat)
    requires NamesAt(known, b, t) && i < |At(b, t).frames|
    ensures Names(known, b, At(b, t).request, At(b, t).operation)
    ensures Names(known, b, At(b, t).frames[i].request, At(b, t).frames[i].previous)
  {
  }

  lemma WorkOpsPush(frames: seq<Frame>, f: Frame)
    ensures WorkOps(frames + [f]) == WorkOps(frames) + if f.WorkFrame? then [f.operation] else []
  {
    assert (frames + [f])[..|frames|] == frames;
  }

  lemma WorkOpsPop(frames: seq<Frame>)
    requires frames != [] && frames[|frames| - 1].DoneFrame?
    ensures WorkOps(frames[..|frames| - 1]) == WorkOps(frames)
  {
  }

  lemma RecordAt(known: set<Context>, b: Bridge, w: Pointer)
    requires Inv(known, b) && w in b.records
    ensures var op := b.records[w].operation;
            op in b.lives && b.lives[op].work == w && b.lives[op].request == b.records[w].request
            && (b.lives[op].request == 0 || b.lives[op].request in known)
  {
  }

  lemma RunningTop(b: Bridge, t: Tid)
    requires Stacked(b, t) && At(b, t).frames != [] && At(b, t).frames[|At(b, t).frames| - 1].WorkFrame?
    ensures var op := At(b, t).frames[|At(b, t).frames| - 1].operation; op in b.lives && b.lives[op].stage == Running
  {
  }

  lemma NextFree(known: set<Context>, b: Bridge)
    requires Inv(known, b)
    ensures b.next !in b.lives
  {
  }

  lemma StepContext(m: Mapping, server: Pid, b: Bridge, s: State, step: Step, source: Source, t: Tid, op: OpId)
    requires Sim(m, server, b, s) && Enabled(Known(m), b, step) && step.SetContext?
    ensures Agree(server, Next(Known(m), b, step), After(m, server, b, s, step, source), t, op)
  {
    hide MarkerStep, Sim, Inv, Numbered, Recorded, Held, Framed, Named, WorkOps, Stacked, NamesAt;
    SimAt(m, server, b, s, t, op);
    SimAt(m, server, b, s, step.tid, op);
    if Emitted(Known(m), b, step).Some? {
      ContextMarker(m, s, Stamp(step.tid, server, source), Emitted(Known(m), b, step).value);
    }
  }

  lemma StepReserve(m: Mapping, server: Pid, b: Bridge, s: State, step: Step, source: Source, t: Tid, op: OpId)
    requires Sim(m, server, b, s) && Enabled(Known(m), b, step) && step.Reserve?
    ensures Agree(server, Next(Known(m), b, step), After(m, server, b, s, step, source), t, op)
  {
    hide MarkerStep, Sim, Inv, Numbered, Recorded, Held, Framed, Named, WorkOps, Stacked, NamesAt;
    SimAt(m, server, b, s, t, op);
    SimAt(m, server, b, s, step.tid, b.next);
    NextFree(Known(m), b);
  }

  lemma StepAnnounce(m: Mapping, server: Pid, b: Bridge, s: State, step: Step, source: Source, t: Tid, op: OpId)
    requires Sim(m, server, b, s) && Enabled(Known(m), b, step) && step.Announce?
    ensures Agree(server, Next(Known(m), b, step), After(m, server, b, s, step, source), t, op)
  {
    hide MarkerStep, Sim, Inv, Numbered, Recorded, Held, Framed, Named, WorkOps, Stacked, NamesAt;
    SimAt(m, server, b, s, t, op);
    SimAt(m, server, b, s, step.tid, At(b, step.tid).phase.operation);
    SubmitMarker(m, s, Stamp(step.tid, server, source), Emitted(Known(m), b, step).value);
  }

  lemma AfterStartWork(m: Mapping, server: Pid, b: Bridge, s: State, step: Step, source: Source)
    requires Sim(m, server, b, s) && Enabled(Known(m), b, step) && step.StartWork?
    ensures var entry := b.records[step.work];
            var active := s.works.active[step.tid := ActiveOf(s.works, step.tid) + [entry.operation]];
            && b.lives[entry.operation].request == entry.request && entry.operation in s.works.operations
            && After(m, server, b, s, step, source) ==
               s.(works := PutWork(s.works.(active := active),
                                   entry.operation, s.works.operations[entry.operation].(started := true)),
                  threads := s.threads[step.tid := Ctx(entry.request, entry.operation, Worker, None, Observed(source))])
  {
    hide MarkerStep, Sim, Inv, Numbered, Recorded, Held, Framed, Named, WorkOps, Stacked, NamesAt, Next;
    SimAt(m, server, b, s, step.tid, b.records[step.work].operation);
    RecordAt(Known(m), b, step.work);
    EnterMarker(m, s, Stamp(step.tid, server, source), Emitted(Known(m), b, step).value);
  }

  lemma StepStartWork(m: Mapping, server: Pid, b: Bridge, s: State, step: Step, source: Source, t: Tid, op: OpId)
    requires Sim(m, server, b, s) && Enabled(Known(m), b, step) && step.StartWork?
    ensures Agree(server, Next(Known(m), b, step), After(m, server, b, s, step, source), t, op)
  {
    hide After, Sim, Inv, WorkOps, Stacked, NamesAt, Busy, Attended;
    var entry := b.records[step.work];
    AfterStartWork(m, server, b, s, step, source);
    SimAt(m, server, b, s, t, op);
    SimAt(m, server, b, s, step.tid, entry.operation);
    var l := At(b, step.tid);
    WorkOpsPush(l.frames, WorkFrame(entry.operation, l.request, l.operation));
  }

  lemma AfterEndWork(m: Mapping, server: Pid, b: Bridge, s: State, step: Step, source: Source)
    requires Sim(m, server, b, s) && Enabled(Known(m), b, step) && step.EndWork?
    ensures var l := At(b, step.tid);
            var top := l.frames[|l.frames| - 1];
            && top.operation in b.lives && b.lives[top.operation].stage == Running
            && top.operation in s.works.operations
            && After(m, server, b, s, step, source) ==
               s.(works := PutWork(s.works.(active := s.works.active[step.tid := WorkOps(l.frames[..|l.frames| - 1])]),
                                   top.operation, s.works.operations[top.operation].(finished := true)),
                  threads := s.threads[step.tid :=
                                       Ctx(top.request, top.previous, AsyncContext, None, Observed(source))])
  {
    hide MarkerStep, Sim, Inv, Numbered, Recorded, Held, Framed, Named, Stacked, NamesAt, Next;
    var l := At(b, step.tid);
    var top := l.frames[|l.frames| - 1];
    SimAt(m, server, b, s, step.tid, top.operation);
    RunningTop(b, step.tid);
    FrameRequest(Known(m), b, step.tid, |l.frames| - 1);
    LeaveMarker(m, s, Stamp(step.tid, server, source), Emitted(Known(m), b, step).value,
                WorkOps(l.frames[..|l.frames| - 1]), top.operation);
  }

  lemma StepEndWork(m: Mapping, server: Pid, b: Bridge, s: State, step: Step, source: Source, t: Tid, op: OpId)
    requires Sim(m, server, b, s) && Enabled(Known(m), b, step) && step.EndWork?
    ensures Agree(server, Next(Known(m), b, step), After(m, server, b, s, step, source), t, op)
  {
    hide After, Sim, Inv, WorkOps, Stacked, NamesAt;
    AfterEndWork(m, server, b, s, step, source);
    SimAt(m, server, b, s, t, op);
    SimAt(m, server, b, s, step.tid, op);
  }

  lemma StepTakeRecord(m: Mapping, server: Pid, b: Bridge, s: State, step: Step, source: Source, t: Tid, op: OpId)
    requires Sim(m, server, b, s) && Enabled(Known(m), b, step) && step.TakeRecord?
    ensures Agree(server, Next(Known(m), b, step), After(m, server, b, s, step, source), t, op)
  {
    hide MarkerStep, Sim, Inv, Numbered, Recorded, Held, Framed, Named, WorkOps, Stacked, NamesAt;
    SimAt(m, server, b, s, t, op);
    SimAt(m, server, b, s, step.tid, b.records[step.work].operation);
  }

  lemma StepStartDone(m: Mapping, server: Pid, b: Bridge, s: State, step: Step, source: Source, t: Tid, op: OpId)
    requires Sim(m, server, b, s) && Enabled(Known(m), b, step) && step.StartDone?
    ensures Agree(server, Next(Known(m), b, step), After(m, server, b, s, step, source), t, op)
  {
    hide MarkerStep, Sim, Inv, Numbered, Recorded, Held, Framed, Named, WorkOps, Stacked, NamesAt;
    var entry := At(b, step.tid).phase.entry;
    SimAt(m, server, b, s, t, op);
    SimAt(m, server, b, s, step.tid, entry.operation);
    ContextMarker(m, s, Stamp(step.tid, server, source), Emitted(Known(m), b, step).value);
    var l := At(b, step.tid);
    WorkOpsPush(l.frames, DoneFrame(entry.operation, l.request, l.operation));
  }

  lemma AfterReportDone(m: Mapping, server: Pid, b: Bridge, s: State, step: Step, source: Source)
    requires Sim(m, server, b, s) && Enabled(Known(m), b, step) && step.ReportDone?
    ensures var phase := At(b, step.tid).phase;
            && phase.operation in b.lives && b.lives[phase.operation].stage == Finishing(phase.status)
            && phase.operation in s.works.operations
            && After(m, server, b, s, step, source) ==
               s.(works := PutWork(s.works, phase.operation,
                                   s.works.operations[phase.operation].(completed := true,
                                                                        status := Some(phase.status))))
  {
    hide MarkerStep, Sim, Inv, Numbered, Recorded, Held, Framed, Named, WorkOps, Stacked, NamesAt, Next;
    SimAt(m, server, b, s, step.tid, At(b, step.tid).phase.operation);
    CompleteMarker(m, s, Stamp(step.tid, server, source), Emitted(Known(m), b, step).value);
  }

  lemma StepReportDone(m: Mapping, server: Pid, b: Bridge, s: State, step: Step, source: Source, t: Tid, op: OpId)
    requires Sim(m, server, b, s) && Enabled(Known(m), b, step) && step.ReportDone?
    ensures Agree(server, Next(Known(m), b, step), After(m, server, b, s, step, source), t, op)
  {
    hide After, Sim, Inv, WorkOps, Stacked, NamesAt, Busy, Attended;
    AfterReportDone(m, server, b, s, step, source);
    SimAt(m, server, b, s, t, op);
    SimAt(m, server, b, s, step.tid, At(b, step.tid).phase.operation);
  }

  lemma StepEndDone(m: Mapping, server: Pid, b: Bridge, s: State, step: Step, source: Source, t: Tid, op: OpId)
    requires Sim(m, server, b, s) && Enabled(Known(m), b, step) && step.EndDone?
    ensures Agree(server, Next(Known(m), b, step), After(m, server, b, s, step, source), t, op)
  {
    hide MarkerStep, Sim, Inv, Numbered, Recorded, Held, Framed, Named, WorkOps, Stacked, NamesAt;
    var l := At(b, step.tid);
    SimAt(m, server, b, s, t, op);
    SimAt(m, server, b, s, step.tid, op);
    WorkOpsPop(l.frames);
    FrameRequest(Known(m), b, step.tid, |l.frames| - 1);
    ContextMarker(m, s, Stamp(step.tid, server, source), Emitted(Known(m), b, step).value);
  }

  lemma StepAgree(m: Mapping, server: Pid, b: Bridge, s: State, step: Step, source: Source, t: Tid, op: OpId)
    requires Sim(m, server, b, s) && Enabled(Known(m), b, step)
    ensures Agree(server, Next(Known(m), b, step), After(m, server, b, s, step, source), t, op)
  {
    hide *;
    match step
    case SetContext(_, _) => StepContext(m, server, b, s, step, source, t, op);
    case Reserve(_, _) => StepReserve(m, server, b, s, step, source, t, op);
    case Announce(_) => StepAnnounce(m, server, b, s, step, source, t, op);
    case StartWork(_, _) => StepStartWork(m, server, b, s, step, source, t, op);
    case EndWork(_) => StepEndWork(m, server, b, s, step, source, t, op);
    case TakeRecord(_, _, _) => StepTakeRecord(m, server, b, s, step, source, t, op);
    case StartDone(_) => StepStartDone(m, server, b, s, step, source, t, op);
    case ReportDone(_) => StepReportDone(m, server, b, s, step, source, t, op);
    case EndDone(_) => StepEndDone(m, server, b, s, step, source, t, op);
  }

  lemma EffectSim(m: Mapping, server: Pid, b: Bridge, s: State, step: Step, source: Source)
    requires Sim(m, server, b, s) && Enabled(Known(m), b, step) && b.next + 1 < COUNTER_LIMIT
    ensures Sim(m, server, Next(Known(m), b, step), After(m, server, b, s, step, source))
  {
    hide Inv, Quiet, Mirrors, Nested, Tracked, Enabled, Next, After, Agree;
    StepInv(Known(m), b, step);
    var c := Next(Known(m), b, step);
    var g := After(m, server, b, s, step, source);
    StepAgree(m, server, b, s, step, source, 0, 0);
    AgreeParts(server, c, g, 0, 0);
    forall t ensures Mirrors(c, g, t) && Nested(c, g, t) {
      StepAgree(m, server, b, s, step, source, t, 0);
      AgreeParts(server, c, g, t, 0);
    }
    forall op ensures Tracked(c, g, op) {
      StepAgree(m, server, b, s, step, source, 0, op);
      AgreeParts(server, c, g, 0, op);
    }
  }

  lemma AgreeParts(server: Pid, b: Bridge, s: State, t: Tid, op: OpId)
    requires Agree(server, b, s, t, op)
    ensures Quiet(s, server) && Mirrors(b, s, t) && Nested(b, s, t) && Tracked(b, s, op)
  {
  }

  lemma KernelSim(m: Mapping, server: Pid, b: Bridge, s: State, e: Syscall)
    requires Sim(m, server, b, s) && (Forks(e) ==> e.ret.value != server)
    ensures Sim(m, server, b, TraceStep(m, s, e))
  {
    hide Inv, TraceStep, WorkOps;
    TraceFrame(m, s, e);
    var g := TraceStep(m, s, e);
    forall t ensures Mirrors(b, g, t) && Nested(b, g, t) { assert Mirrors(b, s, t) && Nested(b, s, t); }
    forall op ensures Tracked(b, g, op) { assert Tracked(b, s, op); }
  }

  // ----- whole runs ---------------------------------------------------------------------

  /** A run the bridge and libuv can produce. */
  predicate Possible(m: Mapping, server: Pid, run: seq<Event>)
    decreases |run|, 0
  {
    run == [] || (
      && Possible(m, server, run[..|run| - 1])
      && Allowed(m, server, BridgeAfter(m, server, run[..|run| - 1]), run[|run| - 1]))
  }

  function BridgeAfter(m: Mapping, server: Pid, run: seq<Event>): Bridge
    requires Possible(m, server, run)
    decreases |run|, 1
  {
    if run == [] then Start()
    else Follow(m, server, BridgeAfter(m, server, run[..|run| - 1]), run[|run| - 1])
  }

  function StateAfter(m: Mapping, server: Pid, run: seq<Event>, graph: seq<Record>): State
    requires Possible(m, server, run)
  {
    if run == [] then Initial(graph)
    else
      Observe(m, server, BridgeAfter(m, server, run[..|run| - 1]), StateAfter(m, server, run[..|run| - 1], graph),
              run[|run| - 1])
  }

  lemma RunExtended(m: Mapping, server: Pid, run: seq<Event>, graph: seq<Record>, ev: Event)
    requires Possible(m, server, run) && Allowed(m, server, BridgeAfter(m, server, run), ev)
    ensures var longer := run + [ev];
            && Possible(m, server, longer)
            && BridgeAfter(m, server, longer) == Follow(m, server, BridgeAfter(m, server, run), ev)
            && StateAfter(m, server, longer, graph) ==
                 Observe(m, server, BridgeAfter(m, server, run), StateAfter(m, server, run, graph), ev)
  {
    hide Follow, Observe, Allowed;
    assert (run + [ev])[..|run|] == run;
  }

  lemma SimInv(m: Mapping, server: Pid, b: Bridge, s: State)
    requires Sim(m, server, b, s)
    ensures Inv(Known(m), b)
  {
    hide Inv;
  }

  lemma {:induction false} RunSim(m: Mapping, server: Pid, run: seq<Event>, graph: seq<Record>)
    requires Possible(m, server, run) && |run| + 2 < COUNTER_LIMIT
    ensures Sim(m, server, BridgeAfter(m, server, run), StateAfter(m, server, run, graph))
    ensures BridgeAfter(m, server, run).next <= 1 + |run|
  {
    hide Sim, Enabled, Next;
    if run == [] {
      SimStart(m, server, graph);
    } else {
      var prefix := run[..|run| - 1];
      RunSim(m, server, prefix, graph);
      var b := BridgeAfter(m, server, prefix);
      var s := StateAfter(m, server, prefix, graph);
      match run[|run| - 1]
      case Effect(step, source) =>
        EffectSim(m, server, b, s, step, source);
        SimAt(m, server, b, s, 0, 0);
        StepInv(Known(m), b, step);
      case Kernel(e) => KernelSim(m, server, b, s, e);
    }
  }

  /** After any interleaving, the attributor holds every thread's own request and operation,
      the running work of every thread in call order, and no error. */
  lemma ContextsReplayed(m: Mapping, server: Pid, run: seq<Event>, graph: seq<Record>, tid: Tid, source: Source)
    requires Possible(m, server, run) && |run| + 2 < COUNTER_LIMIT
    ensures var l := At(BridgeAfter(m, server, run), tid);
            var s := StateAfter(m, server, run, graph);
            var c := ContextOf(s, Stamp(tid, server, source));
            && s.errors == []
            && RequestOf(c) == l.request && (if c.Some? then c.value.operation else 0) == l.operation
            && ActiveOf(s.works, tid) == WorkOps(l.frames)
  {
    RunSim(m, server, run, graph);
    SimAt(m, server, BridgeAfter(m, server, run), StateAfter(m, server, run, graph), tid, 0);
  }

  /** The row of a syscall made by a server thread names the request and operation its
      thread-locals held at that moment; it stays in the output of every longer run. */
  lemma RowsNameRunningRequest(m: Mapping, server: Pid, run: seq<Event>, graph: seq<Record>, i: nat)
    requires Possible(m, server, run) && |run| + 2 < COUNTER_LIMIT
    requires i < |run| && run[i].Kernel? && run[i].e.stamp.pid == server && !run[i].e.instrumentation
    ensures Possible(m, server, run[..i])
    ensures var l := At(BridgeAfter(m, server, run[..i]), run[i].e.stamp.tid);
            var before := StateAfter(m, server, run[..i], graph).effects.rows;
            var after := StateAfter(m, server, run, graph).effects.rows;
            && before < after && after[|before|].stamp == run[i].e.stamp
            && (l.request != 0 ==> after[|before|].context == l.request && after[|before|].operation == l.operation)
            && (l.request == 0 && !run[i].e.call.Receive? ==> after[|before|].context == 0)
  {
    hide TraceStep, Possible, BridgeAfter, ContextOf;
    PrefixPossible(m, server, run, i);
    PrefixPossible(m, server, run, i + 1);
    KernelStep(m, server, run, graph, i);
    RowsGrow(m, server, run, graph, i + 1);
    ContextsReplayed(m, server, run[..i], graph, run[i].e.stamp.tid, run[i].e.stamp.source);
    RowOfCaller(m, StateAfter(m, server, run[..i], graph), run[i].e);
  }

  lemma KernelStep(m: Mapping, server: Pid, run: seq<Event>, graph: seq<Record>, i: nat)
    requires i < |run| && run[i].Kernel? && Possible(m, server, run[..i]) && Possible(m, server, run[..i + 1])
    ensures StateAfter(m, server, run[..i + 1], graph) == TraceStep(m, StateAfter(m, server, run[..i], graph), run[i].e)
  {
    hide TraceStep;
    assert run[..i + 1][..i] == run[..i];
  }

  lemma {:induction false} PrefixPossible(m: Mapping, server: Pid, run: seq<Event>, i: nat)
    requires Possible(m, server, run) && i <= |run|
    ensures Possible(m, server, run[..i])
    decreases |run| - i
  {
    if i < |run| {
      PrefixPossible(m, server, run, i + 1);
      assert run[..i + 1][..i] == run[..i];
    } else {
      assert run[..i] == run;
    }
  }

  lemma {:induction false} RowsGrow(m: Mapping, server: Pid, run: seq<Event>, graph: seq<Record>, i: nat)
    requires Possible(m, server, run) && i <= |run|
    ensures Possible(m, server, run[..i])
    ensures StateAfter(m, server, run[..i], graph).effects.rows <= StateAfter(m, server, run, graph).effects.rows
  {
    PrefixPossible(m, server, run, i);
    if i == |run| {
      assert run[..i] == run;
    } else {
      var prefix := run[..|run| - 1];
      assert prefix[..i] == run[..i];
      RowsGrow(m, server, prefix, graph, i);
      var s := StateAfter(m, server, prefix, graph);
      match run[|run| - 1]
      case Effect(step, source) => MarkerRows(m, server, BridgeAfter(m, server, prefix), s, step, source);
      case Kernel(e) => TraceFrame(m, s, e);
    }
  }

  lemma MarkerRows(m: Mapping, server: Pid, b: Bridge, s: State, step: Step, source: Source)
    requires Enabled(Known(m), b, step)
    ensures After(m, server, b, s, step, source).effects.rows == s.effects.rows
  {
    hide MarkerStep, Next, Emitted, Enabled;
    match Emitted(Known(m), b, step)
    case None =>
    case Some(n) => MarkerFrame(m, s, Stamp(step.tid, server, source), n);
  }

  /** Final validation passes exactly when every announced submission has completed. */
  lemma ValidIffAllComplete(m: Mapping, server: Pid, run: seq<Event>, graph: seq<Record>)
    requires Possible(m, server, run) && |run| + 2 < COUNTER_LIMIT
    ensures var b := BridgeAfter(m, server, run);
            Findings(StateAfter(m, server, run, graph)) == {} <==>
            forall op :: op in b.lives ==> b.lives[op].stage.Reserved? || b.lives[op].stage.Finished?
  {
    RunSim(m, server, run, graph);
    FindingsOf(m, server, BridgeAfter(m, server, run), StateAfter(m, server, run, graph));
  }

  lemma FindingsOf(m: Mapping, server: Pid, b: Bridge, s: State)
    requires Sim(m, server, b, s)
    ensures Findings(s) == {} <==> forall op ::
            op in b.lives ==> b.lives[op].stage.Reserved? || b.lives[op].stage.Finished?
  {
    forall op ensures Tracked(b, s, op) && (op in b.lives ==> Attended(b, op)) { SimAt(m, server, b, s, 0, op); }
    assert Quiet(s, server);
    hide Sim, Nested, Mirrors;
    var unfinished := Unfinished(s.works);
    forall op ensures op in unfinished <==>
      op in b.lives && !b.lives[op].stage.Reserved? && !b.lives[op].stage.Finished? {
      SimAt(m, server, b, s, 0, op);
    }
    if unfinished == {} {
      forall op | op in s.works.operations
        ensures s.works.operations[op].status == Some(0) ==>
                s.works.operations[op].started && s.works.operations[op].finished
        ensures s.works.operations[op].status == Some(-125) ==> !s.works.operations[op].started
      {
        SimAt(m, server, b, s, 0, op);
      }
      forall t | t in s.works.active ensures s.works.active[t] == [] {
        SimAt(m, server, b, s, t, 0);
        NoneRunning(b, s, t, At(b, t).frames);
      }
    } else {
      assert LackCompletion(|unfinished|) in Findings(s);
    }
  }

  lemma NoneRunning(b: Bridge, s: State, t: Tid, frames: seq<Frame>)
    requires forall op :: op in b.lives ==> b.lives[op].stage != Running
    requires forall i :: 0 <= i < |frames| && frames[i].WorkFrame? ==>
               frames[i].operation in b.lives && b.lives[frames[i].operation].stage == Running
    ensures WorkOps(frames) == []
  {
    if frames != [] {
      var top := frames[|frames| - 1];
      NoneRunning(b, s, t, frames[..|frames| - 1]);
    }
  }
}
