/** Replaying the Tokio bridge's markers rebuilds every thread's innermost span. */
module TokioReplay {
  import opened Trace
  import opened TokioBridge
  import opened Attribution
  import opened MarkerFacts

  datatype Event = Effect(step: Step, source: Source) | Kernel(e: Syscall)

  function Known(m: Mapping): set<Context> { m.owners.Keys }

  predicate Allowed(m: Mapping, server: Pid, b: Bridge, ev: Event) {
    match ev
    case Effect(step, _) => Enabled(Known(m), b, step)
    case Kernel(e) => Forks(e) ==> e.ret.value != server
  }

  function Follow(m: Mapping, server: Pid, b: Bridge, ev: Event): Bridge
    requires Allowed(m, server, b, ev)
  {
    match ev case Effect(step, _) => Next(Known(m), b, step) case Kernel(_) => b
  }

  function After(m: Mapping, server: Pid, b: Bridge, s: State, step: Step, source: Source): State
    requires Enabled(Known(m), b, step)
  {
    match Emitted(Known(m), b, step)
    case None => s
    case Some(n) => MarkerStep(m, s, Stamp(step.tid, server, source), n)
  }

  function Observe(m: Mapping, server: Pid, b: Bridge, s: State, ev: Event): State
    requires Allowed(m, server, b, ev)
  {
    match ev
    case Effect(step, source) => After(m, server, b, s, step, source)
    case Kernel(e) => TraceStep(m, s, e)
  }

  // ----- the relation -----------------------------------------------------------------

  ghost predicate Quiet(s: State, server: Pid) {
    s.errors == [] && s.ipc == Ipc(map[], map[]) && server !in s.effects.inherited
  }

  ghost predicate Mirrors(b: Bridge, s: State, t: Tid) {
    if t in s.threads then (s.threads[t].request, s.threads[t].operation) == Current(At(b, t))
    else At(b, t).stack == []
  }

  function Operations(stack: seq<Frame>): seq<OpId> {
    seq(|stack|, i requires 0 <= i < |stack| => stack[i].operation)
  }

  ghost predicate Nested(b: Bridge, s: State, t: Tid) { ActiveOf(s.works, t) == Operations(At(b, t).stack) }

  /** The attributor's record of an execution interval. */
  function Shadow(l: Life): Work {
    match l.stage
    case Running => Work(l.request, true, false, false, None)
    case Left => Work(l.request, true, true, false, None)
    case Completed => Work(l.request, true, true, true, Some(0))
    case Submitted => Work(l.request, false, false, false, None)
    case Unannounced => Work(l.request, false, false, false, None)
  }

  ghost predicate Tracked(b: Bridge, s: State, op: OpId) {
    && (op in s.works.operations <==> op in b.lives && !b.lives[op].stage.Unannounced?)
    && (op in s.works.operations ==> s.works.operations[op] == Shadow(b.lives[op]))
  }

  ghost predicate SpanKnown(b: Bridge, s: State, span: SpanId) {
    span in s.works.spans ==> span in b.owners && b.owners[span].request == s.works.spans[span]
  }

  ghost predicate Sim(m: Mapping, server: Pid, b: Bridge, s: State) {
    && Inv(Known(m), b)
    && Quiet(s, server)
    && (forall t :: Mirrors(b, s, t))
    && (forall t :: Nested(b, s, t))
    && (forall op :: Tracked(b, s, op))
    && (forall span :: SpanKnown(b, s, span))
  }

  lemma SimStart(m: Mapping, server: Pid, graph: seq<Record>)
    ensures Sim(m, server, Start(), Initial(graph))
  {
    StartInv(Known(m));
  }

  lemma SimAt(m: Mapping, server: Pid, b: Bridge, s: State, t: Tid, op: OpId, span: SpanId)
    requires Sim(m, server, b, s)
    ensures Inv(Known(m), b) && Quiet(s, server)
    ensures Mirrors(b, s, t) && Nested(b, s, t) && Tracked(b, s, op) && SpanKnown(b, s, span)
    ensures Busy(b, t) && Stacked(b, t) && (op in b.lives ==> Attended(b, op))
    ensures Current(At(b, t)).0 == 0 || Current(At(b, t)).0 in m.owners
    ensures op in b.lives ==> b.lives[op].request == 0 || b.lives[op].request in m.owners
    ensures span in b.owners ==> b.owners[span].request == 0 || b.owners[span].request in m.owners
    ensures b.next !in b.lives
  {
    InvAt(Known(m), b, t);
  }

  ghost predicate Agree(server: Pid, b: Bridge, s: State, t: Tid, op: OpId, span: SpanId) {
    Quiet(s, server) && Mirrors(b, s, t) && Nested(b, s, t) && Tracked(b, s, op) && SpanKnown(b, s, span)
  }

  // ----- one step -----------------------------------------------------------------------

  lemma StepSilent(m: Mapping, server: Pid, b: Bridge, s: State, step: Step, source: Source, t: Tid, op: OpId,
                   span: SpanId)
    requires Sim(m, server, b, s) && Enabled(Known(m), b, step) && (step.NewSpan? || step.Enter?)
    ensures Agree(server, Next(Known(m), b, step), After(m, server, b, s, step, source), t, op, span)
  {
    hide Sim, Inv, Operations, Stacked, MarkerStep;
    SimAt(m, server, b, s, t, op, span);
    SimAt(m, server, b, s, step.tid, b.next, step.span);
  }

  lemma StepAnnounce(m: Mapping, server: Pid, b: Bridge, s: State, step: Step, source: Source, t: Tid, op: OpId,
                     span: SpanId)
    requires Sim(m, server, b, s) && Enabled(Known(m), b, step) && step.Announce?
    ensures Agree(server, Next(Known(m), b, step), After(m, server, b, s, step, source), t, op, span)
  {
    hide Sim, Inv, Operations, Stacked, MarkerStep;
    var phase := At(b, step.tid).phase;
    SimAt(m, server, b, s, t, op, span);
    SimAt(m, server, b, s, step.tid, phase.operation, phase.span);
    SpanSubmitMarker(m, s, Stamp(step.tid, server, source), Emitted(Known(m), b, step).value);
  }

  lemma AfterPush(m: Mapping, server: Pid, b: Bridge, s: State, step: Step, source: Source)
    requires Sim(m, server, b, s) && Enabled(Known(m), b, step) && step.Push?
    ensures var phase := At(b, step.tid).phase;
            var active := s.works.active[step.tid := ActiveOf(s.works, step.tid) + [phase.operation]];
            && phase.operation in s.works.operations && phase.operation in b.lives && phase.span in b.owners
            && After(m, server, b, s, step, source) ==
               s.(works := PutWork(s.works.(active := active),
                                   phase.operation, s.works.operations[phase.operation].(started := true)),
                  threads := s.threads[step.tid :=
                    Ctx(b.owners[phase.span].request, phase.operation, Worker, None, Observed(source))])
  {
    hide Sim, Inv, Stacked, MarkerStep, Operations, Next;
    var phase := At(b, step.tid).phase;
    SimAt(m, server, b, s, step.tid, phase.operation, phase.span);
    EnterMarker(m, s, Stamp(step.tid, server, source), Emitted(Known(m), b, step).value);
  }

  lemma StepPush(m: Mapping, server: Pid, b: Bridge, s: State, step: Step, source: Source, t: Tid, op: OpId,
                 span: SpanId)
    requires Sim(m, server, b, s) && Enabled(Known(m), b, step) && step.Push?
    ensures Agree(server, Next(Known(m), b, step), After(m, server, b, s, step, source), t, op, span)
  {
    hide After, Sim, Inv, Stacked, Operations, Attended;
    var l := At(b, step.tid);
    AfterPush(m, server, b, s, step, source);
    SimAt(m, server, b, s, t, op, span);
    SimAt(m, server, b, s, step.tid, l.phase.operation, l.phase.span);
    OperationsPush(l.stack, Frame(l.phase.span, b.owners[l.phase.span].request, l.phase.operation));
  }

  lemma OperationsPush(stack: seq<Frame>, f: Frame)
    ensures Operations(stack + [f]) == Operations(stack) + [f.operation]
  {
  }

  lemma OperationsPop(stack: seq<Frame>)
    requires stack != []
    ensures Operations(stack) == Operations(stack[..|stack| - 1]) + [stack[|stack| - 1].operation]
  {
  }

  lemma RunningTop(b: Bridge, t: Tid)
    requires Stacked(b, t) && At(b, t).stack != []
    ensures var top := Top(At(b, t)); Holds(b, t, top.operation, Running, top.request)
  {
  }

  lemma RestKnown(m: Mapping, b: Bridge, t: Tid)
    requires Inv(Known(m), b) && At(b, t).stack != []
    ensures var rest := Current(Local(At(b, t).stack[..|At(b, t).stack| - 1], Idle));
            rest.0 == 0 || rest.0 in m.owners
  {
    var stack := At(b, t).stack;
    InvAt(Known(m), b, t);
    hide Inv;
    if |stack| > 1 {
      assert Holds(b, t, stack[|stack| - 2].operation, Running, stack[|stack| - 2].request);
    }
  }

  lemma AfterExit(m: Mapping, server: Pid, b: Bridge, s: State, step: Step, source: Source)
    requires Sim(m, server, b, s) && Enabled(Known(m), b, step) && step.Exit? && Relevant(b, step.span)
    ensures var l := At(b, step.tid);
            var top := Top(l);
            var rest := l.stack[..|l.stack| - 1];
            var outer := Current(Local(rest, Idle));
            && Holds(b, step.tid, top.operation, Running, top.request) && top.operation in s.works.operations
            && After(m, server, b, s, step, source) ==
               s.(works := PutWork(s.works.(active := s.works.active[step.tid := Operations(rest)]),
                                   top.operation, s.works.operations[top.operation].(finished := true)),
                  threads := s.threads[step.tid := Ctx(outer.0, outer.1, AsyncContext, None, Observed(source))])
  {
    hide Sim, Inv, Stacked, MarkerStep, Operations, Current;
    var l := At(b, step.tid);
    var top := Top(l);
    SimAt(m, server, b, s, step.tid, top.operation, step.span);
    RunningTop(b, step.tid);
    RestKnown(m, b, step.tid);
    OperationsPop(l.stack);
    LeaveMarker(m, s, Stamp(step.tid, server, source), Emitted(Known(m), b, step).value,
                Operations(l.stack[..|l.stack| - 1]), top.operation);
  }

  lemma StepExit(m: Mapping, server: Pid, b: Bridge, s: State, step: Step, source: Source, t: Tid, op: OpId,
                 span: SpanId)
    requires Sim(m, server, b, s) && Enabled(Known(m), b, step) && step.Exit? && Relevant(b, step.span)
    ensures Agree(server, Next(Known(m), b, step), After(m, server, b, s, step, source), t, op, span)
  {
    hide After, Sim, Inv, Operations, Stacked;
    AfterExit(m, server, b, s, step, source);
    SimAt(m, server, b, s, t, op, span);
    SimAt(m, server, b, s, step.tid, op, span);
  }

  lemma AfterReport(m: Mapping, server: Pid, b: Bridge, s: State, step: Step, source: Source)
    requires Sim(m, server, b, s) && Enabled(Known(m), b, step) && step.Report?
    ensures var op := At(b, step.tid).phase.frame.operation;
            && op in s.works.operations && op in b.lives && b.lives[op].stage == Left
            && After(m, server, b, s, step, source) ==
               s.(works := PutWork(s.works, op, s.works.operations[op].(completed := true, status := Some(0))))
  {
    hide Sim, Inv, Stacked, MarkerStep, Operations, Next;
    var frame := At(b, step.tid).phase.frame;
    SimAt(m, server, b, s, step.tid, frame.operation, frame.span);
    CompleteMarker(m, s, Stamp(step.tid, server, source), Emitted(Known(m), b, step).value);
  }

  lemma StepReport(m: Mapping, server: Pid, b: Bridge, s: State, step: Step, source: Source, t: Tid, op: OpId,
                   span: SpanId)
    requires Sim(m, server, b, s) && Enabled(Known(m), b, step) && step.Report?
    ensures Agree(server, Next(Known(m), b, step), After(m, server, b, s, step, source), t, op, span)
  {
    hide After, Sim, Inv, Stacked, Operations, Attended;
    var frame := At(b, step.tid).phase.frame;
    AfterReport(m, server, b, s, step, source);
    SimAt(m, server, b, s, t, op, span);
    SimAt(m, server, b, s, step.tid, frame.operation, frame.span);
  }

  lemma StepAgree(m: Mapping, server: Pid, b: Bridge, s: State, step: Step, source: Source, t: Tid, op: OpId,
                  span: SpanId)
    requires Sim(m, server, b, s) && Enabled(Known(m), b, step)
    ensures Agree(server, Next(Known(m), b, step), After(m, server, b, s, step, source), t, op, span)
  {
    hide Sim, Enabled, Relevant;
    match step
    case NewSpan(_, _, _, _, _) => StepSilent(m, server, b, s, step, source, t, op, span);
    case Enter(_, _) => StepSilent(m, server, b, s, step, source, t, op, span);
    case Announce(_) => StepAnnounce(m, server, b, s, step, source, t, op, span);
    case Push(_) => StepPush(m, server, b, s, step, source, t, op, span);
    case Exit(_, exited) =>
      if Relevant(b, exited) { StepExit(m, server, b, s, step, source, t, op, span); }
      else { SimAt(m, server, b, s, t, op, span); }
    case Report(_) => StepReport(m, server, b, s, step, source, t, op, span);
  }

  lemma AgreeParts(server: Pid, b: Bridge, s: State, t: Tid, op: OpId, span: SpanId)
    requires Agree(server, b, s, t, op, span)
    ensures Quiet(s, server) && Mirrors(b, s, t) && Nested(b, s, t) && Tracked(b, s, op) && SpanKnown(b, s, span)
  {
  }

  lemma EffectSim(m: Mapping, server: Pid, b: Bridge, s: State, step: Step, source: Source)
    requires Sim(m, server, b, s) && Enabled(Known(m), b, step) && b.next + 1 < COUNTER_LIMIT
    ensures Sim(m, server, Next(Known(m), b, step), After(m, server, b, s, step, source))
  {
    hide Inv, Quiet, Mirrors, Nested, Tracked, SpanKnown, Enabled, Next, After, Agree;
    StepInv(Known(m), b, step);
    var c := Next(Known(m), b, step);
    var g := After(m, server, b, s, step, source);
    StepAgree(m, server, b, s, step, source, 0, 0, 0);
    AgreeParts(server, c, g, 0, 0, 0);
    forall t ensures Mirrors(c, g, t) && Nested(c, g, t) {
      StepAgree(m, server, b, s, step, source, t, 0, 0);
      AgreeParts(server, c, g, t, 0, 0);
    }
    forall op ensures Tracked(c, g, op) {
      StepAgree(m, server, b, s, step, source, 0, op, 0);
      AgreeParts(server, c, g, 0, op, 0);
    }
    forall span ensures SpanKnown(c, g, span) {
      StepAgree(m, server, b, s, step, source, 0, 0, span);
      AgreeParts(server, c, g, 0, 0, span);
    }
  }

  lemma KernelSim(m: Mapping, server: Pid, b: Bridge, s: State, e: Syscall)
    requires Sim(m, server, b, s) && (Forks(e) ==> e.ret.value != server)
    ensures Sim(m, server, b, TraceStep(m, s, e))
  {
    hide Inv, TraceStep, Operations;
    TraceFrame(m, s, e);
    var g := TraceStep(m, s, e);
    forall t ensures Mirrors(b, g, t) && Nested(b, g, t) { assert Mirrors(b, s, t) && Nested(b, s, t); }
    forall op ensures Tracked(b, g, op) { assert Tracked(b, s, op); }
    forall span ensures SpanKnown(b, g, span) { assert SpanKnown(b, s, span); }
  }

  // ----- whole runs ---------------------------------------------------------------------

  predicate Possible(m: Mapping, server: Pid, run: seq<Event>)
    decreases |run|, 0
  {
    run == [] || (
      && Possible(m, server, run[..|run| - 1])
      && Allowed(m, server, BridgeAfter(m, server, run[..|run| - 1]), run[|run| - 1]))
  }

  function BridgeAfter(m: Mapping, server: Pid, run: seq<Event>): Bridge
    requires Possible(m, server, run)
    decreases |run|, 1
  {
    if run == [] then Start()
    else Follow(m, server, BridgeAfter(m, server, run[..|run| - 1]), run[|run| - 1])
  }

  function StateAfter(m: Mapping, server: Pid, run: seq<Event>, graph: seq<Record>): State
    requires Possible(m, server, run)
  {
    if run == [] then Initial(graph)
    else
      Observe(m, server, BridgeAfter(m, server, run[..|run| - 1]), StateAfter(m, server, run[..|run| - 1], graph),
              run[|run| - 1])
  }

  lemma RunExtended(m: Mapping, server: Pid, run: seq<Event>, graph: seq<Record>, ev: Event)
    requires Possible(m, server, run) && Allowed(m, server, BridgeAfter(m, server, run), ev)
    ensures var longer := run + [ev];
            && Possible(m, server, longer)
            && BridgeAfter(m, server, longer) == Follow(m, server, BridgeAfter(m, server, run), ev)
            && StateAfter(m, server, longer, graph) ==
                 Observe(m, server, BridgeAfter(m, server, run), StateAfter(m, server, run, graph), ev)
  {
    hide Follow, Observe, Allowed;
    assert (run + [ev])[..|run|] == run;
  }

  lemma SimInv(m: Mapping, server: Pid, b: Bridge, s: State)
    requires Sim(m, server, b, s)
    ensures Inv(Known(m), b)
  {
    hide Inv;
  }

  lemma {:induction false} RunSim(m: Mapping, server: Pid, run: seq<Event>, graph: seq<Record>)
    requires Possible(m, server, run) && |run| + 2 < COUNTER_LIMIT
    ensures Sim(m, server, BridgeAfter(m, server, run), StateAfter(m, server, run, graph))
    ensures BridgeAfter(m, server, run).next <= 1 + |run|
  {
    hide Sim, Enabled, Next;
    if run == [] {
      SimStart(m, server, graph);
    } else {
      var prefix := run[..|run| - 1];
      RunSim(m, server, prefix, graph);
      var b := BridgeAfter(m, server, prefix);
      var s := StateAfter(m, server, prefix, graph);
      match run[|run| - 1]
      case Effect(step, source) =>
        EffectSim(m, server, b, s, step, source);
        SimAt(m, server, b, s, 0, 0, 0);
        StepInv(Known(m), b, step);
      case Kernel(e) => KernelSim(m, server, b, s, e);
    }
  }

  /** After any interleaving of spans over any threads, the attributor holds the top of
      every thread's stack, the stack's operations in order, and no error. */
  lemma ContextsReplayed(m: Mapping, server: Pid, run: seq<Event>, graph: seq<Record>, tid: Tid, source: Source)
    requires Possible(m, server, run) && |run| + 2 < COUNTER_LIMIT
    ensures var l := At(BridgeAfter(m, server, run), tid);
            var s := StateAfter(m, server, run, graph);
            var c := ContextOf(s, Stamp(tid, server, source));
            && s.errors == []
            && (RequestOf(c), if c.Some? then c.value.operation else 0) == Current(l)
            && ActiveOf(s.works, tid) == Operations(l.stack)
  {
    RunSim(m, server, run, graph);
    SimAt(m, server, BridgeAfter(m, server, run), StateAfter(m, server, run, graph), tid, 0, 0);
  }

  /** A server thread's syscall is attributed to the span it runs, at that moment. */
  lemma NextRowNamesTop(m: Mapping, server: Pid, run: seq<Event>, graph: seq<Record>, e: Syscall)
    requires Possible(m, server, run) && |run| + 3 < COUNTER_LIMIT
    requires e.stamp.pid == server && !e.instrumentation && (Forks(e) ==> e.ret.value != server)
    ensures Possible(m, server, run + [Kernel(e)])
    ensures var l := At(BridgeAfter(m, server, run), e.stamp.tid);
            var before := StateAfter(m, server, run, graph).effects.rows;
            var after := StateAfter(m, server, run + [Kernel(e)], graph).effects.rows;
            && |after| == |before| + 1 && before <= after
            && (Current(l).0 != 0 ==> (after[|before|].context, after[|before|].operation) == Current(l))
            && (Current(l).0 == 0 && !e.call.Receive? ==> after[|before|].context == 0)
  {
    assert (run + [Kernel(e)])[..|run|] == run;
    ContextsReplayed(m, server, run, graph, e.stamp.tid, e.stamp.source);
    RowOfCaller(m, StateAfter(m, server, run, graph), e);
  }

  /** A span keeps the owner it was created with. */
  lemma OwnersFixed(m: Mapping, b: Bridge, step: Step, span: SpanId)
    requires Enabled(Known(m), b, step) && span in b.owners
    ensures span in Next(Known(m), b, step).owners && Next(Known(m), b, step).owners[span] == b.owners[span]
  {
  }

  /** Final validation passes exactly when every announced interval has been closed. */
  lemma ValidIffAllComplete(m: Mapping, server: Pid, run: seq<Event>, graph: seq<Record>)
    requires Possible(m, server, run) && |run| + 2 < COUNTER_LIMIT
    ensures var b := BridgeAfter(m, server, run);
            Findings(StateAfter(m, server, run, graph)) == {} <==>
            forall op :: op in b.lives ==> b.lives[op].stage.Unannounced? || b.lives[op].stage.Completed?
  {
    RunSim(m, server, run, graph);
    FindingsOf(m, server, BridgeAfter(m, server, run), StateAfter(m, server, run, graph));
  }

  lemma FindingsOf(m: Mapping, server: Pid, b: Bridge, s: State)
    requires Sim(m, server, b, s)
    ensures Findings(s) == {} <==> forall op ::
            op in b.lives ==> b.lives[op].stage.Unannounced? || b.lives[op].stage.Completed?
  {
    assert Quiet(s, server);
    hide Sim, Nested, Mirrors, Stacked;
    var unfinished := Unfinished(s.works);
    forall op ensures op in unfinished <==>
      op in b.lives && !b.lives[op].stage.Unannounced? && !b.lives[op].stage.Completed? {
      SimAt(m, server, b, s, 0, op, 0);
    }
    if unfinished == {} {
      forall op | op in s.works.operations
        ensures s.works.operations[op].status == Some(0) ==>
                s.works.operations[op].started && s.works.operations[op].finished
        ensures s.works.operations[op].status != Some(-125)
      {
        SimAt(m, server, b, s, 0, op, 0);
      }
      forall t | t in s.works.active ensures s.works.active[t] == [] {
        SimAt(m, server, b, s, t, 0, 0);
        if At(b, t).stack != [] { RunningTop(b, t); }
        NestedAt(b, s, t);
      }
    } else {
      assert LackCompletion(|unfinished|) in Findings(s);
    }
  }

  lemma NestedAt(b: Bridge, s: State, t: Tid)
    requires Nested(b, s, t) && At(b, t).stack == []
    ensures ActiveOf(s.works, t) == []
  {
  }
}
