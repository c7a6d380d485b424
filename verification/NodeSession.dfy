/** The Node bridge and the attributor side by side: every marker the bridge writes is processed
    as it is written, every syscall as it happens, and the attributor keeps mirroring the bridge. */
module NodeSession {
  import opened Trace
  import opened NodeBridge
  import A = Attribution
  import R = NodeReplay
  import NodeHistory
  import opened NodeRuntime
  import opened AttributorClass

  class Session {
    const server: Pid
    const runtime: Runtime
    const attributor: Attributor
    ghost const seed: seq<A.Record>
    /** What has happened so far. */
    ghost var run: seq<R.Event>

    constructor (mapping: A.Mapping, server: Pid, seed: seq<A.Record>)
      ensures Valid() && run == [] && fresh(runtime) && fresh(attributor)
      ensures this.seed == seed && this.server == server && attributor.mapping == mapping
    {
      this.server := server;
      this.seed := seed;
      runtime := new Runtime(R.Known(mapping));
      attributor := new Attributor(mapping, seed);
      run := [];
      new;
      R.SimStart(mapping, server, seed);
    }

    ghost function M(): A.Mapping { attributor.mapping }

    /** The attributor mirrors the bridge, thread by thread, and both are where the run leads. */
    ghost predicate Valid()
      reads this, runtime, attributor
    {
      && runtime.known == R.Known(M())
      && R.Possible(M(), server, run)
      && runtime.View() == R.BridgeAfter(M(), server, run)
      && attributor.View() == R.StateAfter(M(), server, run, seed)
      && R.Sim(M(), server, runtime.View(), attributor.View())
      && runtime.View().next <= 1 + |run|
    }

    ghost predicate Ready(step: Step)
      reads this, runtime
    {
      Enabled(runtime.known, runtime.View(), step) && |run| + 3 < COUNTER_LIMIT
    }

    /** Hand over what the last step wrote, if anything. */
    method Deliver(count: nat, ghost step: Step, source: Source, ghost b: Bridge)
      requires R.Possible(M(), server, run) && b == R.BridgeAfter(M(), server, run) && b.next <= 1 + |run|
      requires attributor.View() == R.StateAfter(M(), server, run, seed) && R.Sim(M(), server, b, attributor.View())
      requires runtime.known == R.Known(M()) && Enabled(runtime.known, b, step) && |run| + 3 < COUNTER_LIMIT
      requires runtime.View() == Next(runtime.known, b, step) && count <= |runtime.log|
      requires runtime.log[count..] == Written(runtime.known, b, step)
      modifies this`run, attributor
      ensures Valid() && run == old(run) + [R.Effect(step, source)]
    {
      hide R.Sim, Next, Enabled, Emitted, A.MarkerStep, R.Observe, R.After;
      ghost var s := attributor.View();
      if count < |runtime.log| {
        var note := runtime.log[count];
        attributor.ProcessMarker(Stamp(note.tid, server, source), note);
      }
      DeliveredIs(M(), server, b, s, step, source, attributor.View(), runtime.log[count..]);
      R.AfterIsObserve(M(), server, b, s, step, source);
      R.EffectSim(M(), server, b, s, step, source);
      R.RunExtended(M(), server, run, seed, R.Effect(step, source));
      R.SimInv(M(), server, b, s);
      StepInv(runtime.known, b, step);
      run := run + [R.Effect(step, source)];
    }

    method Context(tid: Tid, request: Context, source: Source) returns (previous: Context)
      requires Valid() && Ready(SetContext(tid, request))
      modifies this`run, runtime, attributor
      ensures Valid() && run == old(run) + [R.Effect(SetContext(tid, request), source)]
    {
      hide R.Sim, Next;
      ghost var b := runtime.View();
      var count := |runtime.log|;
      previous := runtime.Context(tid, request);
      SameContext(runtime.known, b, tid, request);
      Deliver(count, SetContext(tid, request), source, b);
    }

    /** Submitting is two steps: anything may happen on other threads in between. */
    method Submit(tid: Tid, work: Pointer, source: Source) returns (exit: int)
      requires Valid() && Ready(Reserve(tid, work)) && runtime.fatal == 0
      modifies this`run, runtime, attributor
      ensures Valid() && run == old(run) + [R.Effect(Reserve(tid, work), source)]
      ensures exit == 0 && runtime.fatal == 0
    {
      hide R.Sim, Next;
      ghost var b := runtime.View();
      var count := |runtime.log|;
      exit := runtime.Submit(tid, work);
      Deliver(count, Reserve(tid, work), source, b);
    }

    method AnnounceWork(tid: Tid, record: Entry, work: Pointer, source: Source)
      requires Valid() && Ready(Announce(tid)) && runtime.Here(tid).phase.operation == record.operation
      requires record.operation in runtime.lives
      requires runtime.lives[record.operation].request == record.request && runtime.lives[record.operation].work == work
      modifies this`run, runtime, attributor
      ensures Valid() && run == old(run) + [R.Effect(Announce(tid), source)]
    {
      hide R.Sim, Next;
      ghost var b := runtime.View();
      var count := |runtime.log|;
      runtime.AnnounceWork(tid, record, work);
      Deliver(count, Announce(tid), source, b);
    }

    method BeginWork(tid: Tid, work: Pointer, source: Source)
      requires Valid() && Ready(StartWork(tid, work))
      modifies this`run, runtime, attributor
      ensures Valid() && run == old(run) + [R.Effect(StartWork(tid, work), source)]
    {
      hide R.Sim, Next;
      ghost var b := runtime.View();
      var count := |runtime.log|;
      runtime.BeginWork(tid, work);
      Deliver(count, StartWork(tid, work), source, b);
    }

    method FinishWork(tid: Tid, source: Source)
      requires Valid() && Ready(EndWork(tid))
      modifies this`run, runtime, attributor
      ensures Valid() && run == old(run) + [R.Effect(EndWork(tid), source)]
    {
      hide R.Sim, Next;
      ghost var b := runtime.View();
      var count := |runtime.log|;
      runtime.FinishWork(tid);
      Deliver(count, EndWork(tid), source, b);
    }

    method EraseRecord(tid: Tid, work: Pointer, status: int, source: Source)
      requires Valid() && Ready(TakeRecord(tid, work, status))
      modifies this`run, runtime, attributor
      ensures Valid() && run == old(run) + [R.Effect(TakeRecord(tid, work, status), source)]
    {
      hide R.Sim, Next;
      ghost var b := runtime.View();
      var count := |runtime.log|;
      runtime.EraseRecord(tid, work, status);
      Deliver(count, TakeRecord(tid, work, status), source, b);
    }

    method BeginDone(tid: Tid, source: Source)
      requires Valid() && Ready(StartDone(tid))
      modifies this`run, runtime, attributor
      ensures Valid() && run == old(run) + [R.Effect(StartDone(tid), source)]
    {
      hide R.Sim, Next;
      ghost var b := runtime.View();
      var count := |runtime.log|;
      runtime.BeginDone(tid);
      Deliver(count, StartDone(tid), source, b);
    }

    method Complete(tid: Tid, record: Entry, work: Pointer, source: Source)
      requires Valid() && Ready(ReportDone(tid)) && runtime.Here(tid).phase.operation == record.operation
      requires record.operation in runtime.lives
      requires runtime.lives[record.operation].request == record.request && runtime.lives[record.operation].work == work
      modifies this`run, runtime, attributor
      ensures Valid() && run == old(run) + [R.Effect(ReportDone(tid), source)]
    {
      hide R.Sim, Next;
      ghost var b := runtime.View();
      var count := |runtime.log|;
      runtime.Complete(tid, record, work);
      Deliver(count, ReportDone(tid), source, b);
    }

    method FinishDone(tid: Tid, source: Source)
      requires Valid() && Ready(EndDone(tid))
      modifies this`run, runtime, attributor
      ensures Valid() && run == old(run) + [R.Effect(EndDone(tid), source)]
    {
      hide R.Sim, Next;
      ghost var b := runtime.View();
      var count := |runtime.log|;
      runtime.FinishDone(tid);
      Deliver(count, EndDone(tid), source, b);
    }

    /** A syscall of any thread of any process; only the server itself is not forked again. */
    method Syscall(e: Syscall)
      requires Valid() && (A.Forks(e) ==> e.ret.value != server)
      modifies this`run, attributor
      ensures Valid() && run == old(run) + [R.Kernel(e)]
    {
      hide R.Sim, A.TraceStep;
      R.KernelSim(M(), server, runtime.View(), attributor.View(), e);
      attributor.ProcessTrace(e);
      R.RunExtended(M(), server, run, seed, R.Kernel(e));
      run := run + [R.Kernel(e)];
    }

    /** At any moment every thread works for what the events so far say it works for. */
    lemma Working(tid: Tid)
      requires Valid() && |run| + 2 < COUNTER_LIMIT
      ensures var l := runtime.Here(tid); (l.request, l.operation) == NodeHistory.WorksFor(run, |run|, tid)
    {
      NodeHistory.LocalsAreRight(M(), server, run, |run|, tid);
      assert run[..|run|] == run;
      hide R.Sim;
    }

    /** At any moment the attributor's fields hold the bridge's own thread-locals: the request and
        operation of every thread and its running work, and no error. */
    lemma Mirrored(tid: Tid)
      requires Valid()
      ensures attributor.errors == []
      ensures var l := runtime.Here(tid);
              && (tid in attributor.state ==>
                  attributor.state[tid].request == l.request && attributor.state[tid].operation == l.operation)
              && (tid !in attributor.state ==> l.request == 0 && l.operation == 0)
              && A.ActiveOf(attributor.WorksNow(), tid) == R.WorkOps(l.frames)
    {
      R.SimAt(M(), server, runtime.View(), attributor.View(), tid, 0);
      hide R.Sim;
    }
  }

  lemma SameContext(known: set<Context>, b: Bridge, tid: Tid, request: Context)
    requires Enabled(known, b, SetContext(tid, request))
    ensures Next(known + {request}, b, SetContext(tid, request)) == Next(known, b, SetContext(tid, request))
    ensures Written(known + {request}, b, SetContext(tid, request)) == Written(known, b, SetContext(tid, request))
  {
  }

  /** Processing what a step wrote is what the replay does with that step. */
  lemma DeliveredIs(m: A.Mapping, server: Pid, b: Bridge, s: A.State, step: Step, source: Source, g: A.State,
                    log: seq<Marker>)
    requires Enabled(R.Known(m), b, step) && log == Written(R.Known(m), b, step)
    requires g == if log == [] then s else A.MarkerStep(m, s, Stamp(log[0].tid, server, source), log[0])
    ensures g == R.After(m, server, b, s, step, source)
  {
    hide A.MarkerStep, Next;
  }
}
