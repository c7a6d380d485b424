/** The Tokio layer and the attributor side by side: every marker is processed as it is written,
    every syscall as it happens, and the attributor keeps mirroring the layer. */
module TokioSession {
  import opened Trace
  import opened TokioBridge
  import A = Attribution
  import R = TokioReplay
  import TokioHistory
  import opened TokioRuntime
  import opened AttributorClass

  class Session {
    const server: Pid
    const layer: RuntimeLayer
    const attributor: Attributor
    ghost const seed: seq<A.Record>
    /** What has happened so far. */
    ghost var run: seq<R.Event>

    constructor (mapping: A.Mapping, server: Pid, seed: seq<A.Record>)
      ensures Valid() && run == [] && fresh(layer) && fresh(attributor)
      ensures this.seed == seed && this.server == server && attributor.mapping == mapping
    {
      this.server := server;
      this.seed := seed;
      layer := new RuntimeLayer(R.Known(mapping));
      attributor := new Attributor(mapping, seed);
      run := [];
      new;
      R.SimStart(mapping, server, seed);
    }

    ghost function M(): A.Mapping { attributor.mapping }

    /** The attributor mirrors the layer, thread by thread, and both are where the run leads. */
    ghost predicate Valid()
      reads this, layer, attributor
    {
      && layer.known == R.Known(M())
      && R.Possible(M(), server, run)
      && layer.View() == R.BridgeAfter(M(), server, run)
      && attributor.View() == R.StateAfter(M(), server, run, seed)
      && R.Sim(M(), server, layer.View(), attributor.View())
      && layer.View().next <= 1 + |run|
    }

    ghost predicate Ready(step: Step)
      reads this, layer
    {
      Enabled(layer.known, layer.View(), step) && |run| + 3 < COUNTER_LIMIT
    }

    /** Hand over what the last step wrote, if anything. */
    method Deliver(count: nat, ghost step: Step, source: Source, ghost b: Bridge)
      requires R.Possible(M(), server, run) && b == R.BridgeAfter(M(), server, run) && b.next <= 1 + |run|
      requires attributor.View() == R.StateAfter(M(), server, run, seed) && R.Sim(M(), server, b, attributor.View())
      requires layer.known == R.Known(M()) && Enabled(layer.known, b, step) && |run| + 3 < COUNTER_LIMIT
      requires layer.View() == Next(layer.known, b, step) && count <= |layer.log|
      requires layer.log[count..] == Written(layer.known, b, step)
      modifies this`run, attributor
      ensures Valid() && run == old(run) + [R.Effect(step, source)]
    {
      hide R.Sim, Next, Enabled, Emitted, A.MarkerStep, R.After;
      ghost var s := attributor.View();
      if count < |layer.log| {
        var note := layer.log[count];
        attributor.ProcessMarker(Stamp(note.tid, server, source), note);
      }
      DeliveredIs(M(), server, b, s, step, source, attributor.View(), layer.log[count..]);
      R.EffectSim(M(), server, b, s, step, source);
      R.RunExtended(M(), server, run, seed, R.Effect(step, source));
      R.SimInv(M(), server, b, s);
      StepInv(layer.known, b, step);
      run := run + [R.Effect(step, source)];
    }

    method NewSpan(tid: Tid, span: SpanId, field: Option<Context>, parent: Option<SpanId>, relevant: bool,
                   source: Source)
      requires Valid() && Ready(Step.NewSpan(tid, span, field, parent, relevant))
      modifies this`run, layer, attributor
      ensures Valid() && run == old(run) + [R.Effect(Step.NewSpan(tid, span, field, parent, relevant), source)]
    {
      hide R.Sim, Next;
      ghost var b := layer.View();
      var count := |layer.log|;
      layer.OnNewSpan(tid, span, field, parent, relevant);
      Deliver(count, Step.NewSpan(tid, span, field, parent, relevant), source, b);
    }

    method EnterSpan(tid: Tid, span: SpanId, source: Source) returns (op: Option<OpId>)
      requires Valid() && Ready(Enter(tid, span))
      modifies this`run, layer, attributor
      ensures Valid() && run == old(run) + [R.Effect(Enter(tid, span), source)]
    {
      hide R.Sim, Next;
      ghost var b := layer.View();
      var count := |layer.log|;
      op := layer.OnEnter(tid, span);
      Deliver(count, Enter(tid, span), source, b);
    }

    method EmitSubmit(tid: Tid, source: Source)
      requires Valid() && Ready(Announce(tid))
      modifies this`run, layer, attributor
      ensures Valid() && run == old(run) + [R.Effect(Announce(tid), source)]
    {
      hide R.Sim, Next, Inv;
      ghost var b := layer.View();
      R.SimInv(M(), server, b, attributor.View());
      var count := |layer.log|;
      layer.EmitSubmit(tid);
      Deliver(count, Announce(tid), source, b);
    }

    method PushFrame(tid: Tid, source: Source)
      requires Valid() && Ready(Push(tid))
      modifies this`run, layer, attributor
      ensures Valid() && run == old(run) + [R.Effect(Push(tid), source)]
    {
      hide R.Sim, Next, Inv;
      ghost var b := layer.View();
      R.SimInv(M(), server, b, attributor.View());
      var count := |layer.log|;
      layer.PushFrame(tid);
      Deliver(count, Push(tid), source, b);
    }

    method ExitSpan(tid: Tid, span: SpanId, source: Source)
      requires Valid() && Ready(Exit(tid, span))
      modifies this`run, layer, attributor
      ensures Valid() && run == old(run) + [R.Effect(Exit(tid, span), source)]
    {
      hide R.Sim, Next;
      ghost var b := layer.View();
      var count := |layer.log|;
      layer.OnExit(tid, span);
      Deliver(count, Exit(tid, span), source, b);
    }

    method EmitComplete(tid: Tid, source: Source)
      requires Valid() && Ready(Report(tid))
      modifies this`run, layer, attributor
      ensures Valid() && run == old(run) + [R.Effect(Report(tid), source)]
    {
      hide R.Sim, Next;
      ghost var b := layer.View();
      var count := |layer.log|;
      layer.EmitComplete(tid);
      Deliver(count, Report(tid), source, b);
    }

    /** A syscall of any thread of any process; only the server itself is not forked again. */
    method Syscall(e: Syscall)
      requires Valid() && (A.Forks(e) ==> e.ret.value != server)
      modifies this`run, attributor
      ensures Valid() && run == old(run) + [R.Kernel(e)]
    {
      hide R.Sim, A.TraceStep;
      R.KernelSim(M(), server, layer.View(), attributor.View(), e);
      attributor.ProcessTrace(e);
      R.RunExtended(M(), server, run, seed, R.Kernel(e));
      run := run + [R.Kernel(e)];
    }

    /** At any moment every thread works for what the events so far say it works for. */
    lemma Working(tid: Tid)
      requires Valid() && |run| + 2 < COUNTER_LIMIT
      ensures Current(layer.Here(tid)) == TokioHistory.WorksFor(run, |run|, tid)
    {
      TokioHistory.CurrentIsRight(M(), server, run, |run|, tid);
      assert run[..|run|] == run;
      hide R.Sim;
    }

    /** At any moment the attributor's fields hold the top of every thread's span stack and the
        stack's operations in order, and no error. */
    lemma Mirrored(tid: Tid)
      requires Valid()
      ensures attributor.errors == []
      ensures var l := layer.Here(tid);
              && (tid in attributor.state ==>
                  (attributor.state[tid].request, attributor.state[tid].operation) == Current(l))
              && (tid !in attributor.state ==> l.stack == [])
              && A.ActiveOf(attributor.WorksNow(), tid) == R.Operations(l.stack)
    {
      R.SimAt(M(), server, layer.View(), attributor.View(), tid, 0, 0);
      hide R.Sim;
    }
  }

  /** Processing what a step wrote is what the replay does with that step. */
  lemma DeliveredIs(m: A.Mapping, server: Pid, b: Bridge, s: A.State, step: Step, source: Source, g: A.State,
                    log: seq<Marker>)
    requires Enabled(R.Known(m), b, step) && log == Written(R.Known(m), b, step)
    requires g == if log == [] then s else A.MarkerStep(m, s, Stamp(log[0].tid, server, source), log[0])
    ensures g == R.After(m, server, b, s, step, source)
  {
    hide A.MarkerStep, Next;
  }
}
