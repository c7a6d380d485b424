/** The provenance results hold of every run the two runtime bridges can produce. */
module BridgedProvenance {
  import opened Trace
  import opened Attribution
  import opened Replay
  import opened Provenance
  import SocketReads
  import M = RequestMap
  import NB = NodeBridge
  import NR = NodeReplay
  import TB = TokioBridge
  import TR = TokioReplay

  // ----- Node -----------------------------------------------------------------------------------

  lemma NodeMarkerFaithful(m: Mapping, server: Pid, b: NB.Bridge, s: State, step: NB.Step, at: Stamp)
    requires NR.Sim(m, server, b, s) && NB.Enabled(NR.Known(m), b, step) && NB.Emitted(NR.Known(m), b, step).Some?
    ensures Faithful(s, MarkerLine(at, NB.Emitted(NR.Known(m), b, step).value))
  {
    hide NR.Sim, NR.Mirrors, NR.Nested, NR.Quiet, NB.Inv, NB.Stacked, NB.Attended;
    var l := NB.At(b, step.tid);
    var n := NB.Emitted(NR.Known(m), b, step).value;
    NR.SimAt(m, server, b, s, step.tid, n.operation);
    if step.EndWork? || step.EndDone? { NR.FrameRequest(NR.Known(m), b, step.tid, |l.frames| - 1); }
    if step.StartWork? { NR.RecordAt(NR.Known(m), b, step.work); }
  }

  /** Syscalls bring new children and new trace positions. */
  ghost predicate NodeFresh(m: Mapping, server: Pid, run: seq<NR.Event>, graph: Graph)
    requires NR.Possible(m, server, run)
  {
    run == [] || (
      && NodeFresh(m, server, run[..|run| - 1], graph)
      && (run[|run| - 1].Kernel? ==>
          Faithful(NR.StateAfter(m, server, run[..|run| - 1], graph), CallLine(run[|run| - 1].e))))
  }

  lemma NodeEffectInv(m: Mapping, server: Pid, b: NB.Bridge, s: State, step: NB.Step, source: Source)
    requires NR.Sim(m, server, b, s) && NB.Enabled(NR.Known(m), b, step) && b.next + 1 < NB.COUNTER_LIMIT
    requires Inv(m, s) && SocketReads.ValidMapping(m)
    ensures Inv(m, NR.After(m, server, b, s, step, source))
    ensures NR.After(m, server, b, s, step, source).effects == s.effects
  {
    hide Inv, SocketReads.ValidMapping, NB.Enabled, NB.Next, NB.Emitted, NR.Sim, MarkerStep, Faithful, NR.Mirrors,
      NR.Nested, NR.Tracked, NB.Inv;
    if NB.Emitted(NR.Known(m), b, step).Some? {
      var n := NB.Emitted(NR.Known(m), b, step).value;
      var at := Stamp(step.tid, server, source);
      NodeMarkerFaithful(m, server, b, s, step, at);
      NR.EffectSim(m, server, b, s, step, source);
      NR.SimAt(m, server, b, s, step.tid, 0);
      NR.SimAt(m, server, NB.Next(NR.Known(m), b, step), NR.After(m, server, b, s, step, source), step.tid, 0);
      LineInv(m, s, MarkerLine(at, n));
      MarkerFrame(m, s, at, n);
    }
  }

  lemma {:induction false} NodeRunInv(m: Mapping, server: Pid, run: seq<NR.Event>, graph: Graph)
    requires NR.Possible(m, server, run) && |run| + 2 < NB.COUNTER_LIMIT && NodeFresh(m, server, run, graph)
    requires Seeded(m, graph) && SocketReads.ValidMapping(m)
    ensures Inv(m, NR.StateAfter(m, server, run, graph)) && Distinct(NR.StateAfter(m, server, run, graph).effects.rows)
  {
    hide Inv, SocketReads.ValidMapping, NB.Enabled, NB.Next, NR.Sim, MarkerStep, TraceStep, Faithful, NR.After,
      Seeded, Distinct;
    if run == [] {
      SeedInv(m, graph);
      NoRows(graph);
    } else {
      var prefix := run[..|run| - 1];
      NodeRunInv(m, server, prefix, graph);
      NR.RunSim(m, server, prefix, graph);
      var b := NR.BridgeAfter(m, server, prefix);
      var s := NR.StateAfter(m, server, prefix, graph);
      match run[|run| - 1]
      case Effect(step, source) =>
        NodeEffectInv(m, server, b, s, step, source);
        assert NR.StateAfter(m, server, run, graph) == NR.After(m, server, b, s, step, source) by {
          NR.AfterIsObserve(m, server, b, s, step, source);
        }
      case Kernel(e) =>
        CallInv(m, s, e);
        LineDistinct(m, s, CallLine(e));
    }
  }

  /** Whatever the Node bridge and the kernel interleave, starting from any loaded request map,
      every row is explained. */
  lemma NodeRowsExplained(entries: seq<M.Entry>, server: Pid, run: seq<NR.Event>, i: nat)
    requires M.Loadable(entries) && NR.Possible(M.MappingOf(entries), server, run) && |run| + 2 < NB.COUNTER_LIMIT
    requires NodeFresh(M.MappingOf(entries), server, run, M.SeedOf(M.MappingOf(entries), entries))
    requires i < |NR.StateAfter(M.MappingOf(entries), server, run,
                                M.SeedOf(M.MappingOf(entries), entries)).effects.rows|
    ensures var m := M.MappingOf(entries);
            Explained(m, NR.StateAfter(m, server, run, M.SeedOf(m, entries)), i)
  {
    hide *;
    var m := M.MappingOf(entries);
    M.LoadedMappingValid(entries);
    M.LoadedGraphSeeded(entries);
    NodeRunInv(m, server, run, M.SeedOf(m, entries));
    RowExplained(m, NR.StateAfter(m, server, run, M.SeedOf(m, entries)), i);
  }

  // ----- Tokio ----------------------------------------------------------------------------------

  lemma TokioMarkerFaithful(m: Mapping, server: Pid, b: TB.Bridge, s: State, step: TB.Step, at: Stamp)
    requires TR.Sim(m, server, b, s) && TB.Enabled(TR.Known(m), b, step) && TB.Emitted(TR.Known(m), b, step).Some?
    ensures Faithful(s, MarkerLine(at, TB.Emitted(TR.Known(m), b, step).value))
  {
    hide TR.Sim, TR.Mirrors, TR.Nested, TR.Quiet, TB.Inv, TB.Stacked, TB.Attended;
    var l := TB.At(b, step.tid);
    var n := TB.Emitted(TR.Known(m), b, step).value;
    TR.SimAt(m, server, b, s, step.tid, n.operation, n.pointer);
    if step.Exit? && |l.stack| > 1 { RestRunning(b, step.tid); }
  }

  lemma RestRunning(b: TB.Bridge, t: Tid)
    requires TB.Stacked(b, t) && |TB.At(b, t).stack| > 1
    ensures var f := TB.At(b, t).stack[|TB.At(b, t).stack| - 2]; TB.Holds(b, t, f.operation, TB.Running, f.request)
  {
  }

  ghost predicate TokioFresh(m: Mapping, server: Pid, run: seq<TR.Event>, graph: Graph)
    requires TR.Possible(m, server, run)
  {
    run == [] || (
      && TokioFresh(m, server, run[..|run| - 1], graph)
      && (run[|run| - 1].Kernel? ==>
          Faithful(TR.StateAfter(m, server, run[..|run| - 1], graph), CallLine(run[|run| - 1].e))))
  }

  lemma TokioEffectInv(m: Mapping, server: Pid, b: TB.Bridge, s: State, step: TB.Step, source: Source)
    requires TR.Sim(m, server, b, s) && TB.Enabled(TR.Known(m), b, step) && b.next + 1 < TB.COUNTER_LIMIT
    requires Inv(m, s) && SocketReads.ValidMapping(m)
    ensures Inv(m, TR.After(m, server, b, s, step, source))
    ensures TR.After(m, server, b, s, step, source).effects == s.effects
  {
    hide Inv, SocketReads.ValidMapping, TB.Enabled, TB.Next, TB.Emitted, TR.Sim, MarkerStep, Faithful, TR.Mirrors,
      TR.Nested, TR.Tracked, TB.Inv;
    if TB.Emitted(TR.Known(m), b, step).Some? {
      var n := TB.Emitted(TR.Known(m), b, step).value;
      var at := Stamp(step.tid, server, source);
      TokioMarkerFaithful(m, server, b, s, step, at);
      TR.EffectSim(m, server, b, s, step, source);
      TR.SimAt(m, server, b, s, step.tid, 0, 0);
      TR.SimAt(m, server, TB.Next(TR.Known(m), b, step), TR.After(m, server, b, s, step, source), step.tid, 0, 0);
      LineInv(m, s, MarkerLine(at, n));
      MarkerFrame(m, s, at, n);
    }
  }

  lemma {:induction false} TokioRunInv(m: Mapping, server: Pid, run: seq<TR.Event>, graph: Graph)
    requires TR.Possible(m, server, run) && |run| + 2 < TB.COUNTER_LIMIT && TokioFresh(m, server, run, graph)
    requires Seeded(m, graph) && SocketReads.ValidMapping(m)
    ensures Inv(m, TR.StateAfter(m, server, run, graph)) && Distinct(TR.StateAfter(m, server, run, graph).effects.rows)
  {
    hide Inv, SocketReads.ValidMapping, TB.Enabled, TB.Next, TR.Sim, MarkerStep, TraceStep, Faithful, TR.After,
      Seeded, Distinct;
    if run == [] {
      SeedInv(m, graph);
      NoRows(graph);
    } else {
      var prefix := run[..|run| - 1];
      TokioRunInv(m, server, prefix, graph);
      TR.RunSim(m, server, prefix, graph);
      var b := TR.BridgeAfter(m, server, prefix);
      var s := TR.StateAfter(m, server, prefix, graph);
      match run[|run| - 1]
      case Effect(step, source) => TokioEffectInv(m, server, b, s, step, source);
      case Kernel(e) =>
        CallInv(m, s, e);
        LineDistinct(m, s, CallLine(e));
    }
  }

  /** Whatever the Tokio bridge and the kernel interleave, starting from any loaded request map,
      every row is explained. */
  lemma TokioRowsExplained(entries: seq<M.Entry>, server: Pid, run: seq<TR.Event>, i: nat)
    requires M.Loadable(entries) && TR.Possible(M.MappingOf(entries), server, run) && |run| + 2 < TB.COUNTER_LIMIT
    requires TokioFresh(M.MappingOf(entries), server, run, M.SeedOf(M.MappingOf(entries), entries))
    requires i < |TR.StateAfter(M.MappingOf(entries), server, run,
                                M.SeedOf(M.MappingOf(entries), entries)).effects.rows|
    ensures var m := M.MappingOf(entries);
            Explained(m, TR.StateAfter(m, server, run, M.SeedOf(m, entries)), i)
  {
    hide *;
    var m := M.MappingOf(entries);
    M.LoadedMappingValid(entries);
    M.LoadedGraphSeeded(entries);
    TokioRunInv(m, server, run, M.SeedOf(m, entries));
    RowExplained(m, TR.StateAfter(m, server, run, M.SeedOf(m, entries)), i);
  }
}
