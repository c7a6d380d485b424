/** A bridge's run as the trace the attributor reads, and the attributor's whole run on it. */
module BridgedTraces {
  import opened Trace
  import opened Attribution
  import opened Replay
  import opened Provenance
  import opened AttributorClass
  import MarkerFacts
  import SocketReads
  import M = RequestMap
  import BridgedProvenance
  import NB = NodeBridge
  import NR = NodeReplay
  import TB = TokioBridge
  import TR = TokioReplay

  lemma AfterMore(m: Mapping, graph: Graph, lines: seq<Line>, more: seq<Line>)
    requires |more| <= 1
    ensures After(m, graph, lines + more) ==
            if more == [] then After(m, graph, lines) else Apply(m, After(m, graph, lines), more[0])
  {
    if more == [] {
      assert lines + more == lines;
    } else {
      assert (lines + more)[..|lines|] == lines;
    }
  }

  lemma FaithfulMore(m: Mapping, graph: Graph, lines: seq<Line>, more: seq<Line>)
    requires |more| <= 1 && FaithfulRun(m, graph, lines) && (more != [] ==> Faithful(After(m, graph, lines), more[0]))
    ensures FaithfulRun(m, graph, lines + more)
  {
    hide Faithful, After;
    var longer := lines + more;
    forall i | 0 <= i < |longer| ensures Faithful(After(m, graph, longer[..i]), longer[i]) {
      if i < |lines| { assert longer[..i] == lines[..i]; } else { assert longer[..i] == lines; }
    }
  }

  // ----- Node ---------------------------------------------------------------------------------------

  /** What one event of the bridge leaves in the trace. */
  function NodeLine(m: Mapping, server: Pid, b: NB.Bridge, ev: NR.Event): (r: seq<Line>)
    requires NR.Allowed(m, server, b, ev)
    ensures |r| <= 1
  {
    match ev
    case Kernel(e) => [CallLine(e)]
    case Effect(step, source) =>
      match NB.Emitted(NR.Known(m), b, step)
      case None => []
      case Some(n) => [MarkerLine(Stamp(step.tid, server, source), n)]
  }

  function NodeLines(m: Mapping, server: Pid, run: seq<NR.Event>): seq<Line>
    requires NR.Possible(m, server, run)
  {
    if run == [] then []
    else
      var front := run[..|run| - 1];
      NodeLines(m, server, front) + NodeLine(m, server, NR.BridgeAfter(m, server, front), run[|run| - 1])
  }

  /** Reading the trace is replaying the run. */
  lemma {:induction false} NodeReplayed(m: Mapping, server: Pid, run: seq<NR.Event>, graph: Graph)
    requires NR.Possible(m, server, run)
    ensures After(m, graph, NodeLines(m, server, run)) == NR.StateAfter(m, server, run, graph)
  {
    hide NB.Emitted, NB.Enabled, TraceStep, MarkerStep, NB.Next, After;
    if run == [] {
      EmptyRun(m, graph);
    } else {
      var front := run[..|run| - 1];
      NodeReplayed(m, server, front, graph);
      AfterMore(m, graph, NodeLines(m, server, front),
                NodeLine(m, server, NR.BridgeAfter(m, server, front), run[|run| - 1]));
    }
  }

  lemma {:induction false} NodeTraceFaithful(m: Mapping, server: Pid, run: seq<NR.Event>, graph: Graph)
    requires NR.Possible(m, server, run) && |run| + 2 < NB.COUNTER_LIMIT
             && BridgedProvenance.NodeFresh(m, server, run, graph)
    ensures FaithfulRun(m, graph, NodeLines(m, server, run))
  {
    hide NB.Emitted, NB.Enabled, NB.Next, Faithful, NR.Sim, After;
    if run == [] {
      NothingFaithful(m, graph);
    } else {
      var front := run[..|run| - 1];
      var b := NR.BridgeAfter(m, server, front);
      var s := NR.StateAfter(m, server, front, graph);
      NodeTraceFaithful(m, server, front, graph);
      NodeReplayed(m, server, front, graph);
      NR.RunSim(m, server, front, graph);
      match run[|run| - 1] {
        case Effect(step, source) =>
          if NB.Emitted(NR.Known(m), b, step).Some? {
            BridgedProvenance.NodeMarkerFaithful(m, server, b, s, step, Stamp(step.tid, server, source));
          }
        case Kernel(_) =>
      }
      FaithfulMore(m, graph, NodeLines(m, server, front), NodeLine(m, server, b, run[|run| - 1]));
    }
  }

  lemma NothingFaithful(m: Mapping, graph: Graph)
    ensures FaithfulRun(m, graph, [])
  {
  }

  lemma NodeNoFindings(m: Mapping, server: Pid, run: seq<NR.Event>, graph: Graph)
    requires NR.Possible(m, server, run) && |run| + 2 < NB.COUNTER_LIMIT
    requires var b := NR.BridgeAfter(m, server, run);
             forall op :: op in b.lives ==> b.lives[op].stage.Reserved? || b.lives[op].stage.Finished?
    ensures NR.StateAfter(m, server, run, graph).errors == [] && Findings(NR.StateAfter(m, server, run, graph)) == {}
  {
    NR.ValidIffAllComplete(m, server, run, graph);
    NR.ContextsReplayed(m, server, run, graph, 0, Source(0, 0));
    hide Findings;
  }

  /** From a loaded map to the published output: whatever the Node bridge and the kernel interleave,
      once all announced work has completed the attributor's whole run ends without an error and
      with every row explained. */
  method AttributeNode(entries: seq<M.Entry>, server: Pid, ghost run: seq<NR.Event>, lines: seq<Line>)
    returns (a: Attributor)
    requires M.Loadable(entries)
    requires var m := M.MappingOf(entries);
             && NR.Possible(m, server, run) && |run| + 2 < NB.COUNTER_LIMIT && lines == NodeLines(m, server, run)
             && BridgedProvenance.NodeFresh(m, server, run, M.SeedOf(m, entries))
             && var b := NR.BridgeAfter(m, server, run);
                forall op :: op in b.lives ==> b.lives[op].stage.Reserved? || b.lives[op].stage.Finished?
    ensures a.errors == []
    ensures var s := NR.StateAfter(M.MappingOf(entries), server, run, M.SeedOf(M.MappingOf(entries), entries));
            && a.tagged == Rows(s) && a.graph == Graphed(s)
            && forall i :: 0 <= i < |a.tagged| ==> Explained(M.MappingOf(entries), s, i)
  {
    hide *;
    var owners := M.ComputeOwners(entries);
    var m := M.MappingOf(entries);
    var seed := M.Seed(entries, m);
    M.LoadedMappingValid(entries);
    M.LoadedGraphSeeded(entries);
    NodeReplayed(m, server, run, seed);
    NodeTraceFaithful(m, server, run, seed);
    NodeNoFindings(m, server, run, seed);
    a := new Attributor(m, seed);
    var resolved := a.Attribute(lines, seed);
    NothingAdded(After(m, seed, lines).errors, Findings(After(m, seed, lines)), a.errors);
  }

  lemma NothingAdded(before: seq<Error>, findings: set<Error>, after: seq<Error>)
    requires before == [] && findings == {} && Extended(before, findings, after)
    ensures after == []
  {
    assert after == after[|before|..];
    FirstIsFound(findings, after);
    hide Added;
  }

  lemma FirstIsFound(findings: set<Error>, found: seq<Error>)
    requires Added(findings, found)
    ensures found != [] ==> found[0] in findings
  {
    if found != [] { assert found[0] in found; }
  }

  // ----- Tokio --------------------------------------------------------------------------------------

  function TokioLine(m: Mapping, server: Pid, b: TB.Bridge, ev: TR.Event): (r: seq<Line>)
    requires TR.Allowed(m, server, b, ev)
    ensures |r| <= 1
  {
    match ev
    case Kernel(e) => [CallLine(e)]
    case Effect(step, source) =>
      match TB.Emitted(TR.Known(m), b, step)
      case None => []
      case Some(n) => [MarkerLine(Stamp(step.tid, server, source), n)]
  }

  function TokioLines(m: Mapping, server: Pid, run: seq<TR.Event>): seq<Line>
    requires TR.Possible(m, server, run)
  {
    if run == [] then []
    else
      var front := run[..|run| - 1];
      TokioLines(m, server, front) + TokioLine(m, server, TR.BridgeAfter(m, server, front), run[|run| - 1])
  }

  lemma {:induction false} TokioReplayed(m: Mapping, server: Pid, run: seq<TR.Event>, graph: Graph)
    requires TR.Possible(m, server, run)
    ensures After(m, graph, TokioLines(m, server, run)) == TR.StateAfter(m, server, run, graph)
  {
    hide TB.Emitted, TB.Enabled, TraceStep, MarkerStep, TB.Next, After;
    if run == [] {
      EmptyRun(m, graph);
    } else {
      var front := run[..|run| - 1];
      TokioReplayed(m, server, front, graph);
      AfterMore(m, graph, TokioLines(m, server, front),
                TokioLine(m, server, TR.BridgeAfter(m, server, front), run[|run| - 1]));
    }
  }

  lemma {:induction false} TokioTraceFaithful(m: Mapping, server: Pid, run: seq<TR.Event>, graph: Graph)
    requires TR.Possible(m, server, run) && |run| + 2 < TB.COUNTER_LIMIT
             && BridgedProvenance.TokioFresh(m, server, run, graph)
    ensures FaithfulRun(m, graph, TokioLines(m, server, run))
  {
    hide TB.Emitted, TB.Enabled, TB.Next, Faithful, TR.Sim, After;
    if run == [] {
      NothingFaithful(m, graph);
    } else {
      var front := run[..|run| - 1];
      var b := TR.BridgeAfter(m, server, front);
      var s := TR.StateAfter(m, server, front, graph);
      TokioTraceFaithful(m, server, front, graph);
      TokioReplayed(m, server, front, graph);
      TR.RunSim(m, server, front, graph);
      match run[|run| - 1] {
        case Effect(step, source) =>
          if TB.Emitted(TR.Known(m), b, step).Some? {
            BridgedProvenance.TokioMarkerFaithful(m, server, b, s, step, Stamp(step.tid, server, source));
          }
        case Kernel(_) =>
      }
      FaithfulMore(m, graph, TokioLines(m, server, front), TokioLine(m, server, b, run[|run| - 1]));
    }
  }

  lemma TokioNoFindings(m: Mapping, server: Pid, run: seq<TR.Event>, graph: Graph)
    requires TR.Possible(m, server, run) && |run| + 2 < TB.COUNTER_LIMIT
    requires var b := TR.BridgeAfter(m, server, run);
             forall op :: op in b.lives ==> b.lives[op].stage.Unannounced? || b.lives[op].stage.Completed?
    ensures TR.StateAfter(m, server, run, graph).errors == [] && Findings(TR.StateAfter(m, server, run, graph)) == {}
  {
    TR.ValidIffAllComplete(m, server, run, graph);
    TR.ContextsReplayed(m, server, run, graph, 0, Source(0, 0));
    hide Findings;
  }

  /** The same for the Tokio layer, once every announced interval has been closed. */
  method AttributeTokio(entries: seq<M.Entry>, server: Pid, ghost run: seq<TR.Event>, lines: seq<Line>)
    returns (a: Attributor)
    requires M.Loadable(entries)
    requires var m := M.MappingOf(entries);
             && TR.Possible(m, server, run) && |run| + 2 < TB.COUNTER_LIMIT && lines == TokioLines(m, server, run)
             && BridgedProvenance.TokioFresh(m, server, run, M.SeedOf(m, entries))
             && var b := TR.BridgeAfter(m, server, run);
                forall op :: op in b.lives ==> b.lives[op].stage.Unannounced? || b.lives[op].stage.Completed?
    ensures a.errors == []
    ensures var s := TR.StateAfter(M.MappingOf(entries), server, run, M.SeedOf(M.MappingOf(entries), entries));
            && a.tagged == Rows(s) && a.graph == Graphed(s)
            && forall i :: 0 <= i < |a.tagged| ==> Explained(M.MappingOf(entries), s, i)
  {
    hide *;
    var m := M.MappingOf(entries);
    var seed := M.Seed(entries, m);
    M.LoadedMappingValid(entries);
    M.LoadedGraphSeeded(entries);
    TokioReplayed(m, server, run, seed);
    TokioTraceFaithful(m, server, run, seed);
    TokioNoFindings(m, server, run, seed);
    a := new Attributor(m, seed);
    var resolved := a.Attribute(lines, seed);
    NothingAdded(After(m, seed, lines).errors, Findings(After(m, seed, lines)), a.errors);
  }

  lemma {:induction false} TokioPrefix(m: Mapping, server: Pid, run: seq<TR.Event>, i: nat)
    requires TR.Possible(m, server, run) && i <= |run|
    ensures TR.Possible(m, server, run[..i]) && TokioLines(m, server, run[..i]) <= TokioLines(m, server, run)
    decreases |run|
  {
    hide TokioLine;
    if i == |run| {
      assert run[..i] == run;
    } else {
      var front := run[..|run| - 1];
      TokioPrefix(m, server, front, i);
      assert front[..i] == run[..i];
    }
  }

  /** The row of a syscall names the innermost span of its thread at that moment, and stays in the
      output of every longer run. */
  lemma RowsNameRunningSpan(m: Mapping, server: Pid, run: seq<TR.Event>, graph: Graph, i: nat)
    requires TR.Possible(m, server, run) && |run| + 2 < TB.COUNTER_LIMIT
    requires i < |run| && run[i].Kernel? && run[i].e.stamp.pid == server && !run[i].e.instrumentation
    ensures TR.Possible(m, server, run[..i])
    ensures var l := TB.At(TR.BridgeAfter(m, server, run[..i]), run[i].e.stamp.tid);
            var before := TR.StateAfter(m, server, run[..i], graph).effects.rows;
            var after := TR.StateAfter(m, server, run, graph).effects.rows;
            && before < after && after[|before|].stamp == run[i].e.stamp
            && (TB.Current(l).0 != 0 ==> (after[|before|].context, after[|before|].operation) == TB.Current(l))
            && (TB.Current(l).0 == 0 && !run[i].e.call.Receive? ==> after[|before|].context == 0)
  {
    hide TR.Possible, TR.BridgeAfter, TR.StateAfter, TraceStep, ContextOf, TokioLines, TB.Current, After;
    TokioPrefix(m, server, run, i);
    TokioPrefix(m, server, run, i + 1);
    TokioReplayed(m, server, run[..i + 1], graph);
    TokioReplayed(m, server, run, graph);
    var lines := TokioLines(m, server, run);
    var n := |TokioLines(m, server, run[..i + 1])|;
    assert lines[..n] == TokioLines(m, server, run[..i + 1]);
    RowsKept(m, graph, lines, n);
    TokioKernelStep(m, server, run, graph, i);
    TR.ContextsReplayed(m, server, run[..i], graph, run[i].e.stamp.tid, run[i].e.stamp.source);
    MarkerFacts.RowOfCaller(m, TR.StateAfter(m, server, run[..i], graph), run[i].e);
  }

  lemma TokioKernelStep(m: Mapping, server: Pid, run: seq<TR.Event>, graph: Graph, i: nat)
    requires i < |run| && run[i].Kernel? && TR.Possible(m, server, run[..i]) && TR.Possible(m, server, run[..i + 1])
    ensures TR.StateAfter(m, server, run[..i + 1], graph) ==
            TraceStep(m, TR.StateAfter(m, server, run[..i], graph), run[i].e)
  {
    hide TraceStep;
    assert run[..i + 1][..i] == run[..i];
  }
}
