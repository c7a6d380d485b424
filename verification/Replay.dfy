/** Runs of the attributor over a whole merged trace. */
module Replay {
  import opened Trace
  import opened Attribution

  datatype Line = MarkerLine(at: Stamp, note: Marker) | CallLine(e: Syscall)

  function Apply(m: Mapping, s: State, line: Line): State {
    match line
    case MarkerLine(at, note) => MarkerStep(m, s, at, note)
    case CallLine(e) => TraceStep(m, s, e)
  }

  /** The state after the lines, starting from the records of the request map. */
  function After(m: Mapping, graph: seq<Record>, lines: seq<Line>): State {
    if lines == [] then Initial(graph)
    else Apply(m, After(m, graph, lines[..|lines| - 1]), lines[|lines| - 1])
  }

  lemma AfterPrefix(m: Mapping, graph: seq<Record>, lines: seq<Line>, i: nat)
    requires i < |lines|
    ensures After(m, graph, lines[..i + 1]) == Apply(m, After(m, graph, lines[..i]), lines[i])
  {
    assert lines[..i + 1][..i] == lines[..i];
  }

  lemma DispatchErrors(m: Mapping, s: State, at: Stamp, n: Marker)
    ensures s.errors <= Dispatch(m, s, at, n).errors
  {
    hide SubmitRecords, SendRecords, ContextOf, PutWork, PutJob, ActiveOf, JobOf;
  }

  lemma ApplyErrors(m: Mapping, s: State, line: Line)
    ensures s.errors <= Apply(m, s, line).errors
  {
    hide Dispatch, TraceStep;
    match line
    case MarkerLine(at, n) =>
      DispatchErrors(m, s, at, n);
      DispatchErrors(m, Fail(s, UnknownContext(n.request)), at, n);
    case CallLine(e) => TraceFrame(m, s, e);
  }

  /** Errors are never withdrawn, so every prefix of an error-free run is error-free. */
  lemma {:induction false} PrefixErrorFree(m: Mapping, graph: seq<Record>, lines: seq<Line>, i: nat)
    requires After(m, graph, lines).errors == [] && i <= |lines|
    ensures After(m, graph, lines[..i]).errors == []
  {
    if i == |lines| {
      assert lines[..i] == lines;
    } else {
      var prefix := lines[..|lines| - 1];
      ApplyErrors(m, After(m, graph, prefix), lines[|lines| - 1]);
      assert prefix[..i] == lines[..i];
      PrefixErrorFree(m, graph, prefix, i);
    }
  }

  lemma {:induction false} RowsKept(m: Mapping, graph: seq<Record>, lines: seq<Line>, i: nat)
    requires i <= |lines|
    ensures After(m, graph, lines[..i]).effects.rows <= After(m, graph, lines).effects.rows
  {
    if i == |lines| {
      assert lines[..i] == lines;
    } else {
      var prefix := lines[..|lines| - 1];
      assert prefix[..i] == lines[..i];
      RowsKept(m, graph, prefix, i);
      var s := After(m, graph, prefix);
      match lines[|lines| - 1]
      case MarkerLine(at, n) => MarkerFrame(m, s, at, n);
      case CallLine(e) => TraceFrame(m, s, e);
    }
  }
}
