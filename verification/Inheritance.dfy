/** A forked process works for the request its parent was charged to when it forked. */
module Inheritance {
  import opened Trace
  import opened Attribution
  import opened Replay
  import opened MarkerFacts
  import D = Descriptors

  /** The line forks `child`. */
  predicate Makes(line: Line, child: Pid) {
    line.CallLine? && !line.e.instrumentation && Forks(line.e) && line.e.ret.value == child
  }

  /** The context a call is charged to. */
  function Charged(m: Mapping, s: State, e: Syscall): Option<Ctx> { Read(m, s, e).ctx }

  lemma CallInherits(m: Mapping, s: State, e: Syscall)
    requires !e.instrumentation
    ensures TraceStep(m, s, e).effects.inherited == Inherited(s.effects.inherited, e, Charged(m, s, e))
  {
    hide Read, TraceRecords, DrawnAfter;
  }

  lemma ForkInherits(m: Mapping, s: State, line: Line, child: Pid)
    requires Makes(line, child)
    ensures child in Apply(m, s, line).effects.inherited
    ensures Apply(m, s, line).effects.inherited[child] ==
            Ctx(RequestOf(Charged(m, s, line.e)), 0, ProcessInheritance, None, Observed(line.e.stamp.source))
  {
    hide TraceStep, Charged;
    CallInherits(m, s, line.e);
  }

  lemma OtherLinesKeep(m: Mapping, s: State, line: Line, child: Pid)
    requires !Makes(line, child) && child in s.effects.inherited
    ensures child in Apply(m, s, line).effects.inherited
    ensures Apply(m, s, line).effects.inherited[child] == s.effects.inherited[child]
  {
    hide TraceStep, MarkerStep, Charged;
    match line
    case MarkerLine(at, n) => MarkerFrame(m, s, at, n);
    case CallLine(e) => if !e.instrumentation { CallInherits(m, s, e); } else { Ignored(m, s, e); }
  }

  lemma Ignored(m: Mapping, s: State, e: Syscall)
    requires e.instrumentation
    ensures TraceStep(m, s, e) == s
  {
  }

  /** From the fork on, until the identity is forked again. */
  lemma {:induction false} Inherits(m: Mapping, graph: seq<Record>, lines: seq<Line>, i: nat, j: nat, child: Pid)
    requires i < j <= |lines| && Makes(lines[i], child)
    requires forall k :: i < k < j ==> !Makes(lines[k], child)
    ensures var s := After(m, graph, lines[..j]);
            && child in s.effects.inherited
            && s.effects.inherited[child] ==
               Ctx(RequestOf(Charged(m, After(m, graph, lines[..i]), lines[i].e)), 0, ProcessInheritance, None,
                   Observed(lines[i].e.stamp.source))
    decreases j
  {
    hide After, Apply, Charged;
    AfterPrefix(m, graph, lines, j - 1);
    if j == i + 1 {
      ForkInherits(m, After(m, graph, lines[..i]), lines[i], child);
    } else {
      Inherits(m, graph, lines, i, j - 1, child);
      OtherLinesKeep(m, After(m, graph, lines[..j - 1]), lines[j - 1], child);
    }
  }

  /** A syscall of the child, made by a thread without a context of its own, is attributed to the
      request its parent's fork was charged to, for the rest of the run. */
  lemma ChildRowsInherit(m: Mapping, graph: seq<Record>, lines: seq<Line>, i: nat, j: nat)
    requires i < j < |lines| && lines[j].CallLine? && !lines[j].e.instrumentation
    requires Makes(lines[i], lines[j].e.stamp.pid)
    requires forall k :: i < k < j ==> !Makes(lines[k], lines[j].e.stamp.pid)
    requires lines[j].e.stamp.tid !in After(m, graph, lines[..j]).threads
    ensures var parent := RequestOf(Charged(m, After(m, graph, lines[..i]), lines[i].e));
            var before := |After(m, graph, lines[..j]).effects.rows|;
            var rows := After(m, graph, lines).effects.rows;
            && before < |rows| && rows[before].stamp == lines[j].e.stamp
            && (parent != 0 ==> rows[before].context == parent && rows[before].origin == Some(ProcessInheritance))
            && (parent == 0 && !lines[j].e.call.Receive? ==> rows[before].context == 0)
  {
    hide After, Charged, TraceStep;
    var e := lines[j].e;
    var s := After(m, graph, lines[..j]);
    Inherits(m, graph, lines, i, j, e.stamp.pid);
    AfterPrefix(m, graph, lines, j);
    RowOfCaller(m, s, e);
    RowsKept(m, graph, lines, j + 1);
  }
}
