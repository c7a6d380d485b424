/** Socket ownership and the retroactive pass over unscoped socket reads. */
module SocketReads {
  import opened Trace
  import opened Attribution
  import opened Replay
  import D = Descriptors

  type Owned = map<D.ConnId, set<Context>>

  /** What the request-map loader guarantees: contexts are positive, requests own
      themselves, and a join owns registered requests, at least one. */
  ghost predicate ValidMapping(m: Mapping) {
    && 0 !in m.owners && m.roots <= m.owners.Keys
    && (forall c :: c in m.roots ==> m.owners[c] == {c})
    && (forall c :: c in m.owners ==> m.owners[c] != {} && m.owners[c] <= m.roots)
  }

  // ----- the pass --------------------------------------------------------------------------

  predicate Open(row: Row) {
    || row.origin == Some(SocketLifecycle)
    || (row.context == 0
        && (row.attribution.NoRequestContext? || row.attribution.Unknown? || row.attribution.AmbiguousResource?))
  }

  /** One row of the retroactive pass. */
  function Bind(owned: Owned, row: Row): Row {
    if row.connection.None? || !row.call.Receive? || !Open(row) then row
    else
      var owners := SocketOwners(owned, row.connection);
      if owners == {} then row
      else
        var claimed := row.(origin := Some(SocketLifecycle), evidence := Some(Connection(row.connection.value)));
        if |owners| == 1 then
          claimed.(context := Least(owners), requests := owners, attribution := Bound)
        else
          claimed.(context := 0, requests := {}, candidates := owners, attribution := AmbiguousResource)
  }

  function BindAll(owned: Owned, rows: seq<Row>): (r: seq<Row>)
    ensures |r| == |rows| && forall i :: 0 <= i < |rows| ==> r[i] == Bind(owned, rows[i])
  {
    if rows == [] then [] else BindAll(owned, rows[..|rows| - 1]) + [Bind(owned, rows[|rows| - 1])]
  }

  /** How many rows the pass resolves. */
  function Resolved(owned: Owned, rows: seq<Row>): nat {
    if rows == [] then 0
    else
      Resolved(owned, rows[..|rows| - 1]) + if Resolves(owned, rows[|rows| - 1]) then 1 else 0
  }

  predicate Resolves(owned: Owned, row: Row) {
    row.connection.Some? && row.call.Receive? && Open(row) && SocketOwners(owned, row.connection) != {}
  }

  /** Each resolved row counts once. */
  lemma {:induction false} ResolvedCounts(owned: Owned, rows: seq<Row>)
    ensures Resolved(owned, rows) == |ResolvedRows(owned, rows)|
  {
    hide Resolves;
    if rows == [] {
      assert ResolvedRows(owned, rows) == {};
    } else {
      var n := |rows| - 1;
      ResolvedCounts(owned, rows[..n]);
      ResolvedMore(owned, rows);
      hide ResolvedRows;
      assert n !in ResolvedRows(owned, rows[..n]) by { ResolvedInside(owned, rows[..n]); }
    }
  }

  function ResolvedRows(owned: Owned, rows: seq<Row>): set<int> {
    set i | 0 <= i < |rows| && Resolves(owned, rows[i])
  }

  lemma ResolvedMore(owned: Owned, rows: seq<Row>)
    requires rows != []
    ensures var n := |rows| - 1;
            ResolvedRows(owned, rows) ==
            ResolvedRows(owned, rows[..n]) + if Resolves(owned, rows[n]) then {n} else {}
  {
    hide Resolves;
  }

  lemma ResolvedInside(owned: Owned, rows: seq<Row>)
    ensures forall i :: i in ResolvedRows(owned, rows) ==> i < |rows|
  {
  }

  /** The trace positions of the rows charged to a socket's owners. */
  function Lifecycle(rows: seq<Row>): set<Source> {
    set row | row in rows && row.origin == Some(SocketLifecycle) :: row.stamp.source
  }

  predicate Unjustified(r: Record, sources: set<Source>) {
    r.Edge? && r.kind.Executed? && r.target.SyscallNode? && r.target.source in sources
  }

  /** The graph without the execution edges the pass has made unjustified. */
  function Publish(g: seq<Record>, sources: set<Source>): seq<Record> {
    if g == [] then []
    else Publish(g[..|g| - 1], sources) + if Unjustified(g[|g| - 1], sources) then [] else [g[|g| - 1]]
  }

  lemma PassStart(owned: Owned, rows: seq<Row>)
    ensures BindAll(owned, rows[..0]) + rows[0..] == rows && Resolved(owned, rows[..0]) == 0
  {
    assert rows[..0] == [] && [] + rows[0..] == rows;
  }

  /** Binding row i of a partly bound output. */
  lemma PassStep(owned: Owned, rows: seq<Row>, i: nat)
    requires i < |rows|
    ensures var part := BindAll(owned, rows[..i]) + rows[i..];
            && |part| == |rows| && part[i] == rows[i]
            && part[i := Bind(owned, rows[i])] == BindAll(owned, rows[..i + 1]) + rows[i + 1..]
            && (i + 1 < |rows| ==> part[i + 1] == rows[i + 1])
    ensures Resolved(owned, rows[..i + 1]) == Resolved(owned, rows[..i]) + if Resolves(owned, rows[i]) then 1 else 0
  {
    hide Bind, Resolves;
    assert rows[..i + 1][..i] == rows[..i];
    assert BindAll(owned, rows[..i + 1]) == BindAll(owned, rows[..i]) + [Bind(owned, rows[i])];
  }

  /** A second pass changes nothing and resolves the same number of rows. */
  lemma {:induction false} BindTwice(owned: Owned, rows: seq<Row>)
    ensures BindAll(owned, BindAll(owned, rows)) == BindAll(owned, rows)
    ensures Resolved(owned, BindAll(owned, rows)) == Resolved(owned, rows)
  {
    if rows != [] {
      var front := rows[..|rows| - 1];
      var last := rows[|rows| - 1];
      BindTwice(owned, front);
      var once := BindAll(owned, rows);
      hide Bind, Resolves;
      assert once[..|once| - 1] == BindAll(owned, front);
      BoundOnce(owned, last);
    }
  }

  lemma BoundOnce(owned: Owned, row: Row)
    ensures Bind(owned, Bind(owned, row)) == Bind(owned, row)
    ensures Resolves(owned, Bind(owned, row)) == Resolves(owned, row)
  {
  }

  // ----- ownership only grows ------------------------------------------------------------------

  /** Connections are numbered by creation, and every bound descriptor's owners are known. */
  ghost predicate Numbered(x: Effects) {
    && (forall c :: c in x.sockets.owned ==> c.generation <= x.fds.generation)
    && (forall key :: key in x.fds.sockets ==> x.fds.sockets[key] in x.sockets.owned)
  }

  ghost predicate Grown(before: Owned, after: Owned) {
    forall c :: c in before ==> c in after && before[c] <= after[c]
  }

  lemma StepSockets(f: D.FdState, e: Syscall)
    ensures var out := D.Step(f, e);
            && (forall key :: key in out.fds.sockets ==>
                  (out.created.Some? && out.fds.sockets[key] == out.created.value)
                  || out.fds.sockets[key] in f.sockets.Values)
            && (out.created.Some? ==>
                out.socket == out.created && out.created.value.generation == out.fds.generation == f.generation + 1)
            && (out.created.None? ==> out.fds.generation == f.generation)
            && (out.created.None? && out.socket.Some? ==> out.socket.value in f.sockets.Values)
  {
    var g := D.WithTable(f, e.stamp.tid);
    ActSockets(g, e, g.tables[e.stamp.tid]);
  }

  lemma CopySockets(f: D.FdState, table: nat)
    ensures forall key :: key in D.CopyTable(f, table).sockets ==>
              D.CopyTable(f, table).sockets[key] in f.sockets.Values
    ensures D.CopyTable(f, table).generation == f.generation
  {
  }

  lemma ActSockets(f: D.FdState, e: Syscall, table: nat)
    ensures var out := D.Act(f, e, table);
            && (forall key :: key in out.fds.sockets ==>
                  (out.created.Some? && out.fds.sockets[key] == out.created.value)
                  || out.fds.sockets[key] in f.sockets.Values)
            && (out.created.Some? ==>
                out.socket == out.created && out.created.value.generation == out.fds.generation == f.generation + 1)
            && (out.created.None? ==> out.fds.generation == f.generation)
            && (out.created.None? && out.socket.Some? ==> out.socket.value in f.sockets.Values)
  {
    hide D.CopyTable, D.InRange, D.Inheritable;
    CopySockets(f, table);
    var held := if e.fd.Some? then D.Lookup(f, D.Key(table, e.fd.value)) else None;
    assert held.Some? ==> D.Key(table, e.fd.value) in f.sockets;
  }

  lemma TraceOwners(m: Mapping, s: State, e: Syscall)
    requires !e.instrumentation
    ensures var x := TraceStep(m, s, e).effects;
            var out := D.Step(s.effects.fds, e);
            && x.fds == out.fds
            && x.sockets.owned == OwnersAfter(m, s.effects.sockets.owned, e, out, RequestOf(ContextOf(s, e.stamp)))
  {
    hide D.Step, OwnersAfter, SocketOwners, Effective, NewRow, TraceRecords, Inherited, ContextOf;
  }

  lemma TraceIgnored(m: Mapping, s: State, e: Syscall)
    requires e.instrumentation
    ensures TraceStep(m, s, e) == s
  {
  }

  lemma OwnersAfterGrows(m: Mapping, owned: Owned, e: Syscall, out: D.Outcome, request: Context)
    requires out.created.Some? ==> out.created == out.socket && out.socket.value !in owned
    ensures Grown(owned, OwnersAfter(m, owned, e, out, request))
    ensures OwnersAfter(m, owned, e, out, request).Keys == owned.Keys
            + if out.socket.Some? then {out.socket.value} else {}
  {
  }

  lemma NumberedAfter(x: Effects, y: Effects, out: D.Outcome)
    requires Numbered(x) && y.fds == out.fds
    requires forall key :: key in out.fds.sockets ==>
               (out.created.Some? && out.fds.sockets[key] == out.created.value)
                 || out.fds.sockets[key] in x.fds.sockets.Values
    requires out.created.Some? ==>
             out.socket == out.created && out.created.value.generation == out.fds.generation == x.fds.generation + 1
    requires out.created.None? ==> out.fds.generation == x.fds.generation
    requires out.created.None? && out.socket.Some? ==> out.socket.value in x.fds.sockets.Values
    requires y.sockets.owned.Keys == x.sockets.owned.Keys + if out.socket.Some? then {out.socket.value} else {}
    ensures Numbered(y)
  {
    forall key | key in y.fds.sockets ensures y.fds.sockets[key] in y.sockets.owned {
      assert y.fds.sockets[key] in y.sockets.owned.Keys;
    }
    forall c | c in y.sockets.owned ensures c.generation <= y.fds.generation {
      assert c in y.sockets.owned.Keys;
    }
  }

  lemma CallGrows(m: Mapping, s: State, e: Syscall)
    requires Numbered(s.effects)
    ensures Numbered(TraceStep(m, s, e).effects)
    ensures Grown(s.effects.sockets.owned, TraceStep(m, s, e).effects.sockets.owned)
  {
    hide TraceStep, D.Step, OwnersAfter;
    if e.instrumentation {
      TraceIgnored(m, s, e);
    } else {
      var out := D.Step(s.effects.fds, e);
      TraceOwners(m, s, e);
      StepSockets(s.effects.fds, e);
      assert out.created.Some? ==> out.socket.value !in s.effects.sockets.owned;
      OwnersAfterGrows(m, s.effects.sockets.owned, e, out, RequestOf(ContextOf(s, e.stamp)));
      hide Numbered, Grown;
      NumberedAfter(s.effects, TraceStep(m, s, e).effects, out);
    }
  }

  lemma StepGrows(m: Mapping, s: State, line: Line)
    requires Numbered(s.effects)
    ensures Numbered(Apply(m, s, line).effects)
    ensures Grown(s.effects.sockets.owned, Apply(m, s, line).effects.sockets.owned)
  {
    hide MarkerStep, TraceStep, Numbered;
    match line
    case MarkerLine(at, n) => MarkerFrame(m, s, at, n);
    case CallLine(e) => CallGrows(m, s, e);
  }

  lemma {:induction false} OwnersGrow(m: Mapping, graph: seq<Record>, lines: seq<Line>, i: nat)
    requires i <= |lines|
    ensures Numbered(After(m, graph, lines).effects)
    ensures Grown(After(m, graph, lines[..i]).effects.sockets.owned, After(m, graph, lines).effects.sockets.owned)
  {
    hide Apply;
    if lines == [] {
      assert lines[..i] == lines;
      hide After;
    } else if i == |lines| {
      assert lines[..i] == lines;
      OwnersGrow(m, graph, lines[..|lines| - 1], 0);
      StepGrows(m, After(m, graph, lines[..|lines| - 1]), lines[|lines| - 1]);
    } else {
      var prefix := lines[..|lines| - 1];
      assert prefix[..i] == lines[..i];
      OwnersGrow(m, graph, prefix, i);
      StepGrows(m, After(m, graph, prefix), lines[|lines| - 1]);
    }
  }

  // ----- rows ----------------------------------------------------------------------------------

  /** The row ran under a request of its own, not one borrowed from its socket. */
  predicate Executing(row: Row) { row.context != 0 && row.origin != Some(SocketLifecycle) }

  ghost predicate Sane(s: State) {
    && (forall t :: t in s.threads ==> s.threads[t].origin != SocketLifecycle)
    && (forall p :: p in s.effects.inherited ==> s.effects.inherited[p].origin != SocketLifecycle)
    && (forall c :: c in s.effects.sockets.owned ==> 0 !in s.effects.sockets.owned[c])
  }

  /** A row without its own request is consistent with the owners its socket has by now. */
  predicate Fits(owned: Owned, row: Row) {
    Executing(row) ||
    (if row.origin == Some(SocketLifecycle) then
       && row.context != 0 && row.candidates == {} && row.connection.Some?
       && row.connection.value in owned && row.context in owned[row.connection.value]
     else
       && row.context == 0 && row.requests == {} && (row.attribution.NoRequestContext? || row.attribution.Unknown?)
       && (row.candidates != {} ==> |row.candidates| > 1)
       && (if row.connection.Some? then row.connection.value in owned && row.candidates <= owned[row.connection.value]
           else row.candidates == {}))
  }

  lemma MarkerSane(m: Mapping, s: State, at: Stamp, n: Marker)
    requires Sane(s)
    ensures Sane(MarkerStep(m, s, at, n))
  {
    MarkerFrame(m, s, at, n);
    MarkerThreads(m, s, at, n);
    hide MarkerStep;
  }

  lemma MarkerThreads(m: Mapping, s: State, at: Stamp, n: Marker)
    ensures var g := MarkerStep(m, s, at, n);
            forall t :: t in g.threads ==>
              (t in s.threads && g.threads[t] == s.threads[t]) || g.threads[t].origin != SocketLifecycle
  {
    DispatchThreads(m, s, at, n);
    DispatchThreads(m, Fail(s, UnknownContext(n.request)), at, n);
    hide Dispatch;
  }

  lemma DispatchThreads(m: Mapping, s: State, at: Stamp, n: Marker)
    ensures var g := Dispatch(m, s, at, n);
            forall t :: t in g.threads ==>
              (t in s.threads && g.threads[t] == s.threads[t]) || g.threads[t].origin != SocketLifecycle
  {
    hide SubmitRecords, SubmitErrors, SendRecords, ContextOf, PutWork, PutJob, ActiveOf, JobOf;
  }

  lemma OwnersPositive(m: Mapping, owned: Owned, e: Syscall, out: D.Outcome, request: Context)
    requires ValidMapping(m) && forall c :: c in owned ==> 0 !in owned[c]
    ensures forall c :: c in OwnersAfter(m, owned, e, out, request) ==> 0 !in OwnersAfter(m, owned, e, out, request)[c]
  {
  }

  lemma TraceSane(m: Mapping, s: State, e: Syscall)
    requires ValidMapping(m) && Sane(s)
    ensures Sane(TraceStep(m, s, e))
  {
    if !e.instrumentation {
      OwnersPositive(m, s.effects.sockets.owned, e, D.Step(s.effects.fds, e), RequestOf(ContextOf(s, e.stamp)));
      TraceOwners(m, s, e);
      TraceInherited(m, s, e);
      TraceFrame(m, s, e);
      hide TraceStep, OwnersAfter, D.Step;
    }
  }

  lemma TraceInherited(m: Mapping, s: State, e: Syscall)
    requires !e.instrumentation
    ensures var x := TraceStep(m, s, e).effects;
            forall p :: p in x.inherited ==>
              (p in s.effects.inherited && x.inherited[p] == s.effects.inherited[p])
                || x.inherited[p].origin == ProcessInheritance
  {
    hide D.Step, OwnersAfter, SocketOwners, NewRow, TraceRecords, DrawnAfter, ContextOf, Effective;
  }

  lemma FitsGrown(before: Owned, after: Owned, row: Row)
    requires Grown(before, after) && Fits(before, row)
    ensures Fits(after, row)
  {
  }

  /** The row a call appends. */
  lemma NewRowFits(m: Mapping, s: State, e: Syscall)
    requires ValidMapping(m) && Sane(s) && Numbered(s.effects) && !e.instrumentation
    ensures var g := TraceStep(m, s, e);
            && g.effects.rows == s.effects.rows + [Read(m, s, e).row]
            && Fits(g.effects.sockets.owned, Read(m, s, e).row)
            && (Executing(Read(m, s, e).row) <==> RequestOf(ContextOf(s, e.stamp)) != 0)
  {
    var c := ContextOf(s, e.stamp);
    var out := D.Step(s.effects.fds, e);
    var owned := OwnersAfter(m, s.effects.sockets.owned, e, out, RequestOf(c));
    StepSockets(s.effects.fds, e);
    assert out.created.Some? ==> out.socket.value !in s.effects.sockets.owned;
    OwnersAfterGrows(m, s.effects.sockets.owned, e, out, RequestOf(c));
    assert out.socket.Some? ==> out.socket.value in owned.Keys;
    OwnersPositive(m, s.effects.sockets.owned, e, out, RequestOf(c));
    TraceOwners(m, s, e);
    assert c.Some? ==> c.value.origin != SocketLifecycle;
    RowFits(m, e, c, out, owned);
    hide D.Step, OwnersAfter, Fits, NewRow, Effective, TraceRecords, DrawnAfter, Inherited;
  }

  lemma RowFits(m: Mapping, e: Syscall, c: Option<Ctx>, out: D.Outcome, owned: Owned)
    requires ValidMapping(m) && (c.Some? ==> c.value.origin != SocketLifecycle)
    requires out.socket.Some? ==> out.socket.value in owned && 0 !in owned[out.socket.value]
    ensures var owners := SocketOwners(owned, out.socket);
            var row := NewRow(m, e, Effective(e, out, c, owners), out.socket, owners);
            Fits(owned, row) && (Executing(row) <==> RequestOf(c) != 0)
  {
  }

  ghost predicate AllFit(s: State) {
    forall i :: 0 <= i < |s.effects.rows| ==> Fits(s.effects.sockets.owned, s.effects.rows[i])
  }

  lemma StepFit(m: Mapping, s: State, line: Line)
    requires ValidMapping(m) && Sane(s) && Numbered(s.effects) && AllFit(s)
    ensures Sane(Apply(m, s, line)) && AllFit(Apply(m, s, line))
  {
    hide MarkerStep, TraceStep, Numbered, Sane, Fits, Grown, ValidMapping;
    StepGrows(m, s, line);
    match line
    case MarkerLine(at, n) =>
      MarkerSane(m, s, at, n);
      MarkerFrame(m, s, at, n);
    case CallLine(e) =>
      TraceSane(m, s, e);
      var g := TraceStep(m, s, e);
      if e.instrumentation {
        TraceIgnored(m, s, e);
      } else {
        NewRowFits(m, s, e);
        forall i | 0 <= i < |s.effects.rows| ensures Fits(g.effects.sockets.owned, s.effects.rows[i]) {
          FitsGrown(s.effects.sockets.owned, g.effects.sockets.owned, s.effects.rows[i]);
        }
      }
  }

  lemma {:induction false} RunFit(m: Mapping, graph: seq<Record>, lines: seq<Line>)
    requires ValidMapping(m)
    ensures Sane(After(m, graph, lines)) && AllFit(After(m, graph, lines))
  {
    hide Apply, ValidMapping;
    if lines != [] {
      RunFit(m, graph, lines[..|lines| - 1]);
      OwnersGrow(m, graph, lines[..|lines| - 1], 0);
      hide AllFit, Sane;
      StepFit(m, After(m, graph, lines[..|lines| - 1]), lines[|lines| - 1]);
    }
  }

  // ----- results -----------------------------------------------------------------------------

  /** After the pass, a socket read that ran under no request of its own is unbound, bound or
      ambiguous exactly as the connection's final owners are none, one or several, and its
      candidates are those owners; every other row is untouched. */
  lemma ReadsFollowFinalOwners(m: Mapping, graph: seq<Record>, lines: seq<Line>, i: nat)
    requires ValidMapping(m) && i < |After(m, graph, lines).effects.rows|
    ensures var owned := After(m, graph, lines).effects.sockets.owned;
            var row := After(m, graph, lines).effects.rows[i];
            var bound := BindAll(owned, After(m, graph, lines).effects.rows)[i];
            if row.connection.None? || !row.call.Receive? || Executing(row) then bound == row
            else
              var owners := SocketOwners(owned, row.connection);
              && (owners == {} <==> bound.attribution.NoRequestContext? || bound.attribution.Unknown?)
              && (|owners| == 1 <==> bound.attribution.Bound?)
              && (|owners| > 1 <==> bound.attribution.AmbiguousResource?)
              && (owners == {} ==> bound == row && row.requests == {} && row.candidates == {})
              && (|owners| == 1 ==> bound.context in owners && bound.requests == owners && bound.candidates == {})
              && (|owners| > 1 ==> bound.context == 0 && bound.requests == {} && bound.candidates == owners)
              && bound.stamp == row.stamp && bound.call == row.call && bound.connection == row.connection
              && bound.operation == row.operation && bound.job == row.job
              && (owners != {} ==>
                  bound.origin == Some(SocketLifecycle) && bound.evidence == Some(Connection(row.connection.value)))
  {
    RunFit(m, graph, lines);
    var s := After(m, graph, lines);
    hide After;
    BindFits(s.effects.sockets.owned, s.effects.rows[i]);
  }

  lemma BindFits(owned: Owned, row: Row)
    requires Fits(owned, row)
    ensures Resolves(owned, row) <==>
            row.connection.Some? && row.call.Receive? && !Executing(row) && SocketOwners(owned, row.connection) != {}
    ensures var bound := Bind(owned, row);
            if row.connection.None? || !row.call.Receive? || Executing(row) then bound == row
            else
              var owners := SocketOwners(owned, row.connection);
              && (owners == {} <==> bound.attribution.NoRequestContext? || bound.attribution.Unknown?)
              && (|owners| == 1 <==> bound.attribution.Bound?)
              && (|owners| > 1 <==> bound.attribution.AmbiguousResource?)
              && (owners == {} ==> bound == row && row.requests == {} && row.candidates == {})
              && (|owners| == 1 ==> bound.context in owners && bound.requests == owners && bound.candidates == {})
              && (|owners| > 1 ==> bound.context == 0 && bound.requests == {} && bound.candidates == owners)
              && bound.stamp == row.stamp && bound.call == row.call && bound.connection == row.connection
              && bound.operation == row.operation && bound.job == row.job
              && (owners != {} ==>
                  bound.origin == Some(SocketLifecycle) && bound.evidence == Some(Connection(row.connection.value)))
  {
    if row.connection.Some? && !Executing(row) {
      var owners := SocketOwners(owned, row.connection);
      if |owners| <= 1 && row.candidates <= owners { SubsetSize(row.candidates, owners); }
      if owners != {} && |owners| != 1 { assert |owners| > 1; }
    }
  }

  lemma SubsetSize(a: set<Context>, b: set<Context>)
    requires a <= b
    ensures |a| <= |b|
  {
    if a != {} {
      var x :| x in a;
      SubsetSize(a - {x}, b - {x});
    }
  }
}
