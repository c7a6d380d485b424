/** The `connected` edges of the graph are the ownership sets, each owner drawn once. */
module OwnershipEdges {
  import opened Trace
  import opened Attribution
  import opened Replay
  import SocketReads
  import D = Descriptors

  /** The connected edges among some records, in order. */
  function Drawn(g: seq<Record>): seq<Record> {
    if g == [] then []
    else
      var r := g[|g| - 1];
      Drawn(g[..|g| - 1]) + if r.Edge? && r.kind.Connected? then [r] else []
  }

  lemma {:induction false} DrawnJoined(a: seq<Record>, b: seq<Record>)
    ensures Drawn(a + b) == Drawn(a) + Drawn(b)
  {
    if b == [] {
      assert a + b == a;
    } else {
      var n := |b| - 1;
      DrawnJoined(a, b[..n]);
      assert (a + b)[..|a + b| - 1] == a + b[..n];
    }
  }

  lemma {:induction false} NoneDrawn(g: seq<Record>)
    requires forall r :: r in g ==> r.Node? || !r.kind.Connected?
    ensures Drawn(g) == []
  {
    if g != [] { NoneDrawn(g[..|g| - 1]); }
  }

  lemma {:induction false} DrawnMembers(g: seq<Record>)
    ensures forall r :: r in Drawn(g) <==> r in g && r.Edge? && r.kind.Connected?
  {
    if g != [] {
      DrawnMembers(g[..|g| - 1]);
      assert g == g[..|g| - 1] + [g[|g| - 1]];
    }
  }

  function Owns(m: Mapping, p: Context, conn: D.ConnId): Record { Edge(ContextNode(m, p), SocketNode(conn), Connected) }

  lemma OwnsInjective(m: Mapping, p: Context, q: Context, c: D.ConnId, d: D.ConnId)
    requires Owns(m, p, c) == Owns(m, q, d)
    ensures p == q && c == d
  {
  }

  predicate Once(g: seq<Record>) { forall i, j :: 0 <= i < j < |g| ==> g[i] != g[j] }

  lemma {:induction false} EdgeMembers(m: Mapping, owners: set<Context>, conn: D.ConnId)
    ensures forall r :: r in ConnectedEdges(m, owners, conn) <==> exists p :: p in owners && r == Owns(m, p, conn)
  {
    if owners != {} {
      var first := Least(owners);
      EdgeMembers(m, owners - {first}, conn);
      forall r ensures r in ConnectedEdges(m, owners, conn) <==> exists p :: p in owners && r == Owns(m, p, conn) {
        if p :| p in owners && r == Owns(m, p, conn) { assert p == first || p in owners - {first}; }
      }
    }
  }

  lemma OneDrawn(r: Record)
    requires r.Edge? && r.kind.Connected?
    ensures Drawn([r]) == [r]
  {
    assert [r][..0] == [];
  }

  lemma {:induction false} EdgesOfOwners(m: Mapping, owners: set<Context>, conn: D.ConnId)
    ensures var g := ConnectedEdges(m, owners, conn); Drawn(g) == g && Once(g)
  {
    hide Drawn;
    if owners == {} {
      NoneDrawn([]);
    } else {
      var first := Least(owners);
      var rest := ConnectedEdges(m, owners - {first}, conn);
      EdgesOfOwners(m, owners - {first}, conn);
      DrawnJoined([Owns(m, first, conn)], rest);
      OneDrawn(Owns(m, first, conn));
      EdgeMembers(m, owners - {first}, conn);
      forall j | 0 <= j < |rest| ensures rest[j] != Owns(m, first, conn) {
        assert rest[j] in rest;
        var p :| p in owners - {first} && rest[j] == Owns(m, p, conn);
        if rest[j] == Owns(m, first, conn) { OwnsInjective(m, p, first, conn, conn); }
      }
    }
  }

  // ----- one step ---------------------------------------------------------------------------------

  /** What has been drawn is what is owned. */
  ghost predicate Drawing(m: Mapping, k: Sockets, drawn: seq<Record>) {
    && (forall p, conn :: (p, conn) in k.edges <==> conn in k.owned && p in k.owned[conn])
    && (forall r :: r in drawn <==> exists p, conn :: (p, conn) in k.edges && r == Owns(m, p, conn))
    && Once(drawn)
  }

  lemma SocketDrawn(m: Mapping, k: Sockets, e: Syscall, out: D.Outcome, owners: set<Context>)
    ensures Drawn(SocketRecords(m, k, e, out, owners)) ==
            if out.socket.None? then [] else ConnectedEdges(m, Undrawn(k, owners, out.socket.value), out.socket.value)
  {
    hide Drawn, ConnectedEdges, Undrawn;
    if out.socket.None? {
      NoneDrawn([]);
    } else {
      var conn := out.socket.value;
      var accept := AcceptRecords(e, out);
      var node := if conn in k.drawn + (if out.listener.Some? && out.created.Some? then {out.created.value} else {})
        then [] else [Node(SocketNode(conn))];
      var edges := ConnectedEdges(m, Undrawn(k, owners, conn), conn);
      var effect := if e.Transfers() then [Edge(SocketNode(conn), SyscallNode(e.stamp.source), SocketEffect)] else [];
      NoneDrawn(accept);
      NoneDrawn(node);
      NoneDrawn(effect);
      EdgesOfOwners(m, Undrawn(k, owners, conn), conn);
      DrawnJoined(accept, node);
      DrawnJoined(accept + node, edges);
      DrawnJoined(accept + node + edges, effect);
    }
  }

  lemma CallDrawn(m: Mapping, s: State, e: Syscall, r: Reading)
    ensures Drawn(TraceRecords(m, s, e, r)) == Drawn(SocketRecords(m, s.effects.sockets, e, r.out, r.owners))
  {
    var sockets := SocketRecords(m, s.effects.sockets, e, r.out, r.owners);
    var spawned, own := SpawnRecords(m, e, r.ctx), RowRecords(m, s.effects.executed, r.row, r.ctx);
    NoneDrawn(spawned);
    NoneDrawn(own);
    DrawnJoined(sockets, spawned);
    DrawnJoined(sockets + spawned, own);
  }

  /** New owners of a connection are drawn, each once; the others already were. */
  lemma OwnersDrawn(m: Mapping, k: Sockets, drawn: seq<Record>, owned: SocketReads.Owned, conn: D.ConnId)
    requires Drawing(m, k, drawn) && conn in owned && SocketReads.Grown(k.owned, owned)
    requires forall c :: c in owned && c != conn ==> c in k.owned && owned[c] == k.owned[c]
    ensures var owners := owned[conn];
            Drawing(m, Sockets(owned, k.drawn + {conn}, k.edges + set p | p in owners :: (p, conn)),
                    drawn + ConnectedEdges(m, Undrawn(k, owners, conn), conn))
  {
    hide ConnectedEdges;
    var owners := owned[conn];
    var undrawn := Undrawn(k, owners, conn);
    var more := ConnectedEdges(m, undrawn, conn);
    var edges := k.edges + set p | p in owners :: (p, conn);
    EdgesOfOwners(m, undrawn, conn);
    EdgeMembers(m, undrawn, conn);
    forall p, c ensures (p, c) in edges <==> c in owned && p in owned[c] {
      assert (p, c) in k.edges <==> c in k.owned && p in k.owned[c];
    }
    forall r ensures r in drawn + more <==> exists p, c :: (p, c) in edges && r == Owns(m, p, c) {
      if r in drawn {
        var p, c :| (p, c) in k.edges && r == Owns(m, p, c);
        assert (p, c) in edges;
      }
      if r in more {
        var p :| p in undrawn && r == Owns(m, p, conn);
        assert (p, conn) in edges;
      }
      if p, c :| (p, c) in edges && r == Owns(m, p, c) {
        assert (p, c) in k.edges || (c == conn && p in undrawn);
      }
    }
    forall i, j | 0 <= i < |drawn| && 0 <= j < |more| ensures drawn[i] != more[j] {
      assert drawn[i] in drawn && more[j] in more;
      var p, c :| (p, c) in k.edges && drawn[i] == Owns(m, p, c);
      var q :| q in undrawn && more[j] == Owns(m, q, conn);
      if drawn[i] == more[j] { OwnsInjective(m, p, q, c, conn); }
    }
  }

  lemma CallDrawing(m: Mapping, s: State, e: Syscall)
    requires SocketReads.Numbered(s.effects) && Drawing(m, s.effects.sockets, Drawn(s.graph))
    ensures Drawing(m, TraceStep(m, s, e).effects.sockets, Drawn(TraceStep(m, s, e).graph))
  {
    hide TraceStep, Drawing, Drawn, SocketReads.Numbered, D.Step, OwnersAfter, ConnectedEdges;
    if e.instrumentation {
      SocketReads.TraceIgnored(m, s, e);
    } else {
      var out := D.Step(s.effects.fds, e);
      var k := s.effects.sockets;
      var owned := OwnersAfter(m, k.owned, e, out, RequestOf(ContextOf(s, e.stamp)));
      var r := Read(m, s, e);
      CallRead(m, s, e);
      DrawnJoined(s.graph, TraceRecords(m, s, e, r));
      CallDrawn(m, s, e, r);
      SocketDrawn(m, k, e, out, r.owners);
      SocketReads.CallGrows(m, s, e);
      SocketReads.TraceOwners(m, s, e);
      if out.socket.Some? {
        OwnedApart(m, k.owned, e, out, RequestOf(ContextOf(s, e.stamp)));
        OwnersDrawn(m, k, Drawn(s.graph), owned, out.socket.value);
      } else {
        NoSocket(m, k, e, out, RequestOf(ContextOf(s, e.stamp)));
        assert Drawn(s.graph) + [] == Drawn(s.graph);
      }
    }
  }

  lemma OwnedApart(m: Mapping, owned: SocketReads.Owned, e: Syscall, out: D.Outcome, request: Context)
    requires out.socket.Some?
    ensures var after := OwnersAfter(m, owned, e, out, request);
            && out.socket.value in after
            && (forall c :: c in after && c != out.socket.value ==> c in owned && after[c] == owned[c])
            && SocketOwners(after, out.socket) == after[out.socket.value]
  {
  }

  lemma NoSocket(m: Mapping, k: Sockets, e: Syscall, out: D.Outcome, request: Context)
    requires out.socket.None?
    ensures Sockets(OwnersAfter(m, k.owned, e, out, request), k.drawn, k.edges) == k
  {
  }

  lemma CallRead(m: Mapping, s: State, e: Syscall)
    requires !e.instrumentation
    ensures var r := Read(m, s, e);
            var k := s.effects.sockets;
            && r.out == D.Step(s.effects.fds, e)
            && r.owned == OwnersAfter(m, k.owned, e, r.out, RequestOf(ContextOf(s, e.stamp)))
            && r.owners == SocketOwners(r.owned, r.out.socket)
            && TraceStep(m, s, e).graph == s.graph + TraceRecords(m, s, e, r)
            && TraceStep(m, s, e).effects.sockets ==
               (if r.out.socket.None? then Sockets(r.owned, k.drawn, k.edges)
                else Sockets(r.owned, k.drawn + {r.out.socket.value},
                             k.edges + set p | p in r.owners :: (p, r.out.socket.value)))
  {
    hide D.Step, OwnersAfter, SocketOwners, Effective, NewRow, TraceRecords, Inherited, ContextOf;
  }

  /** What a marker can add to the graph. */
  lemma DispatchGraph(m: Mapping, s: State, at: Stamp, n: Marker)
    ensures var g := Dispatch(m, s, at, n).graph;
            || g == s.graph
            || g == s.graph + SubmitRecords(m, s.works, n)
            || g == s.graph + SendRecords(m, ContextOf(s, at), n)
            || g == s.graph
                 + [Node(CancelNode(n.job)), Edge(IpcNode(n.job), CancelNode(n.job), CancelledBeforeExecution)]
  {
    hide SubmitRecords, SubmitErrors, SendRecords, ContextOf, PutWork, PutJob, ActiveOf, JobOf, Waiting;
  }

  lemma DispatchDrawn(m: Mapping, s: State, at: Stamp, n: Marker)
    ensures Drawn(Dispatch(m, s, at, n).graph) == Drawn(s.graph)
  {
    hide Dispatch, Drawn, ContextOf;
    var cancelled := [Node(CancelNode(n.job)), Edge(IpcNode(n.job), CancelNode(n.job), CancelledBeforeExecution)];
    NoneDrawn(SubmitRecords(m, s.works, n));
    NoneDrawn(SendRecords(m, ContextOf(s, at), n));
    NoneDrawn(cancelled);
    DrawnJoined(s.graph, SubmitRecords(m, s.works, n));
    DrawnJoined(s.graph, SendRecords(m, ContextOf(s, at), n));
    DrawnJoined(s.graph, cancelled);
    DispatchGraph(m, s, at, n);
  }

  lemma MarkerDrawn(m: Mapping, s: State, at: Stamp, n: Marker)
    ensures Drawn(MarkerStep(m, s, at, n).graph) == Drawn(s.graph)
  {
    hide Dispatch, Drawn;
    DispatchDrawn(m, s, at, n);
    DispatchDrawn(m, Fail(s, UnknownContext(n.request)), at, n);
  }

  // ----- runs -----------------------------------------------------------------------------------------

  lemma {:induction false} RunDrawing(m: Mapping, graph: seq<Record>, lines: seq<Line>)
    requires Drawn(graph) == []
    ensures Drawing(m, After(m, graph, lines).effects.sockets, Drawn(After(m, graph, lines).graph))
  {
    hide Drawn, Drawing, MarkerStep, TraceStep;
    if lines == [] {
      NothingDrawing(m, graph);
    } else {
      var prefix := lines[..|lines| - 1];
      var s := After(m, graph, prefix);
      RunDrawing(m, graph, prefix);
      match lines[|lines| - 1]
      case MarkerLine(at, n) =>
        MarkerFrame(m, s, at, n);
        MarkerDrawn(m, s, at, n);
      case CallLine(e) =>
        SocketReads.OwnersGrow(m, graph, prefix, 0);
        CallDrawing(m, s, e);
    }
  }

  lemma NothingDrawing(m: Mapping, graph: seq<Record>)
    requires Drawn(graph) == []
    ensures Drawing(m, Initial(graph).effects.sockets, Drawn(Initial(graph).graph))
  {
  }

  /** At any point of any run, a context has a connected edge to a connection exactly if it owns
      it, and no connected edge is drawn twice. */
  lemma ConnectedIffOwner(m: Mapping, graph: seq<Record>, lines: seq<Line>, p: Context, conn: D.ConnId)
    requires forall r :: r in graph ==> r.Node? || !r.kind.Connected?
    ensures var s := After(m, graph, lines);
            && (Owns(m, p, conn) in s.graph <==> conn in s.effects.sockets.owned && p in s.effects.sockets.owned[conn])
            && Once(Drawn(s.graph))
  {
    NoneDrawn(graph);
    RunDrawing(m, graph, lines);
    var s := After(m, graph, lines);
    hide After;
    DrawnMembers(s.graph);
    if Owns(m, p, conn) in s.graph {
      var q, c :| (q, c) in s.effects.sockets.edges && Owns(m, p, conn) == Owns(m, q, c);
      OwnsInjective(m, p, q, conn, c);
    }
  }
}
