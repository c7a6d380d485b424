/** Who owns a connection, read off the lines of the trace: exactly the owners of the contexts under
    which it was made, connected, read or written. */
module OwnershipHistory {
  import opened Trace
  import opened Attribution
  import opened Replay
  import opened TableViews
  import SocketReads
  import D = Descriptors

  /** The call makes, connects, reads or writes the connection; `f` is what its task was shown before. */
  predicate Uses(f: D.FdState, e: Syscall, conn: D.ConnId) {
    match e.call
    case Socket(_) => Made(f, e) == Some(conn)
    case Accept(_, _) => Made(f, e) == Some(conn)
    case Connect => Made(f, e) == Some(conn) || Shown(f, e) == Some(conn)
    case Receive => Shown(f, e) == Some(conn)
    case Send => Shown(f, e) == Some(conn)
    case _ => false
  }

  /** The context's request is `p`, or joins it with others. */
  predicate Stands(m: Mapping, c: Option<Ctx>, p: Context) {
    && c.Some? && c.value.request != 0
    && p in (if c.value.request in m.owners then m.owners[c.value.request] else {c.value.request})
  }

  /** The j-th line is such a call, made under a context that stands for `p`. */
  ghost predicate Granted(m: Mapping, graph: seq<Record>, lines: seq<Line>, j: nat, conn: D.ConnId, p: Context) {
    && j < |lines| && lines[j].CallLine? && !lines[j].e.instrumentation
    && var before := After(m, graph, lines[..j]);
       Uses(before.effects.fds, lines[j].e, conn) && Stands(m, ContextOf(before, lines[j].e.stamp), p)
  }

  predicate Owns(x: Effects, conn: D.ConnId, p: Context) { conn in x.sockets.owned && p in x.sockets.owned[conn] }

  lemma {:induction false} RunAllocated(m: Mapping, graph: seq<Record>, lines: seq<Line>)
    ensures Allocated(After(m, graph, lines).effects.fds)
  {
    hide Allocated;
    if lines == [] {
      EmptyAllocated();
    } else {
      var before := After(m, graph, lines[..|lines| - 1]);
      RunAllocated(m, graph, lines[..|lines| - 1]);
      match lines[|lines| - 1]
      case MarkerLine(at, n) => MarkerFrame(m, before, at, n);
      case CallLine(e) =>
        if e.instrumentation {
          SocketReads.TraceIgnored(m, before, e);
        } else {
          SocketReads.TraceOwners(m, before, e);
          StepAllocated(before.effects.fds, e);
        }
    }
  }

  lemma EmptyAllocated()
    ensures Allocated(D.Empty())
  {
  }

  /** One call adds exactly what it grants. */
  lemma CallOwns(m: Mapping, s: State, e: Syscall, conn: D.ConnId, p: Context)
    requires Allocated(s.effects.fds) && SocketReads.Numbered(s.effects) && !e.instrumentation
    ensures Owns(TraceStep(m, s, e).effects, conn, p) <==>
            Owns(s.effects, conn, p) || (Uses(s.effects.fds, e, conn) && Stands(m, ContextOf(s, e.stamp), p))
  {
    hide D.Step, TraceStep, Allocated, Seen, ContextOf;
    var f := s.effects.fds;
    WorksOn(f, e);
    SocketReads.TraceOwners(m, s, e);
    SocketReads.StepSockets(f, e);
  }

  /** A request owns a connection if and only if some earlier call made, connected, read or wrote it
      under a context that stands for the request. */
  lemma {:induction false} OwnersAreGranted(m: Mapping, graph: seq<Record>, lines: seq<Line>, conn: D.ConnId,
                                            p: Context)
    ensures Owns(After(m, graph, lines).effects, conn, p) <==> exists j :: Granted(m, graph, lines, j, conn, p)
  {
    hide Uses, Stands, Owns, MarkerStep, TraceStep;
    if lines == [] {
      NobodyOwns(graph, conn, p);
    } else {
      var n := |lines| - 1;
      var front := lines[..n];
      OwnersAreGranted(m, graph, front, conn, p);
      GrantedMore(m, graph, lines, conn, p);
      var before := After(m, graph, front);
      match lines[n]
      case MarkerLine(at, note) => MarkerFrame(m, before, at, note);
      case CallLine(e) =>
        if e.instrumentation {
          SocketReads.TraceIgnored(m, before, e);
        } else {
          RunAllocated(m, graph, front);
          SocketReads.OwnersGrow(m, graph, front, 0);
          CallOwns(m, before, e, conn, p);
        }
    }
  }

  lemma NobodyOwns(graph: seq<Record>, conn: D.ConnId, p: Context)
    ensures !Owns(Initial(graph).effects, conn, p)
  {
  }

  lemma GrantedMore(m: Mapping, graph: seq<Record>, lines: seq<Line>, conn: D.ConnId, p: Context)
    requires lines != []
    ensures var n := |lines| - 1;
            (exists j :: Granted(m, graph, lines, j, conn, p)) <==>
            (exists j :: Granted(m, graph, lines[..n], j, conn, p)) || Granted(m, graph, lines, n, conn, p)
  {
    hide Uses, Stands, After;
    var n := |lines| - 1;
    forall j: nat | j < n ensures Granted(m, graph, lines, j, conn, p) <==> Granted(m, graph, lines[..n], j, conn, p) {
      assert lines[..n][..j] == lines[..j];
    }
    forall j: nat ensures Granted(m, graph, lines, j, conn, p) ==> j < n || j == n {}
  }
}
