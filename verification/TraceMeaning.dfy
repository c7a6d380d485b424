/** What each line of the trace adds, field by field and record by record: the row of a syscall, the
    nodes and edges of the graph, the effect and the faults of a marker, and the final findings. */
module TraceMeaning {
  import opened Trace
  import opened Attribution
  import opened Replay
  import opened TableViews
  import opened OwnershipHistory
  import SocketReads
  import OwnershipEdges
  import D = Descriptors

  // ----- rows ------------------------------------------------------------------------------------

  /** Who owns the connection the call worked on, once the call is accounted for. */
  function OwnersBy(s: State, after: Effects, e: Syscall): set<Context> {
    var conn := Worked(s.effects.fds, e);
    if conn.Some? && conn.value in after.sockets.owned then after.sockets.owned[conn.value] else {}
  }

  predicate OwnRequest(c: Option<Ctx>) { c.Some? && c.value.request != 0 }

  /** The row of a syscall.  One made under a request names it; a read made under none, on a connection with one
      owner, is charged to that owner; any other is charged to nobody and, if its connection has several owners,
      lists them. */
  predicate RowIs(m: Mapping, c: Option<Ctx>, conn: Option<D.ConnId>, owners: set<Context>, e: Syscall, row: Row) {
    && row.stamp == e.stamp && row.call == e.call && row.connection == conn
    && (if OwnRequest(c) then
          && row.context == c.value.request && row.operation == c.value.operation && row.job == c.value.job
          && row.origin == Some(c.value.origin) && row.evidence == Some(c.value.evidence) && row.candidates == {}
        else if e.call.Receive? && |owners| == 1 then
          && row.context in owners && row.operation == 0 && row.job == None && row.origin == Some(SocketLifecycle)
          && conn.Some? && row.evidence == Some(Connection(conn.value)) && row.candidates == {}
        else
          && row.context == 0 && row.candidates == (if |owners| > 1 then owners else {})
          && (c.None? ==> row.operation == 0 && row.job == None && row.origin == None && row.evidence == None)
          && (c.Some? ==> row.operation == c.value.operation && row.job == c.value.job
                          && row.origin == Some(c.value.origin) && row.evidence == Some(c.value.evidence)))
    && row.requests == (if row.context in m.owners then m.owners[row.context] else {})
    && row.attribution ==
       (if |row.requests| > 1 then MultiParent
        else if |row.requests| == 1 then Bound
        else if c.Some? && row.context == 0 then NoRequestContext
        else Unknown)
  }

  predicate RowRight(m: Mapping, s: State, after: Effects, e: Syscall, row: Row) {
    RowIs(m, ContextOf(s, e.stamp), Worked(s.effects.fds, e), OwnersBy(s, after, e), e, row)
  }

  /** A call that is not one of the capture's own appends exactly one row, and it is right. */
  lemma CallRow(m: Mapping, s: State, e: Syscall)
    requires Allocated(s.effects.fds) && SocketReads.ValidMapping(m) && SocketReads.Sane(s) && !e.instrumentation
    ensures var g := TraceStep(m, s, e);
            && |g.effects.rows| == |s.effects.rows| + 1 && s.effects.rows < g.effects.rows
            && RowRight(m, s, g.effects, e, g.effects.rows[|s.effects.rows|])
  {
    hide D.Step, TraceStep, OwnersAfter, SocketOwners, NewRow, Effective, ContextOf, Allocated, Worked, RowRight;
    WorksOn(s.effects.fds, e);
    TheRow(m, s, e);
    RowOf(m, s, TraceStep(m, s, e), e, D.Step(s.effects.fds, e));
  }

  lemma RowOf(m: Mapping, s: State, g: State, e: Syscall, out: D.Outcome)
    requires SocketReads.ValidMapping(m) && SocketReads.Sane(s) && !e.instrumentation && g == TraceStep(m, s, e)
    requires out.socket == Worked(s.effects.fds, e)
    ensures var owners := SocketOwners(g.effects.sockets.owned, out.socket);
            RowRight(m, s, g.effects, e,
                     NewRow(m, e, Effective(e, out, ContextOf(s, e.stamp), owners), out.socket, owners))
  {
    SocketReads.TraceSane(m, s, e);
    NoZero(g, out.socket);
    hide TraceStep, ContextOf, Worked, RowIs, NewRow, Effective, SocketReads.ValidMapping, SocketReads.Sane;
    NewRowIs(m, e, ContextOf(s, e.stamp), out, SocketOwners(g.effects.sockets.owned, out.socket));
  }

  lemma NoZero(s: State, conn: Option<D.ConnId>)
    requires SocketReads.Sane(s)
    ensures 0 !in SocketOwners(s.effects.sockets.owned, conn)
            && (conn.None? ==> SocketOwners(s.effects.sockets.owned, conn) == {})
  {
  }

  lemma NewRowIs(m: Mapping, e: Syscall, c: Option<Ctx>, out: D.Outcome, owners: set<Context>)
    requires 0 !in owners && (out.socket.None? ==> owners == {}) && 0 !in m.owners
    ensures RowIs(m, c, out.socket, owners, e, NewRow(m, e, Effective(e, out, c, owners), out.socket, owners))
  {
    if |owners| == 1 { OnlyOne(owners); }
    hide Least;
  }

  lemma OnlyOne(s: set<Context>)
    requires |s| == 1
    ensures s == {Least(s)}
  {
    assert |s - {Least(s)}| == 0;
  }

  lemma TheRow(m: Mapping, s: State, e: Syscall)
    requires !e.instrumentation
    ensures var g := TraceStep(m, s, e);
            var out := D.Step(s.effects.fds, e);
            var c := ContextOf(s, e.stamp);
            var owners := SocketOwners(g.effects.sockets.owned, out.socket);
            g.effects.rows == s.effects.rows + [NewRow(m, e, Effective(e, out, c, owners), out.socket, owners)]
  {
    hide D.Step, OwnersAfter, SocketOwners, Effective, NewRow, TraceRecords, Inherited, ContextOf;
  }

  /** Over any trace: the row of every syscall is right. */
  lemma RowsMean(m: Mapping, graph: seq<Record>, lines: seq<Line>, i: nat)
    requires SocketReads.ValidMapping(m) && i < |lines| && lines[i].CallLine? && !lines[i].e.instrumentation
    ensures var s := After(m, graph, lines[..i]);
            var at := |s.effects.rows|;
            var rows := After(m, graph, lines).effects.rows;
            at < |rows| && RowRight(m, s, After(m, graph, lines[..i + 1]).effects, lines[i].e, rows[at])
  {
    hide TraceStep, RowRight, After, SocketReads.Sane, SocketReads.ValidMapping, SocketReads.AllFit, Allocated;
    RunAllocated(m, graph, lines[..i]);
    SocketReads.RunFit(m, graph, lines[..i]);
    AfterPrefix(m, graph, lines, i);
    CallRow(m, After(m, graph, lines[..i]), lines[i].e);
    RowsKept(m, graph, lines, i + 1);
  }

  // ----- the graph -------------------------------------------------------------------------------

  /** A fork that makes a new process. */
  predicate NewProcess(e: Syscall, child: Pid) {
    e.call.Clone? && !e.call.thread && e.ret.Some? && e.ret.value > 0 && e.ret.value == child
  }

  /** The node for what ran the call: the job, else the inherited process, else the operation, else the request. */
  function Runner(m: Mapping, row: Row, pid: Pid): NodeId {
    if row.origin == Some(IpcWorker) then IpcNode(row.job)
    else if row.origin == Some(ProcessInheritance) then ProcessNode(pid)
    else if row.operation != 0 then WorkNode(row.operation)
    else if row.context in m.roots then RequestNode(row.context)
    else JoinNode(row.context)
  }

  predicate NodeFor(m: Mapping, p: Context, x: NodeId) { x == if p in m.roots then RequestNode(p) else JoinNode(p) }

  /** What a syscall draws. */
  ghost predicate CallDraws(m: Mapping, s: State, g: State, e: Syscall, row: Row, r: Record) {
    var f := s.effects.fds;
    var call := SyscallNode(e.stamp.source);
    var accepts := e.call.Accept? && e.Returned() && Shown(f, e).Some?;
    match r
    case Node(SocketNode(conn)) => Worked(f, e) == Some(conn)
    case Node(ProcessNode(child)) => NewProcess(e, child)
    case Node(SyscallNode(source)) => source == e.stamp.source && (row.context != 0 || row.connection.Some?)
    case Node(_) => false
    case Edge(x, SocketNode(conn), AcceptedConnection) =>
      accepts && Made(f, e) == Some(conn) && x == SocketNode(Shown(f, e).value)
    case Edge(x, SocketNode(conn), Accepted) => accepts && Made(f, e) == Some(conn) && x == call
    case Edge(x, SocketNode(conn), Connected) =>
      Worked(f, e) == Some(conn) && exists p :: p in OwnersBy(s, g.effects, e) && NodeFor(m, p, x)
    case Edge(SocketNode(conn), y, SocketEffect) => e.Transfers() && Worked(f, e) == Some(conn) && y == call
    case Edge(x, ProcessNode(child), Spawned) =>
      NewProcess(e, child) && row.context != 0 && x == Runner(m, row, e.stamp.pid)
    case Edge(x, SyscallNode(source), Executed) =>
      && source == e.stamp.source && row.context != 0 && x == Runner(m, row, e.stamp.pid)
      && !Ran(s.effects.rows, source)
    case Edge(_, _, _) => false
  }

  /** What a marker draws. */
  predicate MarkerDraws(m: Mapping, s: State, at: Stamp, n: Marker, r: Record) {
    var c := ContextOf(s, at);
    var sends := n.kind.IpcSend? && n.job.Some? && n.job.value !in s.ipc.jobs;
    var cancels := n.kind.IpcCancel? && CanStart(s.ipc, n);
    var names := n.kind.Submit? && n.spanPoll && n.pointer !in s.works.spans;
    match r
    case Node(IpcNode(job)) => sends && job == n.job
    case Node(CancelNode(job)) => cancels && job == n.job
    case Node(WorkNode(op)) => n.kind.Submit? && op == n.operation
    case Node(TaskNode(span)) => names && span == n.pointer
    case Node(_) => false
    case Edge(x, IpcNode(job), IpcSent) =>
      && sends && job == n.job && n.request != 0
      && if c.Some? && c.value.origin.IpcWorker? then x == IpcNode(c.value.job) else NodeFor(m, n.request, x)
    case Edge(x, CancelNode(job), CancelledBeforeExecution) => cancels && job == n.job && x == IpcNode(n.job)
    case Edge(x, TaskNode(span), CreatedTask) =>
      names && span == n.pointer && n.request != 0 && NodeFor(m, n.request, x)
    case Edge(x, WorkNode(op), Polled) => n.kind.Submit? && n.spanPoll && op == n.operation && x == TaskNode(n.pointer)
    case Edge(x, WorkNode(op), Submitted) =>
      n.kind.Submit? && !n.spanPoll && op == n.operation && n.request != 0 && NodeFor(m, n.request, x)
    case Edge(_, _, _) => false
  }

  /** The job is sent, not begun and not over, under this very request. */
  predicate CanStart(ipc: Ipc, n: Marker) {
    && n.job.Some? && n.job.value in ipc.jobs
    && ipc.jobs[n.job.value] == Job(n.request, false, false, ipc.jobs[n.job.value].cancelled)
  }

  lemma SocketDraws(m: Mapping, k: Sockets, e: Syscall, out: D.Outcome, owners: set<Context>, r: Record)
    requires out.created.Some? ==> out.socket == out.created
    ensures r in SocketRecords(m, k, e, out, owners) <==>
            out.socket.Some? &&
            var conn := out.socket.value;
            || (out.listener.Some? && out.created.Some?
                && (r == Node(SocketNode(conn))
                    || r == Edge(SocketNode(out.listener.value), SocketNode(conn), AcceptedConnection)
                    || r == Edge(SyscallNode(e.stamp.source), SocketNode(conn), Accepted)))
            || (conn !in k.drawn && r == Node(SocketNode(conn)))
            || NewOwnerEdge(m, k, owners, conn, r)
            || (e.Transfers() && r == Edge(SocketNode(conn), SyscallNode(e.stamp.source), SocketEffect))
  {
    if out.socket.Some? {
      var conn := out.socket.value;
      OwnerEdges(m, k, owners, conn, r);
      hide ConnectedEdges, Undrawn, NewOwnerEdge;
    }
  }

  ghost predicate NewOwnerEdge(m: Mapping, k: Sockets, owners: set<Context>, conn: D.ConnId, r: Record) {
    exists p :: p in owners && (p, conn) !in k.edges && r == Edge(ContextNode(m, p), SocketNode(conn), Connected)
  }

  lemma OwnerEdges(m: Mapping, k: Sockets, owners: set<Context>, conn: D.ConnId, r: Record)
    ensures r in ConnectedEdges(m, Undrawn(k, owners, conn), conn) <==> NewOwnerEdge(m, k, owners, conn, r)
  {
    OwnershipEdges.EdgeMembers(m, Undrawn(k, owners, conn), conn);
    if r in ConnectedEdges(m, Undrawn(k, owners, conn), conn) {
      var p :| p in Undrawn(k, owners, conn) && r == OwnershipEdges.Owns(m, p, conn);
      assert p in owners && (p, conn) !in k.edges;
    }
    if p :| p in owners && (p, conn) !in k.edges && r == Edge(ContextNode(m, p), SocketNode(conn), Connected) {
      assert p in Undrawn(k, owners, conn) && r == OwnershipEdges.Owns(m, p, conn);
    }
  }

  /** What is noted as drawn is drawn, and the calls noted as executed are those with a request. */
  ghost predicate Noted(m: Mapping, s: State) {
    && (forall conn :: conn in s.effects.sockets.drawn ==> Node(SocketNode(conn)) in s.graph)
    && (forall p, conn :: (p, conn) in s.effects.sockets.edges ==>
          Edge(ContextNode(m, p), SocketNode(conn), Connected) in s.graph)
    && (forall source :: source in s.effects.executed <==>
          Ran(s.effects.rows, source))
  }

  lemma SpawnDraws(m: Mapping, e: Syscall, c: Option<Ctx>, socket: Option<D.ConnId>, owners: set<Context>, r: Record)
    ensures var row := NewRow(m, e, c, socket, owners);
            r in SpawnRecords(m, e, c) <==>
            Forks(e) && (r == Node(ProcessNode(e.ret.value))
                         || (row.context != 0
                             && r == Edge(Runner(m, row, e.stamp.pid), ProcessNode(e.ret.value), Spawned)))
  {
  }

  lemma OwnDraws(m: Mapping, executed: set<Source>, e: Syscall, c: Option<Ctx>, socket: Option<D.ConnId>,
                 owners: set<Context>, r: Record)
    ensures var row := NewRow(m, e, c, socket, owners);
            r in RowRecords(m, executed, row, c) <==>
            || ((row.context != 0 || row.connection.Some?) && r == Node(SyscallNode(e.stamp.source)))
            || (row.context != 0 && e.stamp.source !in executed
                && r == Edge(Runner(m, row, e.stamp.pid), SyscallNode(e.stamp.source), Executed))
  {
  }

  /** The parts of a call, as the reading has them. */
  lemma CallParts(m: Mapping, s: State, e: Syscall)
    requires !e.instrumentation
    ensures var g, x := TraceStep(m, s, e), Read(m, s, e);
            && g.graph == s.graph + TraceRecords(m, s, e, x)
            && x.out == D.Step(s.effects.fds, e) && x.owned == g.effects.sockets.owned
            && x.owners == SocketOwners(g.effects.sockets.owned, x.out.socket)
            && x.row == NewRow(m, e, x.ctx, x.out.socket, x.owners)
            && g.effects.rows == s.effects.rows + [x.row]
            && g.effects.executed == s.effects.executed + (if x.row.context != 0 then {e.stamp.source} else {})
            && g.effects.sockets.drawn ==
               s.effects.sockets.drawn + (if x.out.socket.Some? then {x.out.socket.value} else {})
            && g.effects.sockets.edges ==
               s.effects.sockets.edges
               + (if x.out.socket.Some? then set p | p in x.owners :: (p, x.out.socket.value) else {})
  {
    hide D.Step, OwnersAfter, SocketOwners, Effective, NewRow, TraceRecords, Inherited, ContextOf;
  }

  /** A syscall adds to the graph exactly what it draws. */
  lemma CallGraph(m: Mapping, s: State, e: Syscall, r: Record)
    requires Allocated(s.effects.fds) && Noted(m, s) && !e.instrumentation
    ensures var g := TraceStep(m, s, e);
            && |g.effects.rows| > |s.effects.rows|
            && (r in g.graph <==> r in s.graph || CallDraws(m, s, g, e, g.effects.rows[|s.effects.rows|], r))
  {
    CallParts(m, s, e);
    WorksOn(s.effects.fds, e);
    SocketReads.StepSockets(s.effects.fds, e);
    var x := Read(m, s, e);
    SocketDraws(m, s.effects.sockets, e, x.out, x.owners, r);
    SpawnDraws(m, e, x.ctx, x.out.socket, x.owners, r);
    OwnDraws(m, s.effects.executed, e, x.ctx, x.out.socket, x.owners, r);
    if r.Node? { NodesDrawn(m, s, TraceStep(m, s, e), e, x, r); } else {
      EdgesDrawn(m, s, TraceStep(m, s, e), e, x, r);
    }
    hide D.Step, TraceStep, Read, NewRow, SocketRecords, SpawnRecords, RowRecords, Allocated, Worked, Made, Shown,
      CallDraws,
      Noted;
  }

  /** The records of one reading, before looking at what was drawn already. */
  ghost predicate ReadingDraws(m: Mapping, s: State, e: Syscall, x: Reading, r: Record) {
    || (x.out.socket.Some? &&
        var conn := x.out.socket.value;
        || (x.out.listener.Some? && x.out.created.Some?
            && (r == Node(SocketNode(conn))
                || r == Edge(SocketNode(x.out.listener.value), SocketNode(conn), AcceptedConnection)
                || r == Edge(SyscallNode(e.stamp.source), SocketNode(conn), Accepted)))
        || (conn !in s.effects.sockets.drawn && r == Node(SocketNode(conn)))
        || NewOwnerEdge(m, s.effects.sockets, x.owners, conn, r)
        || (e.Transfers() && r == Edge(SocketNode(conn), SyscallNode(e.stamp.source), SocketEffect)))
    || (Forks(e) && (r == Node(ProcessNode(e.ret.value))
                     || (x.row.context != 0
                         && r == Edge(Runner(m, x.row, e.stamp.pid), ProcessNode(e.ret.value), Spawned))))
    || ((x.row.context != 0 || x.row.connection.Some?) && r == Node(SyscallNode(e.stamp.source)))
    || (x.row.context != 0 && e.stamp.source !in s.effects.executed
        && r == Edge(Runner(m, x.row, e.stamp.pid), SyscallNode(e.stamp.source), Executed))
  }

  predicate Of(s: State, g: State, e: Syscall, x: Reading) {
    && x.out.socket == Worked(s.effects.fds, e) && x.out.created == Made(s.effects.fds, e)
    && x.out.listener == (if e.call.Accept? && e.Returned() then Shown(s.effects.fds, e) else None)
    && x.owners == SocketOwners(g.effects.sockets.owned, x.out.socket)
  }

  /** Drawing what is already drawn changes nothing. */
  lemma NodesDrawn(m: Mapping, s: State, g: State, e: Syscall, x: Reading, r: Record)
    requires Noted(m, s) && Of(s, g, e, x) && r.Node?
    ensures r in s.graph || CallDraws(m, s, g, e, x.row, r) <==> r in s.graph || ReadingDraws(m, s, e, x, r)
  {
    hide Shown, Runner, OwnersBy, NewOwnerEdge;
    if x.out.socket.Some? { OtherRecord(m, s.effects.sockets, x.owners, x.out.socket.value, r); }
  }

  lemma EdgesDrawn(m: Mapping, s: State, g: State, e: Syscall, x: Reading, r: Record)
    requires Noted(m, s) && Of(s, g, e, x) && r.Edge?
    ensures r in s.graph || CallDraws(m, s, g, e, x.row, r) <==> r in s.graph || ReadingDraws(m, s, e, x, r)
  {
    hide CallDraws, ReadingDraws, Of, Noted;
    if r.kind.Connected? { ConnectedDrawn(m, s, g, e, x, r); } else { OthersDrawn(m, s, g, e, x, r); }
  }

  lemma ConnectedDrawn(m: Mapping, s: State, g: State, e: Syscall, x: Reading, r: Record)
    requires Noted(m, s) && Of(s, g, e, x) && r.Edge? && r.kind.Connected?
    ensures r in s.graph || CallDraws(m, s, g, e, x.row, r) <==> r in s.graph || ReadingDraws(m, s, e, x, r)
  {
    hide Shown, Made, Runner, NewOwnerEdge, OwnersBy, Noted, Worked, SocketOwners;
    if r.target.SocketNode? && Worked(s.effects.fds, e) == Some(r.target.conn) {
      OwnersOnce(m, s, g, e, x.owners, r);
    } else if x.out.socket.Some? {
      OtherRecord(m, s.effects.sockets, x.owners, x.out.socket.value, r);
    }
  }

  lemma OthersDrawn(m: Mapping, s: State, g: State, e: Syscall, x: Reading, r: Record)
    requires Noted(m, s) && Of(s, g, e, x) && r.Edge? && !r.kind.Connected?
    ensures r in s.graph || CallDraws(m, s, g, e, x.row, r) <==> r in s.graph || ReadingDraws(m, s, e, x, r)
  {
    hide Shown, Made, Runner, NewOwnerEdge, OwnersBy, Noted, Worked, SocketOwners;
    Once(m, s, e);
    MadeIsWorked(s.effects.fds, e);
    if x.out.socket.Some? { OtherRecord(m, s.effects.sockets, x.owners, x.out.socket.value, r); }
  }

  lemma MadeIsWorked(f: D.FdState, e: Syscall)
    ensures Made(f, e).Some? ==> Worked(f, e) == Made(f, e)
    ensures e.call.Accept? && e.Returned() ==> Made(f, e).Some?
  {
  }

  lemma Once(m: Mapping, s: State, e: Syscall)
    requires Noted(m, s)
    ensures e.stamp.source in s.effects.executed <==>
            Ran(s.effects.rows, e.stamp.source)
  {
  }

  lemma OwnersOnce(m: Mapping, s: State, g: State, e: Syscall, owners: set<Context>, r: Record)
    requires Noted(m, s) && r.Edge? && r.kind.Connected? && r.target.SocketNode?
    requires owners == SocketOwners(g.effects.sockets.owned, Worked(s.effects.fds, e))
    requires Worked(s.effects.fds, e) == Some(r.target.conn)
    ensures r in s.graph || (exists p :: p in OwnersBy(s, g.effects, e) && NodeFor(m, p, r.source)) <==>
            r in s.graph || NewOwnerEdge(m, s.effects.sockets, owners, r.target.conn, r)
  {
    var conn := r.target.conn;
    assert owners == OwnersBy(s, g.effects, e);
    if p :| p in owners && NodeFor(m, p, r.source) {
      if (p, conn) in s.effects.sockets.edges {
        assert Edge(ContextNode(m, p), SocketNode(conn), Connected) in s.graph;
      } else {
        assert r == Edge(ContextNode(m, p), SocketNode(conn), Connected);
      }
    }
    if NewOwnerEdge(m, s.effects.sockets, owners, conn, r) {
      var p :| p in owners && r == Edge(ContextNode(m, p), SocketNode(conn), Connected);
      assert NodeFor(m, p, r.source);
    }
  }

  lemma OtherRecord(m: Mapping, k: Sockets, owners: set<Context>, conn: D.ConnId, r: Record)
    requires !(r.Edge? && r.kind.Connected? && r.target == SocketNode(conn))
    ensures !NewOwnerEdge(m, k, owners, conn, r)
  {
  }

  // ----- markers ---------------------------------------------------------------------------------

  /** What a marker does wrong. */
  predicate Faults(m: Mapping, s: State, at: Stamp, n: Marker, x: Error) {
    var w := s.works;
    match x
    case UnknownContext(c) => c == n.request && c != 0 && c !in m.owners
    case SenderMismatch(job) =>
      n.kind.IpcSend? && job == n.job && (ContextOf(s, at).None? || ContextOf(s, at).value.request != n.request)
    case InvalidJob(job) => n.kind.IpcSend? && job == n.job && (n.job.None? || n.job.value in s.ipc.jobs)
    case InvalidCancellation(job) => n.kind.IpcCancel? && job == n.job && !CanStart(s.ipc, n)
    case InvalidEntry(job) => n.kind.IpcEnter? && job == n.job && (!CanStart(s.ipc, n) || at.tid in s.ipc.running)
    case InvalidLeave(job) => n.kind.IpcLeave? && job == n.job && !CanLeave(s, at, n)
    case DuplicateOperation(op) => n.kind.Submit? && op == n.operation && op in w.operations
    case SpanChanged(span) =>
      n.kind.Submit? && n.spanPoll && span == n.pointer && span in w.spans && w.spans[span] != n.request
    case InvalidWorkEntry(op) =>
      && n.kind.WorkEnter? && op == n.operation
      && (op !in w.operations || w.operations[op].request != n.request || w.operations[op].started)
    case LeaveWithoutEnter(tid) => n.kind.WorkLeave? && tid == at.tid && (tid !in w.active || w.active[tid] == [])
    case InvalidCompletion(op) =>
      && n.kind.Complete? && op == n.operation
      && (op !in w.operations || w.operations[op].request != n.request || w.operations[op].completed)
    case RuntimeFailure(kind) => (n.kind.InvariantFailure? || n.kind.DuplicateWork?) && kind == n.kind
    case TransitionInsideJob(job) =>
      && (n.kind.JsContext? || n.kind.WorkEnter? || n.kind.WorkLeave? || n.kind.DoneEnter? || n.kind.DoneLeave?)
      && at.tid in s.ipc.running && job == Some(s.ipc.running[at.tid])
    case _ => false
  }

  /** The thread runs this job, under this very request. */
  predicate CanLeave(s: State, at: Stamp, n: Marker) {
    && n.job.Some? && n.job.value in s.ipc.jobs
    && at.tid in s.ipc.running && s.ipc.running[at.tid] == n.job.value
    && at.tid in s.threads && s.threads[at.tid].request == n.request
  }

  /** What a marker leaves a thread with. */
  predicate ThreadRight(s: State, g: State, at: Stamp, n: Marker) {
    match n.kind
    case IpcEnter => g.threads == s.threads[at.tid := Ctx(n.request, 0, IpcWorker, n.job, Observed(at.source))]
    case IpcLeave => g.threads == s.threads[at.tid := Ctx(0, 0, AsyncContext, None, Observed(at.source))]
    case WorkEnter => g.threads == s.threads[at.tid := Ctx(n.request, n.operation, Worker, None, Observed(at.source))]
    case DoneEnter =>
      g.threads == s.threads[at.tid := Ctx(n.request, n.operation, Completion, None, Observed(at.source))]
    case JsContext =>
      g.threads == s.threads[at.tid := Ctx(n.request, n.operation, AsyncContext, None, Observed(at.source))]
    case WorkLeave =>
      g.threads == s.threads[at.tid := Ctx(n.request, n.operation, AsyncContext, None, Observed(at.source))]
    case DoneLeave =>
      g.threads == s.threads[at.tid := Ctx(n.request, n.operation, AsyncContext, None, Observed(at.source))]
    case _ => g.threads == s.threads
  }

  /** What a marker does to the jobs. */
  predicate JobsRight(s: State, g: State, at: Stamp, n: Marker) {
    var jobs := s.ipc.jobs;
    match n.kind
    case IpcSend =>
      && g.ipc.running == s.ipc.running
      && g.ipc.jobs ==
           if n.job.Some? && n.job.value !in jobs then jobs[n.job.value := Job(n.request, false, false, false)]
             else jobs
    case IpcCancel =>
      && g.ipc.running == s.ipc.running
      && g.ipc.jobs == if CanStart(s.ipc, n) then jobs[n.job.value := Job(n.request, false, true, true)] else jobs
    case IpcEnter =>
      if CanStart(s.ipc, n) && at.tid !in s.ipc.running then
        && g.ipc.running == s.ipc.running[at.tid := n.job.value]
        && g.ipc.jobs == jobs[n.job.value := Job(n.request, true, false, jobs[n.job.value].cancelled)]
      else g.ipc == s.ipc
    case IpcLeave =>
      if CanLeave(s, at, n) then
        var job := jobs[n.job.value];
        && g.ipc.running == s.ipc.running - {at.tid}
        && g.ipc.jobs == jobs[n.job.value := Job(job.request, job.started, true, job.cancelled)]
      else g.ipc == s.ipc
    case _ => g.ipc == s.ipc
  }

  /** What a marker does to the operations, to the running work of its thread and to the spans. */
  predicate WorkRight(s: State, g: State, at: Stamp, n: Marker) {
    var w := s.works;
    var known := n.operation in w.operations && w.operations[n.operation].request == n.request;
    match n.kind
    case Submit =>
      && g.works.operations == w.operations[n.operation := Work(n.request, false, false, false, None)]
      && g.works.active == w.active
      && g.works.spans == if n.spanPoll && n.pointer !in w.spans then w.spans[n.pointer := n.request] else w.spans
    case WorkEnter =>
      && g.works.spans == w.spans
      && g.works.active == w.active[at.tid := (if at.tid in w.active then w.active[at.tid] else []) + [n.operation]]
      && if known && !w.operations[n.operation].started then
           var op := w.operations[n.operation];
           g.works.operations ==
             w.operations[n.operation := Work(op.request, true, op.finished, op.completed, op.status)]
         else g.works.operations == w.operations
    case WorkLeave =>
      if at.tid in w.active && w.active[at.tid] != [] then
        var stack := w.active[at.tid];
        var top := stack[|stack| - 1];
        && g.works.spans == w.spans && g.works.active == w.active[at.tid := stack[..|stack| - 1]]
        && if top in w.operations then
             var op := w.operations[top];
             g.works.operations == w.operations[top := Work(op.request, op.started, true, op.completed, op.status)]
           else g.works.operations == w.operations
      else g.works == w
    case Complete =>
      && g.works.spans == w.spans && g.works.active == w.active
      && if known && !w.operations[n.operation].completed then
           var op := w.operations[n.operation];
           g.works.operations ==
             w.operations[n.operation := Work(op.request, op.started, op.finished, true, Some(n.status))]
         else g.works.operations == w.operations
    case _ => g.works == w
  }

  /** The faults a marker has of its own: not its request, not where it comes. */
  predicate OwnFault(x: Error) { !x.UnknownContext? && !x.TransitionInsideJob? }

  /** Exactly the marker's own faults are added, and exactly what it draws. */
  ghost predicate Marked(m: Mapping, s: State, at: Stamp, n: Marker, g: State) {
    && g.effects == s.effects && JobsRight(s, g, at, n) && WorkRight(s, g, at, n)
    && (if n.kind.IpcEnter? || n.kind.IpcLeave? then ThreadRight(s, g, at, n) else g.threads == s.threads)
    && s.errors <= g.errors
    && (forall x :: x in g.errors[|s.errors|..] <==> OwnFault(x) && Faults(m, s, at, n, x))
    && (forall r :: r in g.graph <==> r in s.graph || MarkerDraws(m, s, at, n, r))
  }

  lemma SentDraws(m: Mapping, s: State, at: Stamp, n: Marker)
    requires n.kind.IpcSend?
    ensures forall r :: MarkerDraws(m, s, at, n, r) <==>
              n.job.Some? && n.job.value !in s.ipc.jobs && r in SendRecords(m, ContextOf(s, at), n)
  {
    hide ContextOf;
  }

  /** The faults of a send: not the sender's request, and not a new job. */
  function SendFaults(s: State, at: Stamp, n: Marker): seq<Error> {
    var c := ContextOf(s, at);
    (if c.None? || c.value.request != n.request then [SenderMismatch(n.job)] else [])
    + if n.job.None? || n.job.value in s.ipc.jobs then [InvalidJob(n.job)] else []
  }

  lemma SentFaults(m: Mapping, s: State, at: Stamp, n: Marker)
    requires n.kind.IpcSend?
    ensures forall x :: x in SendFaults(s, at, n) <==> OwnFault(x) && Faults(m, s, at, n, x)
  {
    hide ContextOf, CanStart, CanLeave;
  }

  lemma SentErrors(m: Mapping, s: State, at: Stamp, n: Marker)
    ensures OnIpcSend(m, s, at, n).errors == s.errors + SendFaults(s, at, n)
    ensures OnIpcSend(m, s, at, n).errors[|s.errors|..] == SendFaults(s, at, n)
  {
    hide ContextOf, SendRecords, PutJob;
    assert OnIpcSend(m, s, at, n).errors == s.errors + SendFaults(s, at, n);
  }

  lemma SendMarked(m: Mapping, s: State, at: Stamp, n: Marker)
    requires n.kind.IpcSend?
    ensures Marked(m, s, at, n, OnIpcSend(m, s, at, n))
  {
    SentDraws(m, s, at, n);
    SentFaults(m, s, at, n);
    SentErrors(m, s, at, n);
    SentJobs(m, s, at, n);
    hide ContextOf, SendRecords, SendFaults, MarkerDraws, Faults, OnIpcSend, JobsRight, WorkRight;
  }

  lemma SentJobs(m: Mapping, s: State, at: Stamp, n: Marker)
    requires n.kind.IpcSend?
    ensures var g := OnIpcSend(m, s, at, n);
            && g.effects == s.effects && JobsRight(s, g, at, n) && WorkRight(s, g, at, n) && g.threads == s.threads
            && g.graph == s.graph
                 + if n.job.Some? && n.job.value !in s.ipc.jobs then SendRecords(m, ContextOf(s, at), n) else []
  {
    hide ContextOf, SendRecords;
  }

  lemma CancelMarked(m: Mapping, s: State, at: Stamp, n: Marker)
    requires n.kind.IpcCancel?
    ensures Marked(m, s, at, n, OnIpcCancel(s, n))
  {
  }

  lemma EnterJobMarked(m: Mapping, s: State, at: Stamp, n: Marker)
    requires n.kind.IpcEnter?
    ensures Marked(m, s, at, n, OnIpcEnter(s, at, n))
  {
    hide ContextOf, MarkerDraws;
    NothingDrawn(m, s, at, n);
  }

  lemma LeaveJobMarked(m: Mapping, s: State, at: Stamp, n: Marker)
    requires n.kind.IpcLeave?
    ensures Marked(m, s, at, n, OnIpcLeave(s, at, n))
  {
    hide ContextOf, MarkerDraws;
    NothingDrawn(m, s, at, n);
  }

  lemma SubmittedDraws(m: Mapping, s: State, at: Stamp, n: Marker)
    requires n.kind.Submit?
    ensures forall r :: MarkerDraws(m, s, at, n, r) <==> r in SubmitRecords(m, s.works, n)
  {
    hide ContextOf;
  }

  lemma SubmittedFaults(m: Mapping, s: State, at: Stamp, n: Marker)
    requires n.kind.Submit?
    ensures forall x :: x in SubmitErrors(s.works, n) <==> OwnFault(x) && Faults(m, s, at, n, x)
  {
    hide ContextOf;
  }

  lemma SubmitMarked(m: Mapping, s: State, at: Stamp, n: Marker)
    requires n.kind.Submit?
    ensures Marked(m, s, at, n, OnSubmit(m, s, n))
  {
    hide ContextOf, SubmitRecords, SubmitErrors, MarkerDraws, Faults;
    SubmittedDraws(m, s, at, n);
    SubmittedFaults(m, s, at, n);
    assert OnSubmit(m, s, n).errors[|s.errors|..] == SubmitErrors(s.works, n);
  }

  lemma EnterWorkMarked(m: Mapping, s: State, at: Stamp, n: Marker)
    requires n.kind.WorkEnter?
    ensures Marked(m, s, at, n, OnWorkEnter(s, at, n))
  {
    hide ContextOf, MarkerDraws;
    NothingDrawn(m, s, at, n);
  }

  lemma LeaveWorkMarked(m: Mapping, s: State, at: Stamp, n: Marker)
    requires n.kind.WorkLeave?
    ensures Marked(m, s, at, n, OnWorkLeave(s, at))
  {
    hide ContextOf, MarkerDraws;
    NothingDrawn(m, s, at, n);
  }

  lemma CompletionMarked(m: Mapping, s: State, at: Stamp, n: Marker)
    requires n.kind.Complete?
    ensures Marked(m, s, at, n, OnComplete(s, n))
  {
    hide ContextOf, MarkerDraws;
    NothingDrawn(m, s, at, n);
  }

  lemma NothingDrawn(m: Mapping, s: State, at: Stamp, n: Marker)
    requires !n.kind.IpcSend? && !n.kind.IpcCancel? && !n.kind.Submit?
    ensures forall r :: !MarkerDraws(m, s, at, n, r)
  {
    hide ContextOf;
  }

  lemma RestMarked(m: Mapping, s: State, at: Stamp, n: Marker)
    requires n.kind.InvariantFailure? || n.kind.DuplicateWork? || n.kind.JsContext? || n.kind.DoneEnter?
             || n.kind.DoneLeave?
             || n.kind.Install? || n.kind.InstallQueue?
    ensures Marked(m, s, at, n, Dispatch(m, s, at, n))
  {
    hide ContextOf, MarkerDraws;
    NothingDrawn(m, s, at, n);
  }

  lemma Dispatched(m: Mapping, s: State, at: Stamp, n: Marker)
    ensures Marked(m, s, at, n, Dispatch(m, s, at, n))
  {
    hide Marked, OnIpcSend, OnIpcCancel, OnIpcEnter, OnIpcLeave, OnSubmit, OnWorkEnter, OnWorkLeave, OnComplete;
    match n.kind
    case IpcSend => SendMarked(m, s, at, n);
    case IpcCancel => CancelMarked(m, s, at, n);
    case IpcEnter => EnterJobMarked(m, s, at, n);
    case IpcLeave => LeaveJobMarked(m, s, at, n);
    case Submit => SubmitMarked(m, s, at, n);
    case WorkEnter => EnterWorkMarked(m, s, at, n);
    case WorkLeave => LeaveWorkMarked(m, s, at, n);
    case Complete => CompletionMarked(m, s, at, n);
    case _ => RestMarked(m, s, at, n);
  }

  /** Everything a marker does: to its thread, to the jobs, operations and spans, to the graph, and the faults it
      is charged with. */
  ghost predicate MarkerRight(m: Mapping, s: State, at: Stamp, n: Marker, g: State) {
    && g.effects == s.effects && JobsRight(s, g, at, n) && WorkRight(s, g, at, n) && ThreadRight(s, g, at, n)
    && s.errors <= g.errors
    && (forall x :: x in g.errors[|s.errors|..] <==> Faults(m, s, at, n, x))
    && (forall r :: r in g.graph <==> r in s.graph || MarkerDraws(m, s, at, n, r))
  }

  /** An earlier fault changes nothing of what the marker does. */
  lemma FaultsAside(m: Mapping, s: State, fault: Error, at: Stamp, n: Marker, g: State)
    requires Marked(m, Fail(s, fault), at, n, g)
    ensures g.effects == s.effects && JobsRight(s, g, at, n) && WorkRight(s, g, at, n)
    ensures if n.kind.IpcEnter? || n.kind.IpcLeave? then ThreadRight(s, g, at, n) else g.threads == s.threads
    ensures s.errors + [fault] <= g.errors
    ensures forall x :: x in g.errors[|s.errors|..] <==> x == fault || (OwnFault(x) && Faults(m, s, at, n, x))
    ensures forall r :: r in g.graph <==> r in s.graph || MarkerDraws(m, s, at, n, r)
  {
    var f := Fail(s, fault);
    assert ContextOf(f, at) == ContextOf(s, at);
    assert g.errors[|s.errors|..] == [fault] + g.errors[|s.errors| + 1..];
    forall x ensures Faults(m, f, at, n, x) <==> Faults(m, s, at, n, x) {}
    forall r ensures MarkerDraws(m, f, at, n, r) <==> MarkerDraws(m, s, at, n, r) {}
    hide Faults, MarkerDraws, ContextOf;
  }

  predicate Switches(kind: Kind) {
    kind.JsContext? || kind.WorkEnter? || kind.WorkLeave? || kind.DoneEnter? || kind.DoneLeave?
  }

  lemma Switched(m: Mapping, s: State, at: Stamp, n: Marker)
    requires Switches(n.kind)
    ensures var g := OnTransition(s, at, n);
            && g.ipc == s.ipc && g.works == s.works && g.effects == s.effects && g.graph == s.graph
            && ThreadRight(s, g, at, n)
            && g.errors == s.errors
                 + if at.tid in s.ipc.running then [TransitionInsideJob(Some(s.ipc.running[at.tid]))] else []
  {
  }

  lemma MarkerMeans(m: Mapping, s: State, at: Stamp, n: Marker)
    ensures MarkerRight(m, s, at, n, MarkerStep(m, s, at, n))
  {
    var unknown := UnknownContext(n.request);
    var s1 := if n.request != 0 && n.request !in m.owners then Fail(s, unknown) else s;
    Dispatched(m, s1, at, n);
    var g := Dispatch(m, s1, at, n);
    if s1 != s { FaultsAside(m, s, unknown, at, n, g); }
    if Switches(n.kind) { Switched(m, g, at, n); }
    MarkerSum(m, s, at, n, g);
    hide *;
  }

  /** From what the marker's own step did to everything. */
  lemma MarkerSum(m: Mapping, s: State, at: Stamp, n: Marker, g: State)
    requires g ==
             Dispatch(m, if n.request != 0 && n.request !in m.owners then Fail(s, UnknownContext(n.request))
                      else s, at, n)
    requires g.effects == s.effects && JobsRight(s, g, at, n) && WorkRight(s, g, at, n)
    requires if n.kind.IpcEnter? || n.kind.IpcLeave? then ThreadRight(s, g, at, n) else g.threads == s.threads
    requires s.errors <= g.errors
    requires forall x :: x in g.errors[|s.errors|..] <==>
               (x == UnknownContext(n.request) && n.request != 0 && n.request !in m.owners)
               || (OwnFault(x) && Faults(m, s, at, n, x))
    requires forall r :: r in g.graph <==> r in s.graph || MarkerDraws(m, s, at, n, r)
    ensures MarkerRight(m, s, at, n, MarkerStep(m, s, at, n))
  {
    hide Dispatch, MarkerDraws;
    var h := MarkerStep(m, s, at, n);
    if Switches(n.kind) {
      Switched(m, g, at, n);
      var more := if at.tid in g.ipc.running then [TransitionInsideJob(Some(g.ipc.running[at.tid]))] else [];
      assert h.errors[|s.errors|..] == g.errors[|s.errors|..] + more;
    }
  }

  // ----- the graph of a whole trace ------------------------------------------------------------------

  /** What the j-th line draws. */
  ghost predicate LineDraws(m: Mapping, graph: seq<Record>, lines: seq<Line>, j: nat, r: Record) {
    && j < |lines|
    && var s := After(m, graph, lines[..j]);
       var g := After(m, graph, lines[..j + 1]);
       match lines[j]
       case MarkerLine(at, n) => MarkerDraws(m, s, at, n, r)
       case CallLine(e) =>
         !e.instrumentation && |g.effects.rows| > |s.effects.rows|
           && CallDraws(m, s, g, e, g.effects.rows[|s.effects.rows|], r)
  }

  lemma CallNoted(m: Mapping, s: State, e: Syscall)
    requires Allocated(s.effects.fds) && Noted(m, s)
    ensures Noted(m, TraceStep(m, s, e))
  {
    hide TraceStep, Read, D.Step, TraceRecords, NewRow, Allocated, Worked, Made, Shown, Noted, CallDraws;
    if e.instrumentation {
      SocketReads.TraceIgnored(m, s, e);
    } else {
      CallParts(m, s, e);
      var g, x := TraceStep(m, s, e), Read(m, s, e);
      if x.out.socket.Some? { SocketNoted(m, s, e, x.out.socket.value); }
      RowPlace(m, e, x.ctx, x.out.socket, x.owners);
      NotedFrom(m, s, g, x, e.stamp.source);
    }
  }

  lemma RowPlace(m: Mapping, e: Syscall, c: Option<Ctx>, socket: Option<D.ConnId>, owners: set<Context>)
    ensures NewRow(m, e, c, socket, owners).stamp == e.stamp
  {
  }

  lemma SocketNoted(m: Mapping, s: State, e: Syscall, conn: D.ConnId)
    requires Allocated(s.effects.fds) && Noted(m, s) && !e.instrumentation && Read(m, s, e).out.socket == Some(conn)
    ensures Node(SocketNode(conn)) in TraceStep(m, s, e).graph
    ensures forall p :: p in Read(m, s, e).owners ==>
              Edge(ContextNode(m, p), SocketNode(conn), Connected) in TraceStep(m, s, e).graph
  {
    hide TraceStep, Read, D.Step, TraceRecords, NewRow, Allocated, Made, Shown, Noted, Worked;
    CallParts(m, s, e);
    WorksOn(s.effects.fds, e);
    CallGraph(m, s, e, Node(SocketNode(conn)));
    forall p | p in Read(m, s, e).owners
      ensures Edge(ContextNode(m, p), SocketNode(conn), Connected) in TraceStep(m, s, e).graph
    {
      assert NodeFor(m, p, ContextNode(m, p)) && p in OwnersBy(s, TraceStep(m, s, e).effects, e);
      CallGraph(m, s, e, Edge(ContextNode(m, p), SocketNode(conn), Connected));
    }
  }

  lemma NotedFrom(m: Mapping, s: State, g: State, x: Reading, here: Source)
    requires Noted(m, s) && s.graph <= g.graph
    requires g.effects.rows == s.effects.rows + [x.row] && x.row.stamp.source == here
    requires g.effects.executed == s.effects.executed + (if x.row.context != 0 then {here} else {})
    requires g.effects.sockets.drawn ==
             s.effects.sockets.drawn + (if x.out.socket.Some? then {x.out.socket.value} else {})
    requires g.effects.sockets.edges ==
             s.effects.sockets.edges
             + (if x.out.socket.Some? then set p | p in x.owners :: (p, x.out.socket.value) else {})
    requires x.out.socket.Some? ==> Node(SocketNode(x.out.socket.value)) in g.graph
    requires x.out.socket.Some? ==>
               forall p :: p in x.owners ==>
                 Edge(ContextNode(m, p), SocketNode(x.out.socket.value), Connected) in g.graph
    ensures Noted(m, g)
  {
    ExecutedNoted(s, g, x.row, here);
  }

  lemma ExecutedNoted(s: State, g: State, row: Row, here: Source)
    requires g.effects.rows == s.effects.rows + [row] && row.stamp.source == here
    requires g.effects.executed == s.effects.executed + (if row.context != 0 then {here} else {})
    requires forall source :: source in s.effects.executed <==> Ran(s.effects.rows, source)
    ensures forall source :: source in g.effects.executed <==> Ran(g.effects.rows, source)
  {
    forall source
      ensures Ran(g.effects.rows, source) <==> Ran(s.effects.rows, source) || (row.context != 0 && source == here) {
      if i :| 0 <= i < |s.effects.rows| && s.effects.rows[i].stamp.source == source && s.effects.rows[i].context != 0 {
        assert g.effects.rows[i] == s.effects.rows[i];
      }
      if row.context != 0 && source == here { assert g.effects.rows[|s.effects.rows|] == row; }
    }
  }

  /** Some call at this place ran under a request. */
  ghost predicate Ran(rows: seq<Row>, source: Source) {
    exists i :: 0 <= i < |rows| && rows[i].stamp.source == source && rows[i].context != 0
  }

  lemma MarkerNoted(m: Mapping, s: State, at: Stamp, n: Marker)
    requires Noted(m, s)
    ensures Noted(m, MarkerStep(m, s, at, n))
  {
    hide MarkerStep, MarkerDraws;
    MarkerMeans(m, s, at, n);
  }

  lemma {:induction false} RunNoted(m: Mapping, graph: seq<Record>, lines: seq<Line>)
    ensures Noted(m, After(m, graph, lines))
  {
    hide Noted, MarkerStep, TraceStep, Allocated;
    if lines == [] {
      NothingNoted(m, graph);
    } else {
      var front := lines[..|lines| - 1];
      RunNoted(m, graph, front);
      RunAllocated(m, graph, front);
      match lines[|lines| - 1]
      case MarkerLine(at, n) => MarkerNoted(m, After(m, graph, front), at, n);
      case CallLine(e) => CallNoted(m, After(m, graph, front), e);
    }
  }

  lemma NothingNoted(m: Mapping, graph: seq<Record>)
    ensures Noted(m, Initial(graph))
  {
  }

  lemma LineMeans(m: Mapping, graph: seq<Record>, lines: seq<Line>, r: Record)
    requires lines != []
    ensures var n := |lines| - 1;
            r in After(m, graph, lines).graph <==>
            r in After(m, graph, lines[..n]).graph || LineDraws(m, graph, lines, n, r)
  {
    hide MarkerStep, TraceStep, MarkerDraws, CallDraws, Noted, Allocated;
    var n := |lines| - 1;
    var s := After(m, graph, lines[..n]);
    assert lines[..n + 1] == lines;
    RunNoted(m, graph, lines[..n]);
    RunAllocated(m, graph, lines[..n]);
    match lines[n]
    case MarkerLine(at, note) => MarkerMeans(m, s, at, note);
    case CallLine(e) => if e.instrumentation { SocketReads.TraceIgnored(m, s, e); } else { CallGraph(m, s, e, r); }
  }

  lemma DrawnMore(m: Mapping, graph: seq<Record>, lines: seq<Line>, r: Record)
    requires lines != []
    ensures var n := |lines| - 1;
            (exists j :: LineDraws(m, graph, lines, j, r)) <==>
            (exists j :: LineDraws(m, graph, lines[..n], j, r)) || LineDraws(m, graph, lines, n, r)
  {
    hide After, MarkerDraws, CallDraws;
    var n := |lines| - 1;
    forall j: nat | j < n ensures LineDraws(m, graph, lines, j, r) <==> LineDraws(m, graph, lines[..n], j, r) {
      assert lines[..n][..j] == lines[..j] && lines[..n][..j + 1] == lines[..j + 1];
    }
    forall j: nat ensures LineDraws(m, graph, lines, j, r) ==> j < n || j == n {}
  }

  /** The graph of a trace holds the records of the request map and exactly what its lines draw. */
  lemma {:induction false} GraphMeans(m: Mapping, graph: seq<Record>, lines: seq<Line>, r: Record)
    ensures r in After(m, graph, lines).graph <==> r in graph || exists j :: LineDraws(m, graph, lines, j, r)
  {
    hide LineDraws;
    if lines == [] {
      NoLines(m, graph, r);
    } else {
      GraphMeans(m, graph, lines[..|lines| - 1], r);
      LineMeans(m, graph, lines, r);
      DrawnMore(m, graph, lines, r);
      hide After;
    }
  }

  lemma NoLines(m: Mapping, graph: seq<Record>, r: Record)
    ensures forall j :: !LineDraws(m, graph, [], j, r)
    ensures After(m, graph, []).graph == graph
  {
  }

  // ----- the end of a run ---------------------------------------------------------------------------

  /** What final validation complains of. */
  ghost predicate Complaint(s: State, x: Error) {
    var w := s.works;
    match x
    case NotBracketed(op) =>
      op in w.operations && w.operations[op].status == Some(0)
        && !(w.operations[op].started && w.operations[op].finished)
    case CancelledExecuted(op) =>
      op in w.operations && w.operations[op].status == Some(-125) && w.operations[op].started
    case UnfinishedJobs =>
      || (exists tid :: tid in s.ipc.running)
      || (exists job :: job in s.ipc.jobs && !s.ipc.jobs[job].finished)
    case UnclosedWork => exists tid :: tid in w.active && w.active[tid] != []
    case LackCompletion(count) => count > 0 && count == |set op | op in w.operations && !w.operations[op].completed|
    case _ => false
  }

  lemma FindingsMean(s: State, x: Error)
    ensures x in Findings(s) <==> Complaint(s, x)
  {
    hide Unended, Unclosed, BracketFindings, Findings;
    FindingsSum(s, x);
    BracketsMean(s.works.operations, x);
    EndsMean(s);
    assert Unfinished(s.works) == set op | op in s.works.operations && !s.works.operations[op].completed;
    hide Unfinished;
  }

  lemma FindingsSum(s: State, x: Error)
    ensures x in Findings(s) <==>
            || x in BracketFindings(s.works.operations)
            || (x.UnfinishedJobs? && Unended(s.ipc))
            || (x.UnclosedWork? && Unclosed(s.works))
            || (x.LackCompletion? && Unfinished(s.works) != {} && x.count == |Unfinished(s.works)|)
  {
    hide Unended, Unclosed, Unfinished, BracketFindings;
  }

  lemma BracketsMean(operations: map<OpId, Work>, x: Error)
    ensures x in BracketFindings(operations) <==>
            || (x.NotBracketed? && x.operation in operations && operations[x.operation].status == Some(0)
                && !(operations[x.operation].started && operations[x.operation].finished))
            || (x.CancelledExecuted? && x.operation in operations && operations[x.operation].status == Some(-125)
                && operations[x.operation].started)
  {
  }

  lemma EndsMean(s: State)
    ensures Unended(s.ipc) <==>
            || (exists tid :: tid in s.ipc.running)
            || (exists job :: job in s.ipc.jobs && !s.ipc.jobs[job].finished)
    ensures Unclosed(s.works) <==> exists tid :: tid in s.works.active && s.works.active[tid] != []
    ensures Unfinished(s.works) != {} <==> |Unfinished(s.works)| > 0
  {
    if forall tid :: tid !in s.ipc.running { assert s.ipc.running == map[]; }
  }

  /** What is published: everything but the execution edges into calls that are charged to a connection. */
  lemma {:induction false} PublishMeans(g: seq<Record>, rows: seq<Row>, r: Record)
    ensures r in SocketReads.Publish(g, SocketReads.Lifecycle(rows)) <==>
            && r in g
            && !(r.Edge? && r.kind.Executed? && r.target.SyscallNode?
                 && exists row ::
                      row in rows && row.origin == Some(SocketLifecycle) && row.stamp.source == r.target.source)
  {
    if g != [] {
      PublishMeans(g[..|g| - 1], rows, r);
      assert g == g[..|g| - 1] + [g[|g| - 1]];
    }
  }
}
