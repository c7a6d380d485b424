/** What the attributor computes, as functions on its state: one step per native-event
    marker, one step per traced syscall. */
module Attribution {
  import opened Trace
  import D = Descriptors

  // ----- state --------------------------------------------------------------------

  /** The validated request map: the requests, and the owners of every request and join. */
  datatype Mapping = Mapping(roots: set<Context>, owners: map<Context, set<Context>>)

  datatype Origin = Worker | Completion | AsyncContext | IpcWorker | ProcessInheritance | SocketLifecycle

  datatype Evidence = Observed(source: Source) | Connection(conn: D.ConnId)

  datatype Ctx = Ctx(request: Context, operation: OpId, origin: Origin, job: Option<string>, evidence: Evidence)

  datatype Work = Work(request: Context, started: bool, finished: bool, completed: bool, status: Option<int>)

  datatype Job = Job(request: Context, started: bool, finished: bool, cancelled: bool)

  datatype NodeId =
    | RequestNode(context: Context) | JoinNode(context: Context)
    | IpcNode(job: Option<string>) | CancelNode(job: Option<string>)
    | WorkNode(operation: OpId) | TaskNode(span: SpanId) | ProcessNode(pid: Pid)
    | SocketNode(conn: D.ConnId) | SyscallNode(source: Source)

  datatype EdgeKind =
    | Joined | IpcSent | CancelledBeforeExecution | CreatedTask | Polled | Submitted
    | Spawned | Executed | AcceptedConnection | Accepted | Connected | SocketEffect

  datatype Record = Node(id: NodeId) | Edge(source: NodeId, target: NodeId, kind: EdgeKind)

  datatype Attribution = Bound | MultiParent | NoRequestContext | Unknown | AmbiguousResource

  /** One attributed syscall.  `requests` and `candidates` are the owning contexts. */
  datatype Row = Row(
    stamp: Stamp, call: Call, context: Context, requests: set<Context>, job: Option<string>,
    operation: OpId, origin: Option<Origin>, evidence: Option<Evidence>,
    connection: Option<D.ConnId>, candidates: set<Context>, attribution: Attribution)

  datatype Error =
    | UnknownContext(context: Context)
    | SenderMismatch(job: Option<string>) | InvalidJob(job: Option<string>)
    | InvalidCancellation(job: Option<string>) | InvalidEntry(job: Option<string>) | InvalidLeave(job: Option<string>)
    | DuplicateOperation(operation: OpId) | SpanChanged(span: SpanId)
    | InvalidWorkEntry(operation: OpId) | LeaveWithoutEnter(tid: Tid) | InvalidCompletion(operation: OpId)
    | RuntimeFailure(kind: Kind) | TransitionInsideJob(job: Option<string>)
    | NotBracketed(operation: OpId) | CancelledExecuted(operation: OpId)
    | UnfinishedJobs | UnclosedWork | LackCompletion(count: nat)

  /** Submitted operations, the stack of running work per thread, and known runtime spans. */
  datatype Works = Works(operations: map<OpId, Work>, active: map<Tid, seq<OpId>>, spans: map<SpanId, Context>)

  /** Sent jobs, and the job each thread is executing. */
  datatype Ipc = Ipc(jobs: map<string, Job>, running: map<Tid, string>)

  /** Connection owners, and which connections and ownership edges are already drawn. */
  datatype Sockets = Sockets(owned: map<D.ConnId, set<Context>>, drawn: set<D.ConnId>, edges: set<(Context, D.ConnId)>)

  /** What syscalls maintain. */
  datatype Effects = Effects(inherited: map<Pid, Ctx>, fds: D.FdState, sockets: Sockets, executed: set<Source>,
                             rows: seq<Row>)

  datatype State = State(
    threads: map<Tid, Ctx>, works: Works, ipc: Ipc, effects: Effects, graph: seq<Record>, errors: seq<Error>)

  function Initial(graph: seq<Record>): State {
    State(map[], Works(map[], map[], map[]), Ipc(map[], map[]),
          Effects(map[], D.Empty(), Sockets(map[], {}, {}), {}, []), graph, [])
  }

  function ContextNode(m: Mapping, context: Context): NodeId {
    if context in m.roots then RequestNode(context) else JoinNode(context)
  }

  function Owners(m: Mapping, context: Context): set<Context> {
    if context in m.owners then m.owners[context] else {context}
  }

  /** The context governing a thread: its own, else the one its process inherited. */
  function ContextOf(s: State, stamp: Stamp): Option<Ctx> {
    if stamp.tid in s.threads then Some(s.threads[stamp.tid])
    else if stamp.pid in s.effects.inherited then Some(s.effects.inherited[stamp.pid])
    else None
  }

  function RequestOf(c: Option<Ctx>): Context { if c.Some? then c.value.request else 0 }

  function ActiveOf(w: Works, tid: Tid): seq<OpId> { if tid in w.active then w.active[tid] else [] }

  function JobOf(ipc: Ipc, job: Option<string>): Option<Job> {
    if job.Some? && job.value in ipc.jobs then Some(ipc.jobs[job.value]) else None
  }

  function PutJob(ipc: Ipc, name: string, job: Job): Ipc { ipc.(jobs := ipc.jobs[name := job]) }

  function PutWork(w: Works, operation: OpId, work: Work): Works { w.(operations := w.operations[operation := work]) }

  function Fail(s: State, error: Error): State { s.(errors := s.errors + [error]) }

  function Draw(s: State, records: seq<Record>): State { s.(graph := s.graph + records) }

  function SetThread(s: State, tid: Tid, c: Ctx): State { s.(threads := s.threads[tid := c]) }

  // ----- markers ------------------------------------------------------------------

  function OnIpcSend(m: Mapping, s: State, at: Stamp, n: Marker): State {
    var sender := ContextOf(s, at);
    var s1 := if sender.None? || sender.value.request != n.request then Fail(s, SenderMismatch(n.job)) else s;
    if n.job.None? || n.job.value in s.ipc.jobs then Fail(s1, InvalidJob(n.job))
    else
      Draw(s1.(ipc := PutJob(s.ipc, n.job.value, Job(n.request, false, false, false))), SendRecords(m, sender, n))
  }

  /** A job is sent by the job its sender runs, else by the request itself. */
  function SendRecords(m: Mapping, sender: Option<Ctx>, n: Marker): seq<Record> {
    var parent :=
      if sender.Some? && sender.value.origin.IpcWorker? then IpcNode(sender.value.job) else ContextNode(m, n.request);
    [Node(IpcNode(n.job))] + if n.request != 0 then [Edge(parent, IpcNode(n.job), IpcSent)] else []
  }

  /** May the job still be entered or cancelled under this request? */
  predicate Waiting(job: Option<Job>, request: Context) {
    job.Some? && !job.value.started && !job.value.finished && job.value.request == request
  }

  function OnIpcCancel(s: State, n: Marker): State {
    var job := JobOf(s.ipc, n.job);
    if !Waiting(job, n.request) then Fail(s, InvalidCancellation(n.job))
    else
      Draw(s.(ipc := PutJob(s.ipc, n.job.value, job.value.(finished := true, cancelled := true))),
           [Node(CancelNode(n.job)), Edge(IpcNode(n.job), CancelNode(n.job), CancelledBeforeExecution)])
  }

  function OnIpcEnter(s: State, at: Stamp, n: Marker): State {
    var job := JobOf(s.ipc, n.job);
    var s1 :=
      if !Waiting(job, n.request) || at.tid in s.ipc.running then Fail(s, InvalidEntry(n.job))
      else
        s.(ipc := PutJob(s.ipc, n.job.value, job.value.(started := true))
                  .(running := s.ipc.running[at.tid := n.job.value]));
    SetThread(s1, at.tid, Ctx(n.request, 0, IpcWorker, n.job, Observed(at.source)))
  }

  predicate Runs(ipc: Ipc, tid: Tid, job: string) { tid in ipc.running && ipc.running[tid] == job }

  predicate RunsUnder(threads: map<Tid, Ctx>, tid: Tid, request: Context) {
    tid in threads && threads[tid].request == request
  }

  function JobLeft(s: State, at: Stamp, n: Marker): State {
    var job := JobOf(s.ipc, n.job);
    if job.None? || !Runs(s.ipc, at.tid, n.job.value) || !RunsUnder(s.threads, at.tid, n.request)
    then Fail(s, InvalidLeave(n.job))
    else s.(ipc := PutJob(s.ipc, n.job.value, job.value.(finished := true)).(running := s.ipc.running - {at.tid}))
  }

  function OnIpcLeave(s: State, at: Stamp, n: Marker): State {
    SetThread(JobLeft(s, at, n), at.tid, Ctx(0, 0, AsyncContext, None, Observed(at.source)))
  }

  /** The records a submission adds; a runtime span gets its node on first sight. */
  function SubmitRecords(m: Mapping, w: Works, n: Marker): seq<Record> {
    [Node(WorkNode(n.operation))] +
    if n.spanPoll then
      (if n.pointer in w.spans then []
       else [Node(TaskNode(n.pointer))] +
            if n.request != 0 then [Edge(ContextNode(m, n.request), TaskNode(n.pointer), CreatedTask)] else [])
      + [Edge(TaskNode(n.pointer), WorkNode(n.operation), Polled)]
    else if n.request != 0 then [Edge(ContextNode(m, n.request), WorkNode(n.operation), Submitted)]
    else []
  }

  function SubmitErrors(w: Works, n: Marker): seq<Error> {
    (if n.operation in w.operations then [DuplicateOperation(n.operation)] else [])
    + if n.spanPoll && n.pointer in w.spans && w.spans[n.pointer] != n.request then [SpanChanged(n.pointer)] else []
  }

  function WorkSubmitted(works: Works, n: Marker): Works {
    var w := PutWork(works, n.operation, Work(n.request, false, false, false, None));
    if n.spanPoll && n.pointer !in w.spans then w.(spans := w.spans[n.pointer := n.request]) else w
  }

  function OnSubmit(m: Mapping, s: State, n: Marker): State {
    s.(works := WorkSubmitted(s.works, n),
       graph := s.graph + SubmitRecords(m, s.works, n),
       errors := s.errors + SubmitErrors(s.works, n))
  }

  function OnWorkEnter(s: State, at: Stamp, n: Marker): State {
    var w := s.works;
    var pushed := w.(active := w.active[at.tid := ActiveOf(w, at.tid) + [n.operation]]);
    if n.operation !in w.operations || w.operations[n.operation].request != n.request
      || w.operations[n.operation].started
    then Fail(s.(works := pushed), InvalidWorkEntry(n.operation))
    else s.(works := PutWork(pushed, n.operation, w.operations[n.operation].(started := true)))
  }

  function OnWorkLeave(s: State, at: Stamp): State {
    var stack := ActiveOf(s.works, at.tid);
    if stack == [] then Fail(s, LeaveWithoutEnter(at.tid))
    else
      var top := stack[|stack| - 1];
      var popped := s.works.(active := s.works.active[at.tid := stack[..|stack| - 1]]);
      s.(works := if top in popped.operations then PutWork(popped, top, popped.operations[top].(finished := true))
         else popped)
  }

  function OnComplete(s: State, n: Marker): State {
    var w := s.works;
    if n.operation !in w.operations || w.operations[n.operation].completed
      || w.operations[n.operation].request != n.request
    then Fail(s, InvalidCompletion(n.operation))
    else s.(works := PutWork(w, n.operation, w.operations[n.operation].(completed := true, status := Some(n.status))))
  }

  function TransitionOrigin(kind: Kind): Origin {
    if kind.WorkEnter? then Worker else if kind.DoneEnter? then Completion else AsyncContext
  }

  function OnTransition(s: State, at: Stamp, n: Marker): State {
    var s1 := if at.tid in s.ipc.running then Fail(s, TransitionInsideJob(Some(s.ipc.running[at.tid]))) else s;
    SetThread(s1, at.tid, Ctx(n.request, n.operation, TransitionOrigin(n.kind), None, Observed(at.source)))
  }

  function Dispatch(m: Mapping, s: State, at: Stamp, n: Marker): State {
    match n.kind
    case IpcSend => OnIpcSend(m, s, at, n)
    case IpcCancel => OnIpcCancel(s, n)
    case IpcEnter => OnIpcEnter(s, at, n)
    case IpcLeave => OnIpcLeave(s, at, n)
    case Submit => OnSubmit(m, s, n)
    case WorkEnter => OnWorkEnter(s, at, n)
    case WorkLeave => OnWorkLeave(s, at)
    case Complete => OnComplete(s, n)
    case InvariantFailure => Fail(s, RuntimeFailure(n.kind))
    case DuplicateWork => Fail(s, RuntimeFailure(n.kind))
    case JsContext => s
    case DoneEnter => s
    case DoneLeave => s
    case Install => s
    case InstallQueue => s
  }

  /** One marker, including the check that its request is registered. */
  function MarkerStep(m: Mapping, s: State, at: Stamp, n: Marker): State {
    var s1 := if n.request != 0 && n.request !in m.owners then Fail(s, UnknownContext(n.request)) else s;
    var s2 := Dispatch(m, s1, at, n);
    if Transition(n.kind) then OnTransition(s2, at, n) else s2
  }

  // ----- traced syscalls -----------------------------------------------------------

  /** Does this event hand the caller's owners to the socket it works on? */
  predicate Grants(e: Syscall, out: D.Outcome) {
    || (e.call.Socket? && e.Returned())
    || (e.call.Accept? && e.Returned())
    || (e.call.Connect? && e.fd.Some?)
    || e.Transfers()
  }

  function OwnersAfter(m: Mapping, owned: map<D.ConnId, set<Context>>, e: Syscall, out: D.Outcome, request: Context)
    : map<D.ConnId, set<Context>>
  {
    if out.socket.None? then owned
    else
      var held := if out.created.Some? || out.socket.value !in owned then {} else owned[out.socket.value];
      var granted := if Grants(e, out) && request != 0 then Owners(m, request) else {};
      owned[out.socket.value := held + granted]
  }

  predicate IsLeast(x: Context, s: set<Context>) { x in s && forall y :: y in s ==> x <= y }

  function Least(s: set<Context>): (x: Context)
    requires s != {}
    ensures IsLeast(x, s)
  {
    LeastExists(s);
    var x :| IsLeast(x, s);
    x
  }

  lemma LeastExists(s: set<Context>)
    requires s != {}
    ensures exists x :: IsLeast(x, s)
  {
    var a :| a in s;
    var rest := s - {a};
    assert s == rest + {a};
    if rest == {} {
      assert IsLeast(a, s);
    } else {
      LeastExists(rest);
      var b :| IsLeast(b, rest);
      assert IsLeast(if a <= b then a else b, s);
    }
  }

  /** `connected` edges, in context order, for the owners not yet drawn. */
  function ConnectedEdges(m: Mapping, owners: set<Context>, conn: D.ConnId): seq<Record> {
    if owners == {} then []
    else
      var first := Least(owners);
      [Edge(ContextNode(m, first), SocketNode(conn), Connected)] + ConnectedEdges(m, owners - {first}, conn)
  }

  function Undrawn(k: Sockets, owners: set<Context>, conn: D.ConnId): set<Context> {
    set p | p in owners && (p, conn) !in k.edges
  }

  function AcceptRecords(e: Syscall, out: D.Outcome): seq<Record> {
    if out.listener.Some? && out.created.Some? then
      [Node(SocketNode(out.created.value)),
       Edge(SocketNode(out.listener.value), SocketNode(out.created.value), AcceptedConnection),
       Edge(SyscallNode(e.stamp.source), SocketNode(out.created.value), Accepted)]
    else []
  }

  function SocketRecords(m: Mapping, k: Sockets, e: Syscall, out: D.Outcome, owners: set<Context>): seq<Record> {
    if out.socket.None? then []
    else
      var conn := out.socket.value;
      var drawn := k.drawn + if out.listener.Some? && out.created.Some? then {out.created.value} else {};
      AcceptRecords(e, out)
      + (if conn in drawn then [] else [Node(SocketNode(conn))])
      + ConnectedEdges(m, Undrawn(k, owners, conn), conn)
      + if e.Transfers() then [Edge(SocketNode(conn), SyscallNode(e.stamp.source), SocketEffect)] else []
  }

  /** A read without a request on a socket with one owner runs under that owner. */
  function Effective(e: Syscall, out: D.Outcome, c: Option<Ctx>, owners: set<Context>): Option<Ctx> {
    if out.socket.Some? && RequestOf(c) == 0 && |owners| == 1 && e.call.Receive? then
      Some(Ctx(Least(owners), 0, SocketLifecycle, None, Connection(out.socket.value)))
    else c
  }

  /** The graph node standing for the code that runs under `c`. */
  function ActorNode(m: Mapping, c: Ctx, pid: Pid): NodeId {
    if c.origin.IpcWorker? then IpcNode(c.job)
    else if c.origin.ProcessInheritance? then ProcessNode(pid)
    else if c.operation != 0 then WorkNode(c.operation)
    else ContextNode(m, c.request)
  }

  predicate Forks(e: Syscall) { e.call.Clone? && e.Child() && !e.call.thread }

  function SpawnRecords(m: Mapping, e: Syscall, c: Option<Ctx>): seq<Record> {
    if !Forks(e) then []
    else
      [Node(ProcessNode(e.ret.value))] +
      if RequestOf(c) != 0 then [Edge(ActorNode(m, c.value, e.stamp.pid), ProcessNode(e.ret.value), Spawned)] else []
  }

  function Inherited(inherited: map<Pid, Ctx>, e: Syscall, c: Option<Ctx>): map<Pid, Ctx> {
    if Forks(e) then inherited[e.ret.value := Ctx(RequestOf(c), 0, ProcessInheritance, None, Observed(e.stamp.source))]
    else inherited
  }

  function RowRequests(m: Mapping, context: Context): set<Context> {
    if context in m.owners then m.owners[context] else {}
  }

  function NewRow(m: Mapping, e: Syscall, c: Option<Ctx>, socket: Option<D.ConnId>, owners: set<Context>): Row {
    var context := RequestOf(c);
    var requests := RowRequests(m, context);
    Row(e.stamp, e.call, context, requests,
        if c.Some? then c.value.job else None,
        if c.Some? then c.value.operation else 0,
        if c.Some? then Some(c.value.origin) else None,
        if c.Some? then Some(c.value.evidence) else None,
        socket,
        if socket.Some? && |owners| > 1 && context == 0 then owners else {},
        if requests != {} then (if |requests| > 1 then MultiParent else Bound)
        else if c.Some? && context == 0 then NoRequestContext
        else Unknown)
  }

  function RowRecords(m: Mapping, executed: set<Source>, row: Row, c: Option<Ctx>): seq<Record> {
    if row.context == 0 && row.connection.None? then []
    else
      [Node(SyscallNode(row.stamp.source))] +
      if row.context != 0 && c.Some? && row.stamp.source !in executed
      then [Edge(ActorNode(m, c.value, row.stamp.pid), SyscallNode(row.stamp.source), Executed)] else []
  }

  /** The owners of the socket an event works on, after the event. */
  function SocketOwners(owned: map<D.ConnId, set<Context>>, socket: Option<D.ConnId>): set<Context> {
    if socket.Some? && socket.value in owned then owned[socket.value] else {}
  }

  /** Everything one syscall derives before the state is updated. */
  datatype Reading = Reading(out: D.Outcome, owned: map<D.ConnId, set<Context>>, owners: set<Context>,
                             ctx: Option<Ctx>, row: Row)

  function Read(m: Mapping, s: State, e: Syscall): Reading {
    var c := ContextOf(s, e.stamp);
    var out := D.Step(s.effects.fds, e);
    var owned := OwnersAfter(m, s.effects.sockets.owned, e, out, RequestOf(c));
    var owners := SocketOwners(owned, out.socket);
    var effective := Effective(e, out, c, owners);
    Reading(out, owned, owners, effective, NewRow(m, e, effective, out.socket, owners))
  }

  function TraceRecords(m: Mapping, s: State, e: Syscall, r: Reading): seq<Record> {
    SocketRecords(m, s.effects.sockets, e, r.out, r.owners)
    + SpawnRecords(m, e, r.ctx)
    + RowRecords(m, s.effects.executed, r.row, r.ctx)
  }

  function DrawnAfter(k: Sockets, r: Reading): Sockets {
    if r.out.socket.None? then Sockets(r.owned, k.drawn, k.edges)
    else Sockets(r.owned, k.drawn + {r.out.socket.value}, k.edges + set p | p in r.owners :: (p, r.out.socket.value))
  }

  function TraceStep(m: Mapping, s: State, e: Syscall): State {
    if e.instrumentation then s
    else
      var r := Read(m, s, e);
      s.(effects := Effects(
           Inherited(s.effects.inherited, e, r.ctx), r.out.fds, DrawnAfter(s.effects.sockets, r),
           s.effects.executed + (if r.row.context != 0 then {e.stamp.source} else {}),
           s.effects.rows + [r.row]),
         graph := s.graph + TraceRecords(m, s, e, r))
  }

  /** A traced syscall never touches what the markers maintain. */
  lemma TraceFrame(m: Mapping, s: State, e: Syscall)
    ensures var g := TraceStep(m, s, e);
            && g.threads == s.threads && g.works == s.works && g.ipc == s.ipc && g.errors == s.errors
            && (forall pid ::
                pid in g.effects.inherited ==> pid in s.effects.inherited || (Forks(e) && pid == e.ret.value))
            && s.effects.rows <= g.effects.rows && s.graph <= g.graph
  {
    hide Read, TraceRecords, DrawnAfter;
  }

  lemma DispatchFrame(m: Mapping, s: State, at: Stamp, n: Marker)
    ensures Dispatch(m, s, at, n).effects == s.effects
  {
    hide SubmitRecords, SubmitErrors, SendRecords, ContextOf, PutWork, PutJob, ActiveOf, JobOf;
  }

  /** A marker never touches what the syscalls maintain. */
  lemma MarkerFrame(m: Mapping, s: State, at: Stamp, n: Marker)
    ensures MarkerStep(m, s, at, n).effects == s.effects
  {
    hide Dispatch;
    DispatchFrame(m, s, at, n);
    DispatchFrame(m, Fail(s, UnknownContext(n.request)), at, n);
  }

  // ----- final validation -----------------------------------------------------------

  /** Operations reported complete without an execution, or cancelled and yet executed. */
  function BracketFindings(operations: map<OpId, Work>): set<Error> {
    (set op | op in operations && operations[op].status == Some(0)
              && !(operations[op].started && operations[op].finished) :: NotBracketed(op))
    + (set op | op in operations && operations[op].status == Some(-125) && operations[op].started ::
       CancelledExecuted(op))
  }

  predicate Unended(ipc: Ipc) { ipc.running != map[] || exists j :: j in ipc.jobs && !ipc.jobs[j].finished }

  predicate Unclosed(w: Works) { exists t :: t in w.active && w.active[t] != [] }

  function Unfinished(w: Works): set<OpId> { set op | op in w.operations && !w.operations[op].completed }

  /** The bookkeeping errors found at the end of a run. */
  function Findings(s: State): set<Error> {
    BracketFindings(s.works.operations)
    + (if Unended(s.ipc) then {UnfinishedJobs} else {})
    + (if Unclosed(s.works) then {UnclosedWork} else {})
    + (if Unfinished(s.works) != {} then {LackCompletion(|Unfinished(s.works)|)} else {})
  }
}
