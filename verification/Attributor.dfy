/** The attributor itself: fields updated in place by one pass over the trace, proved
    against the step functions of `Attribution`. */
module AttributorClass {
  import opened Trace
  import opened Attribution
  import opened Replay
  import SocketReads
  import Provenance
  import D = Descriptors

  class Attributor {
    const mapping: Mapping
    // thread and request state
    var state: map<Tid, Ctx>
    var operations: map<OpId, Work>
    var activeWork: map<Tid, seq<OpId>>
    var runtimeSpans: map<SpanId, Context>
    var ipcJobs: map<string, Job>
    var ipcActive: map<Tid, string>
    var inherited: map<Pid, Ctx>
    // socket and descriptor state
    var sockets: map<D.Key, D.ConnId>
    var closeOnExec: set<D.Key>
    var fdTables: map<Tid, nat>
    var fdTableSerial: nat
    var socketGeneration: nat
    var connections: map<D.ConnId, set<Context>>
    var socketNodes: set<D.ConnId>
    var socketParentEdges: set<(Context, D.ConnId)>
    // output
    var executedSyscalls: set<Source>
    var tagged: seq<Row>
    var graph: seq<Record>
    var errors: seq<Error>

    constructor (mapping: Mapping, seed: seq<Record>)
      ensures this.mapping == mapping && View() == Initial(seed)
    {
      this.mapping := mapping;
      state, operations, activeWork, runtimeSpans := map[], map[], map[], map[];
      ipcJobs, ipcActive, inherited := map[], map[], map[];
      sockets, closeOnExec, fdTables, fdTableSerial, socketGeneration := map[], {}, map[], 0, 0;
      connections, socketNodes, socketParentEdges := map[], {}, {};
      executedSyscalls, tagged, graph, errors := {}, [], seed, [];
    }

    function WorksNow(): Works
      reads this
    {
      Works(operations, activeWork, runtimeSpans)
    }

    function IpcNow(): Ipc
      reads this
    {
      Ipc(ipcJobs, ipcActive)
    }

    function FdsNow(): D.FdState
      reads this
    {
      D.FdState(sockets, closeOnExec, fdTables, fdTableSerial, socketGeneration)
    }

    function SocketsNow(): Sockets
      reads this
    {
      Sockets(connections, socketNodes, socketParentEdges)
    }

    function EffectsNow(): Effects
      reads this
    {
      Effects(inherited, FdsNow(), SocketsNow(), executedSyscalls, tagged)
    }

    function View(): State
      reads this
    {
      State(state, WorksNow(), IpcNow(), EffectsNow(), graph, errors)
    }

    // ----- descriptor tables ----------------------------------------------------------------

    method NewFdTable() returns (table: nat)
      modifies this`fdTableSerial
      ensures table == fdTableSerial == old(fdTableSerial) + 1
    {
      fdTableSerial := fdTableSerial + 1;
      table := fdTableSerial;
    }

    method FdTable(tid: Tid) returns (table: nat)
      modifies this`fdTableSerial, this`fdTables
      ensures FdsNow() == D.WithTable(old(FdsNow()), tid) && table == fdTables[tid]
    {
      if tid !in fdTables {
        table := NewFdTable();
        fdTables := fdTables[tid := table];
      }
      table := fdTables[tid];
    }

    method CopyFdTable(table: nat) returns (copied: nat)
      modifies this`fdTableSerial, this`sockets, this`closeOnExec
      ensures FdsNow() == D.CopyTable(old(FdsNow()), table) && copied == old(fdTableSerial) + 1
    {
      hide CopiedPart, Copies, D.CopyTable;
      ghost var f := FdsNow();
      var items := sockets;
      copied := NewFdTable();
      var todo := items.Keys;
      ghost var done: set<D.Key> := {};
      CopiedNone(f, table);
      while todo != {}
        invariant done + todo == items.Keys && done !! todo && fdTableSerial == copied
        invariant CopiedPart(f, table, done, FdsNow())
        decreases |todo|
      {
        var k: D.Key :| k in todo;
        ghost var g := FdsNow();
        todo := todo - {k};
        if k.table == table {
          sockets := sockets[D.Key(copied, k.fd) := items[k]];
          if k in closeOnExec {
            closeOnExec := closeOnExec + {D.Key(copied, k.fd)};
          }
        }
        CopiedOne(f, table, done, g, k, FdsNow());
        done := done + {k};
      }
      assert done == items.Keys;
      CopiedAll(f, table, FdsNow());
    }

    /** Forget every key in `keys`: binding and flag. */
    method Drop(keys: set<D.Key>)
      modifies this`sockets, this`closeOnExec
      ensures FdsNow() == D.Unbind(old(FdsNow()), keys)
    {
      var todo := keys;
      while todo != {}
        invariant todo <= keys
        invariant sockets == old(sockets) - (keys - todo) && closeOnExec == old(closeOnExec) - (keys - todo)
        decreases |todo|
      {
        var k: D.Key :| k in todo;
        sockets := sockets - {k};
        closeOnExec := closeOnExec - {k};
        todo := todo - {k};
      }
      assert keys - todo == keys;
    }

    method SetFlag(key: D.Key, on: bool)
      modifies this`closeOnExec
      ensures FdsNow() == D.Flag(old(FdsNow()), key, on)
    {
      closeOnExec := if on then closeOnExec + {key} else closeOnExec - {key};
    }

    method OpenSocket(e: Syscall, key: D.Key, on: bool) returns (conn: D.ConnId)
      modifies this`sockets, this`closeOnExec, this`socketGeneration
      ensures forall listener ::
              D.Create(old(FdsNow()), e, key, on, listener) == D.Outcome(FdsNow(), Some(conn), listener, Some(conn))
    {
      socketGeneration := socketGeneration + 1;
      conn := D.ConnId(e.stamp.pid, key.fd, socketGeneration);
      sockets := sockets[key := conn];
      SetFlag(key, on);
    }

    method RedirectTo(key: D.Key, held: Option<D.ConnId>, on: bool)
      modifies this`sockets, this`closeOnExec
      ensures FdsNow() == D.Redirect(old(FdsNow()), key, held, on)
    {
      sockets := sockets - {key};
      closeOnExec := closeOnExec - {key};
      match held {
        case Some(conn) =>
          sockets := sockets[key := conn];
          if on { closeOnExec := closeOnExec + {key}; }
        case None =>
      }
      assert held.Some? ==> sockets == old(sockets)[key := held.value];
      assert held.Some? ==> closeOnExec == D.Redirect(old(FdsNow()), key, held, on).cloexec;
    }

    method CloseRange(e: Syscall, own: nat)
      requires e.call.CloseRange?
      modifies this`fdTableSerial, this`fdTables, this`sockets, this`closeOnExec
      ensures FdsNow() == D.CloseRangeStep(old(FdsNow()), e, own)
    {
      var table := own;
      if e.call.unshare {
        table := CopyFdTable(own);
        fdTables := fdTables[e.stamp.tid := table];
      }
      var keys := D.InRange(FdsNow(), table, e.call.bounds);
      if e.call.cloexec {
        closeOnExec := closeOnExec + keys;
      } else {
        Drop(keys);
      }
    }

    method ReplaceTable(tid: Tid, table: nat)
      modifies this`fdTableSerial, this`fdTables, this`sockets, this`closeOnExec
      ensures FdsNow() == D.CopyTable(old(FdsNow()), table).(tables := old(fdTables)[tid := old(fdTableSerial) + 1])
    {
      var copied := CopyFdTable(table);
      fdTables := fdTables[tid := copied];
    }

    method Exec(tid: Tid, table: nat)
      modifies this`fdTableSerial, this`fdTables, this`sockets, this`closeOnExec
      ensures FdsNow() == D.ExecStep(old(FdsNow()), tid, table)
    {
      ReplaceTable(tid, table);
      Drop(D.Inheritable(FdsNow(), fdTableSerial));
    }

    /** The descriptor tables after a call, the socket the rest of the call works on, the
        accepting listener, and a connection it created. */
    method UpdateTables(e: Syscall, table: nat)
      returns (socket: Option<D.ConnId>, listener: Option<D.ConnId>, created: Option<D.ConnId>)
      modifies this`fdTableSerial, this`fdTables, this`sockets, this`closeOnExec, this`socketGeneration
      ensures D.Outcome(FdsNow(), socket, listener, created) == D.Act(old(FdsNow()), e, table)
    {
      hide D.CopyTable, D.CloseRangeStep, D.ExecStep, D.Flag, D.Unbind, D.Create, D.Redirect;
      socket, listener, created := None, None, None;
      if e.fd.Some? && D.Key(table, e.fd.value) in sockets {
        socket := Some(sockets[D.Key(table, e.fd.value)]);
      }
      match e.call {
        case Socket(cloexec) =>
          if e.Returned() {
            var conn := OpenSocket(e, D.Key(table, e.ret.value), cloexec);
            socket, created := Some(conn), Some(conn);
          }
        case Accept(accept4, cloexec) =>
          if e.Returned() {
            listener := socket;
            var conn := OpenSocket(e, D.Key(table, e.ret.value), accept4 && cloexec);
            socket, created := Some(conn), Some(conn);
          }
        case Connect =>
          if e.fd.Some? && socket.None? {
            socketGeneration := socketGeneration + 1;
            var conn := D.ConnId(e.stamp.pid, e.fd.value, socketGeneration);
            sockets := sockets[D.Key(table, e.fd.value) := conn];
            socket, created := Some(conn), Some(conn);
          }
        case Dup(kind, cloexec) =>
          if e.fd.Some? && e.Returned() {
            if !(!kind.Dup1? && e.fd.value == e.ret.value) {
              RedirectTo(D.Key(table, e.ret.value), socket, kind.Dup3? && cloexec);
            }
          }
        case DupFd(cloexec) =>
          if e.fd.Some? && e.Returned() { RedirectTo(D.Key(table, e.ret.value), socket, cloexec); }
        case SetFd(cloexec) =>
          if e.fd.Some? && e.Returned() { SetFlag(D.Key(table, e.fd.value), cloexec); }
        case CloseRange(_, _, _) =>
          if e.Zero() {
            CloseRange(e, table);
            socket := None;
          }
        case Clone(_, files) =>
          if e.Child() {
            if files {
              fdTables := fdTables[e.ret.value := table];
            } else {
              ReplaceTable(e.ret.value, table);
            }
          }
        case Unshare(files) =>
          if e.Zero() && files { ReplaceTable(e.stamp.tid, table); }
        case Exec =>
          if e.Zero() { Exec(e.stamp.tid, table); }
        case Close =>
          if socket.Some? && e.Zero() { Drop({D.Key(table, e.fd.value)}); }
        case Receive =>
        case Send =>
        case Other =>
      }
    }

    // ----- markers ----------------------------------------------------------------------------

    method SendJob(at: Stamp, n: Marker)
      modifies this`errors, this`ipcJobs, this`graph
      ensures View() == OnIpcSend(mapping, old(View()), at, n)
    {
      var sender := ContextOf(View(), at);
      if sender.None? || sender.value.request != n.request {
        errors := errors + [SenderMismatch(n.job)];
      }
      if n.job.None? || n.job.value in ipcJobs {
        errors := errors + [InvalidJob(n.job)];
      } else {
        ipcJobs := ipcJobs[n.job.value := Job(n.request, false, false, false)];
        graph := graph + SendRecords(mapping, sender, n);
      }
    }

    method CancelJob(n: Marker)
      modifies this`errors, this`ipcJobs, this`graph
      ensures View() == OnIpcCancel(old(View()), n)
    {
      var job := JobOf(IpcNow(), n.job);
      if !Waiting(job, n.request) {
        errors := errors + [InvalidCancellation(n.job)];
      } else {
        ipcJobs := ipcJobs[n.job.value := job.value.(finished := true, cancelled := true)];
        graph := graph + [Node(CancelNode(n.job)), Edge(IpcNode(n.job), CancelNode(n.job), CancelledBeforeExecution)];
      }
    }

    method EnterJob(at: Stamp, n: Marker)
      modifies this`errors, this`ipcJobs, this`ipcActive, this`state
      ensures View() == OnIpcEnter(old(View()), at, n)
    {
      var job := JobOf(IpcNow(), n.job);
      if !Waiting(job, n.request) || at.tid in ipcActive {
        errors := errors + [InvalidEntry(n.job)];
      } else {
        ipcJobs := ipcJobs[n.job.value := job.value.(started := true)];
        ipcActive := ipcActive[at.tid := n.job.value];
      }
      state := state[at.tid := Ctx(n.request, 0, IpcWorker, n.job, Observed(at.source))];
    }

    method LeaveJob(at: Stamp, n: Marker)
      modifies this`errors, this`ipcJobs, this`ipcActive, this`state
      ensures View() == OnIpcLeave(old(View()), at, n)
    {
      hide JobLeft;
      FinishJob(at, n);
      state := state[at.tid := Ctx(0, 0, AsyncContext, None, Observed(at.source))];
    }

    method FinishJob(at: Stamp, n: Marker)
      modifies this`errors, this`ipcJobs, this`ipcActive
      ensures View() == JobLeft(old(View()), at, n)
    {
      hide Runs, RunsUnder;
      var job := JobOf(IpcNow(), n.job);
      if job.None? || !Runs(IpcNow(), at.tid, n.job.value) || !RunsUnder(state, at.tid, n.request) {
        errors := errors + [InvalidLeave(n.job)];
      } else {
        ipcJobs := ipcJobs[n.job.value := job.value.(finished := true)];
        ipcActive := ipcActive - {at.tid};
      }
    }

    method DrawSubmission(n: Marker)
      modifies this`graph
      ensures View() == old(View()).(graph := old(View()).graph + SubmitRecords(mapping, old(View()).works, n))
    {
      graph := graph + [Node(WorkNode(n.operation))];
      if n.spanPoll {
        if n.pointer !in runtimeSpans {
          graph := graph + [Node(TaskNode(n.pointer))];
          if n.request != 0 {
            graph := graph + [Edge(ContextNode(mapping, n.request), TaskNode(n.pointer), CreatedTask)];
          }
        }
        graph := graph + [Edge(TaskNode(n.pointer), WorkNode(n.operation), Polled)];
      } else if n.request != 0 {
        graph := graph + [Edge(ContextNode(mapping, n.request), WorkNode(n.operation), Submitted)];
      }
    }

    method SubmitWork(n: Marker)
      modifies this`errors, this`operations, this`runtimeSpans, this`graph
      ensures View() == OnSubmit(mapping, old(View()), n)
    {
      hide View, SubmitRecords, SubmitErrors, WorkSubmitted;
      DrawSubmission(n);
      CheckSubmission(n);
      RecordSubmission(n);
    }

    method RecordSubmission(n: Marker)
      modifies this`operations, this`runtimeSpans
      ensures View() == old(View()).(works := WorkSubmitted(old(View()).works, n))
    {
      operations := operations[n.operation := Work(n.request, false, false, false, None)];
      if n.spanPoll && n.pointer !in runtimeSpans {
        runtimeSpans := runtimeSpans[n.pointer := n.request];
      }
    }

    /** What a submission of this number, on behalf of this span, contradicts. */
    method CheckSubmission(n: Marker)
      modifies this`errors
      ensures View() == old(View()).(errors := old(View()).errors + SubmitErrors(old(View()).works, n))
    {
      if n.operation in operations {
        errors := errors + [DuplicateOperation(n.operation)];
      }
      if n.spanPoll && n.pointer in runtimeSpans && runtimeSpans[n.pointer] != n.request {
        errors := errors + [SpanChanged(n.pointer)];
      }
    }

    method EnterWork(at: Stamp, n: Marker)
      modifies this`errors, this`operations, this`activeWork
      ensures View() == OnWorkEnter(old(View()), at, n)
    {
      if n.operation !in operations || operations[n.operation].request != n.request || operations[n.operation].started {
        errors := errors + [InvalidWorkEntry(n.operation)];
      } else {
        operations := operations[n.operation := operations[n.operation].(started := true)];
      }
      activeWork := activeWork[at.tid := ActiveOf(WorksNow(), at.tid) + [n.operation]];
    }

    method LeaveWork(at: Stamp)
      modifies this`errors, this`operations, this`activeWork
      ensures View() == OnWorkLeave(old(View()), at)
    {
      var stack := ActiveOf(WorksNow(), at.tid);
      if stack == [] {
        errors := errors + [LeaveWithoutEnter(at.tid)];
      } else {
        var finished := stack[|stack| - 1];
        activeWork := activeWork[at.tid := stack[..|stack| - 1]];
        if finished in operations {
          operations := operations[finished := operations[finished].(finished := true)];
        }
      }
    }

    method CompleteWork(n: Marker)
      modifies this`errors, this`operations
      ensures View() == OnComplete(old(View()), n)
    {
      if n.operation !in operations || operations[n.operation].completed
        || operations[n.operation].request != n.request {
        errors := errors + [InvalidCompletion(n.operation)];
      } else {
        operations := operations[n.operation := operations[n.operation].(completed := true, status := Some(n.status))];
      }
    }

    method DispatchMarker(at: Stamp, n: Marker)
      modifies this
      ensures View() == Dispatch(mapping, old(View()), at, n)
    {
      hide View, OnIpcSend, OnIpcCancel, OnIpcEnter, OnIpcLeave, OnSubmit, OnWorkEnter, OnWorkLeave, OnComplete;
      match n.kind {
        case IpcSend => SendJob(at, n);
        case IpcCancel => CancelJob(n);
        case IpcEnter => EnterJob(at, n);
        case IpcLeave => LeaveJob(at, n);
        case Submit => SubmitWork(n);
        case WorkEnter => EnterWork(at, n);
        case WorkLeave => LeaveWork(at);
        case Complete => CompleteWork(n);
        case InvariantFailure => Report(RuntimeFailure(n.kind));
        case DuplicateWork => Report(RuntimeFailure(n.kind));
        case JsContext =>
        case DoneEnter =>
        case DoneLeave =>
        case Install =>
        case InstallQueue =>
      }
    }

    method Report(error: Error)
      modifies this`errors
      ensures View() == Fail(old(View()), error)
    {
      errors := errors + [error];
    }

    method ChangeContext(at: Stamp, n: Marker)
      modifies this`errors, this`state
      ensures View() == OnTransition(old(View()), at, n)
    {
      if at.tid in ipcActive {
        errors := errors + [TransitionInsideJob(Some(ipcActive[at.tid]))];
      }
      state := state[at.tid := Ctx(n.request, n.operation, TransitionOrigin(n.kind), None, Observed(at.source))];
    }

    method ProcessMarker(at: Stamp, n: Marker)
      modifies this
      ensures View() == MarkerStep(mapping, old(View()), at, n)
    {
      hide View, Dispatch, OnTransition;
      if n.request != 0 && n.request !in mapping.owners {
        Report(UnknownContext(n.request));
      }
      DispatchMarker(at, n);
      if Transition(n.kind) {
        ChangeContext(at, n);
      }
    }

    // ----- syscalls -----------------------------------------------------------------------------

    /** Hand the running request's owners to the socket, if this call grants them. */
    method GrantOwners(e: Syscall, out: D.Outcome, request: Context)
      modifies this`connections
      ensures connections == OwnersAfter(mapping, old(connections), e, out, request)
    {
      if out.socket.Some? {
        var held := if out.created.Some? || out.socket.value !in connections then {} else connections[out.socket.value];
        if Grants(e, out) && request != 0 {
          held := held + Owners(mapping, request);
        }
        assert !Grants(e, out) || request == 0 ==> held + {} == held;
        connections := connections[out.socket.value := held];
      }
    }

    /** `connected` edges, in context order, for the owners not drawn before. */
    method DrawOwners(owners: set<Context>, conn: D.ConnId)
      modifies this`graph, this`socketParentEdges
      ensures graph == old(graph) + ConnectedEdges(mapping, Undrawn(old(SocketsNow()), owners, conn), conn)
      ensures socketParentEdges == old(socketParentEdges) + set p | p in owners :: (p, conn)
    {
      hide ConnectedEdges, Undrawn, DrawnPart;
      ghost var before := SocketsNow();
      var todo := owners;
      DrawnBounds(mapping, before, owners, conn);
      while todo != {}
        invariant todo <= owners
        invariant DrawnPart(before.edges, owners, todo, conn, socketParentEdges)
        invariant graph + ConnectedEdges(mapping, Undrawn(before, todo, conn), conn)
                  == old(graph) + ConnectedEdges(mapping, Undrawn(before, owners, conn), conn)
        decreases |todo|
      {
        var parent := Least(todo);
        LeastUndrawn(mapping, before, todo, conn, parent);
        DrawnOne(before.edges, owners, todo, conn, socketParentEdges, parent);
        if (parent, conn) !in socketParentEdges {
          socketParentEdges := socketParentEdges + {(parent, conn)};
          graph := graph + [Edge(ContextNode(mapping, parent), SocketNode(conn), Connected)];
        }
        todo := todo - {parent};
      }
      DrawnAll(before.edges, owners, conn, socketParentEdges);
    }

    method DrawSocket(e: Syscall, out: D.Outcome, owners: set<Context>)
      requires out.created.Some? ==> out.socket == out.created
      modifies this`graph, this`socketNodes, this`socketParentEdges
      ensures graph == old(graph) + SocketRecords(mapping, old(SocketsNow()), e, out, owners)
      ensures SocketsNow() == Drawn(old(SocketsNow()), out.socket, owners)
    {
      hide ConnectedEdges;
      if out.socket.Some? {
        var conn := out.socket.value;
        if out.listener.Some? && out.created.Some? {
          socketNodes := socketNodes + {out.created.value};
        }
        graph := graph + AcceptRecords(e, out);
        if conn !in socketNodes {
          socketNodes := socketNodes + {conn};
          graph := graph + [Node(SocketNode(conn))];
        }
        DrawOwners(owners, conn);
        if e.Transfers() {
          graph := graph + [Edge(SocketNode(conn), SyscallNode(e.stamp.source), SocketEffect)];
        }
      }
    }

    /** A new process inherits the context of the call that made it. */
    method StartProcess(e: Syscall, context: Option<Ctx>)
      modifies this`inherited, this`graph
      ensures inherited == Inherited(old(inherited), e, context)
      ensures graph == old(graph) + SpawnRecords(mapping, e, context)
    {
      if Forks(e) {
        var child := e.ret.value;
        inherited := inherited[child := Ctx(RequestOf(context), 0, ProcessInheritance, None, Observed(e.stamp.source))];
        graph := graph + [Node(ProcessNode(child))];
        if RequestOf(context) != 0 {
          graph := graph + [Edge(ActorNode(mapping, context.value, e.stamp.pid), ProcessNode(child), Spawned)];
        }
      }
    }

    method AddRow(row: Row, context: Option<Ctx>)
      requires row.context == RequestOf(context)
      modifies this`tagged, this`graph, this`executedSyscalls
      ensures tagged == old(tagged) + [row]
      ensures graph == old(graph) + RowRecords(mapping, old(executedSyscalls), row, context)
      ensures executedSyscalls == old(executedSyscalls) + if row.context != 0 then {row.stamp.source} else {}
    {
      tagged := tagged + [row];
      if row.context != 0 || row.connection.Some? {
        graph := graph + [Node(SyscallNode(row.stamp.source))];
        if row.context != 0 && row.stamp.source !in executedSyscalls {
          graph := graph
            + [Edge(ActorNode(mapping, context.value, row.stamp.pid), SyscallNode(row.stamp.source), Executed)];
          executedSyscalls := executedSyscalls + {row.stamp.source};
        }
      }
    }

    method StepTables(e: Syscall) returns (out: D.Outcome)
      modifies this`fdTableSerial, this`fdTables, this`sockets, this`closeOnExec, this`socketGeneration
      ensures out == D.Step(old(View()).effects.fds, e)
      ensures View() == old(View()).(effects := old(View()).effects.(fds := out.fds))
      ensures out.created.Some? ==> out.socket == out.created
    {
      hide D.Act, D.WithTable;
      ghost var f := FdsNow();
      var table := FdTable(e.stamp.tid);
      var socket, listener, created := UpdateTables(e, table);
      out := D.Outcome(FdsNow(), socket, listener, created);
      CreatedIsSocket(f, e);
    }

    /** Ownership and graph of the socket a call works on; the context the call is charged to. */
    method ProcessSocket(e: Syscall, out: D.Outcome, context: Option<Ctx>)
      returns (owners: set<Context>, charged: Option<Ctx>)
      requires out.created.Some? ==> out.socket == out.created
      modifies this`connections, this`socketNodes, this`socketParentEdges, this`graph
      ensures var before := old(View());
              var owned := OwnersAfter(mapping, before.effects.sockets.owned, e, out, RequestOf(context));
              && owners == SocketOwners(owned, out.socket) && charged == Effective(e, out, context, owners)
              && View() == SocketProcessed(mapping, before, e, out, owned, owners)
    {
      hide OwnersAfter, SocketRecords, SocketOwners, Effective, Drawn;
      GrantOwners(e, out, RequestOf(context));
      owners := SocketOwners(connections, out.socket);
      DrawSocket(e, out, owners);
      charged := Effective(e, out, context, owners);
      RecordsIgnoreOwners(mapping, old(SocketsNow()), connections, e, out, owners);
    }

    /** Process inheritance and the row of a call. */
    method ProcessCall(e: Syscall, out: D.Outcome, owners: set<Context>, context: Option<Ctx>)
      modifies this`inherited, this`tagged, this`graph, this`executedSyscalls
      ensures View() == CallProcessed(mapping, old(View()), e, context, NewRow(mapping, e, context, out.socket, owners))
    {
      hide Inherited, SpawnRecords, RowRecords, NewRow;
      StartProcess(e, context);
      RowNamesContext(mapping, e, context, out.socket, owners);
      AddRow(NewRow(mapping, e, context, out.socket, owners), context);
    }

    method ProcessTrace(e: Syscall)
      modifies this
      ensures View() == TraceStep(mapping, old(View()), e)
    {
      hide View, D.Step, OwnersAfter, SocketOwners, Effective, NewRow, SocketProcessed, CallProcessed, TraceStep,
        ContextOf;
      ghost var before := View();
      if e.instrumentation {
        SocketReads.TraceIgnored(mapping, before, e);
      } else {
        var context := ContextOf(View(), e.stamp);
        var out := StepTables(e);
        var owners, charged := ProcessSocket(e, out, context);
        ProcessCall(e, out, owners, charged);
        StepAssembled(mapping, before, e, out);
      }
    }

    // ----- the end of the run -----------------------------------------------------------------------

    /** One row of the pass: bound to the final owners of its socket, if it was open. */
    method BindRow(row: Row) returns (bound: Row, resolved: nat)
      ensures bound == SocketReads.Bind(connections, row)
      ensures resolved == if SocketReads.Resolves(connections, row) then 1 else 0
    {
      bound, resolved := row, 0;
      if row.connection.Some? && row.call.Receive? && SocketReads.Open(row) {
        var owners := SocketOwners(connections, row.connection);
        if owners != {} {
          bound := row.(origin := Some(SocketLifecycle), evidence := Some(Connection(row.connection.value)));
          resolved := 1;
          if |owners| == 1 {
            bound := bound.(context := Least(owners), requests := owners, attribution := Bound);
          } else {
            bound := bound.(context := 0, requests := {}, candidates := owners, attribution := AmbiguousResource);
          }
        }
      }
    }

    /** Resolve unscoped socket reads; returns how many were resolved. */
    method BindSocketReads() returns (retroactive: nat)
      modifies this`tagged
      ensures tagged == SocketReads.BindAll(connections, old(tagged))
      ensures retroactive == SocketReads.Resolved(connections, old(tagged))
    {
      hide SocketReads.Bind, SocketReads.Resolves, SocketReads.BindAll, SocketReads.Resolved, PartlyBound;
      retroactive := 0;
      ghost var rows := tagged;
      var i := 0;
      BoundStart(connections, rows);
      while i < |tagged|
        invariant 0 <= i <= |tagged| == |rows|
        invariant i < |rows| ==> tagged[i] == rows[i]
        invariant PartlyBound(connections, rows, tagged, i)
        invariant retroactive == SocketReads.Resolved(connections, rows[..i])
      {
        BoundStep(connections, rows, tagged, i);
        var row, resolved := BindRow(tagged[i]);
        tagged := tagged[i := row];
        retroactive := retroactive + resolved;
        i := i + 1;
      }
      BoundEnd(connections, rows, tagged);
      assert rows[..i] == rows;
    }

    /** Drop the execution edges of the reads the socket pass now explains. */
    method DropUnjustified()
      modifies this`graph
      ensures graph == SocketReads.Publish(old(graph), SocketReads.Lifecycle(tagged))
    {
      var sources := SocketReads.Lifecycle(tagged);
      var kept: seq<Record> := [];
      ghost var all := graph;
      var i := 0;
      while i < |graph|
        invariant 0 <= i <= |graph| && graph == all
        invariant kept == SocketReads.Publish(all[..i], sources)
      {
        assert all[..i + 1][..i] == all[..i];
        if !SocketReads.Unjustified(graph[i], sources) {
          kept := kept + [graph[i]];
        }
        i := i + 1;
      }
      assert all[..i] == all;
      graph := kept;
    }

    method CheckBrackets() returns (found: seq<Error>)
      ensures forall x :: x in found <==> Unbracketed(operations, {}, x)
    {
      found := [];
      var todo := operations.Keys;
      while todo != {}
        invariant todo <= operations.Keys
        invariant forall x :: x in found <==> Unbracketed(operations, todo, x)
        decreases |todo|
      {
        var op :| op in todo;
        var work := operations[op];
        if work.status == Some(0) && !(work.started && work.finished) {
          found := found + [NotBracketed(op)];
        }
        if work.status == Some(-125) && work.started {
          found := found + [CancelledExecuted(op)];
        }
        todo := todo - {op};
      }
    }

    method ValidateInvariants()
      modifies this`errors
      ensures Extended(old(errors), Findings(old(View())), errors)
    {
      hide Findings, Unbracketed, Unended, Unclosed, Unfinished, View;
      ghost var before := View();
      var found := CheckBrackets();
      FindingsSplit(before);
      if Unended(IpcNow()) {
        found := found + [UnfinishedJobs];
      }
      if Unclosed(WorksNow()) {
        found := found + [UnclosedWork];
      }
      var unfinished := Unfinished(WorksNow());
      if unfinished != {} {
        found := found + [LackCompletion(|unfinished|)];
      }
      ViewParts();
      assert Added(Findings(before), found);
      errors := errors + found;
    }

    lemma ViewParts()
      ensures View().works == WorksNow() && View().ipc == IpcNow() && View().works.operations == operations
              && View().errors == errors
    {
    }

    /** The whole run: every line in order, then the socket pass and final validation. */
    method Attribute(lines: seq<Line>, ghost seed: seq<Record>) returns (retroactive: nat)
      requires View() == Initial(seed)
      modifies this
      ensures var s := After(mapping, seed, lines);
              && tagged == Provenance.Rows(s) && graph == Provenance.Graphed(s)
              && retroactive == SocketReads.Resolved(s.effects.sockets.owned, s.effects.rows)
              && Extended(s.errors, Findings(s), errors)
              && (errors == [] && Provenance.Seeded(mapping, seed) && SocketReads.ValidMapping(mapping)
                  && Provenance.FaithfulRun(mapping, seed, lines) ==>
                    forall i :: 0 <= i < |tagged| ==> Provenance.Explained(mapping, s, i))
    {
      hide MarkerStep, TraceStep, Findings, Provenance.Seeded, SocketReads.ValidMapping, Provenance.FaithfulRun,
        Provenance.Explained,
        Provenance.Graphed, After;
      var i := 0;
      assert lines[..0] == [];
      Provenance.EmptyRun(mapping, seed);
      while i < |lines|
        invariant 0 <= i <= |lines| && View() == After(mapping, seed, lines[..i])
      {
        AfterPrefix(mapping, seed, lines, i);
        match lines[i] {
          case MarkerLine(at, n) => ProcessMarker(at, n);
          case CallLine(e) => ProcessTrace(e);
        }
        i := i + 1;
      }
      assert lines[..i] == lines;
      ghost var s := View();
      retroactive := BindSocketReads();
      DropUnjustified();
      FindingsFrame(s, View());
      ValidateInvariants();
      PublishedAs(s);
      if && errors == [] && Provenance.Seeded(mapping, seed) && SocketReads.ValidMapping(mapping)
         && Provenance.FaithfulRun(mapping, seed, lines)
      {
        forall i | 0 <= i < |tagged| ensures Provenance.Explained(mapping, s, i) {
          Provenance.RowsExplained(mapping, seed, lines, i);
        }
      }
    }
  }

  /** `x` reports a wrong execution bracket of an operation outside `todo`. */
  ghost predicate Unbracketed(operations: map<OpId, Work>, todo: set<OpId>, x: Error) {
    || (x.NotBracketed? && x.operation in operations && x.operation !in todo
        && operations[x.operation].status == Some(0)
        && !(operations[x.operation].started && operations[x.operation].finished))
    || (x.CancelledExecuted? && x.operation in operations && x.operation !in todo
        && operations[x.operation].status == Some(-125) && operations[x.operation].started)
  }

  ghost predicate Added(findings: set<Error>, found: seq<Error>) { forall x :: x in found <==> x in findings }

  /** `after` is `before` followed by exactly the findings, in some order. */
  ghost predicate Extended(before: seq<Error>, findings: set<Error>, after: seq<Error>) {
    before <= after && Added(findings, after[|before|..])
  }

  lemma FindingsSplit(s: State)
    ensures forall x :: x in Findings(s) <==>
      || Unbracketed(s.works.operations, {}, x)
      || (x == UnfinishedJobs && Unended(s.ipc))
      || (x == UnclosedWork && Unclosed(s.works))
      || (Unfinished(s.works) != {} && x == LackCompletion(|Unfinished(s.works)|))
  {
    hide Unbracketed, BracketFindings, Unended, Unclosed, Unfinished;
    forall x ensures x in BracketFindings(s.works.operations) <==> Unbracketed(s.works.operations, {}, x) {
      BracketsSplit(s.works.operations, x);
    }
  }

  lemma BracketsSplit(operations: map<OpId, Work>, x: Error)
    ensures x in BracketFindings(operations) <==> Unbracketed(operations, {}, x)
  {
  }

  lemma RowNamesContext(m: Mapping, e: Syscall, c: Option<Ctx>, socket: Option<D.ConnId>, owners: set<Context>)
    ensures NewRow(m, e, c, socket, owners).context == RequestOf(c) && NewRow(m, e, c, socket, owners).stamp == e.stamp
  {
  }

  lemma CreatedIsSocket(f: D.FdState, e: Syscall)
    ensures D.Step(f, e).created.Some? ==> D.Step(f, e).socket == D.Step(f, e).created
  {
    SocketReads.StepSockets(f, e);
  }

  // ----- a syscall, part by part ------------------------------------------------------------

  /** The socket has its node, and its owners their edges. */
  ghost function Drawn(k: Sockets, socket: Option<D.ConnId>, owners: set<Context>): Sockets {
    if socket.None? then k
    else Sockets(k.owned, k.drawn + {socket.value}, k.edges + set p | p in owners :: (p, socket.value))
  }

  ghost function SocketProcessed(m: Mapping, s: State, e: Syscall, out: D.Outcome, owned: SocketReads.Owned,
                                 owners: set<Context>): State {
    var k := s.effects.sockets;
    s.(effects := s.effects.(sockets := Drawn(k.(owned := owned), out.socket, owners)),
       graph := s.graph + SocketRecords(m, k, e, out, owners))
  }

  ghost function CallProcessed(m: Mapping, s: State, e: Syscall, context: Option<Ctx>, row: Row): State {
    var x := s.effects;
    s.(effects := Effects(Inherited(x.inherited, e, context), x.fds, x.sockets,
                          x.executed + (if row.context != 0 then {e.stamp.source} else {}), x.rows + [row]),
       graph := s.graph + SpawnRecords(m, e, context) + RowRecords(m, x.executed, row, context))
  }

  lemma RecordsIgnoreOwners(m: Mapping, k: Sockets, owned: SocketReads.Owned, e: Syscall, out: D.Outcome,
                            owners: set<Context>)
    ensures SocketRecords(m, k.(owned := owned), e, out, owners) == SocketRecords(m, k, e, out, owners)
  {
    if out.socket.Some? {
      assert Undrawn(k.(owned := owned), owners, out.socket.value) == Undrawn(k, owners, out.socket.value);
    }
  }

  lemma StepAssembled(m: Mapping, s: State, e: Syscall, out: D.Outcome)
    requires !e.instrumentation && out == D.Step(s.effects.fds, e)
    ensures var context := ContextOf(s, e.stamp);
            var owned := OwnersAfter(m, s.effects.sockets.owned, e, out, RequestOf(context));
            var owners := SocketOwners(owned, out.socket);
            var charged := Effective(e, out, context, owners);
            var tabled := s.(effects := s.effects.(fds := out.fds));
            CallProcessed(m, SocketProcessed(m, tabled, e, out, owned, owners), e, charged,
                          NewRow(m, e, charged, out.socket, owners))
            == TraceStep(m, s, e)
  {
    hide D.Step, OwnersAfter, SocketOwners, Effective, NewRow, Inherited, SpawnRecords, RowRecords, SocketRecords,
      ContextOf;
  }

  // ----- drawing owners -------------------------------------------------------------------

  ghost predicate DrawnPart(before: set<(Context, D.ConnId)>, owners: set<Context>, todo: set<Context>, conn: D.ConnId,
                            edges: set<(Context, D.ConnId)>)
  {
    forall p, c :: (p, c) in edges <==> (p, c) in before || (c == conn && p in owners && p !in todo)
  }

  lemma DrawnBounds(m: Mapping, k: Sockets, owners: set<Context>, conn: D.ConnId)
    ensures DrawnPart(k.edges, owners, owners, conn, k.edges)
    ensures ConnectedEdges(m, Undrawn(k, {}, conn), conn) == []
  {
    assert Undrawn(k, {}, conn) == {};
  }

  lemma DrawnOne(before: set<(Context, D.ConnId)>, owners: set<Context>, todo: set<Context>, conn: D.ConnId,
                 edges: set<(Context, D.ConnId)>, parent: Context)
    requires DrawnPart(before, owners, todo, conn, edges) && parent in todo && todo <= owners
    ensures (parent, conn) in edges <==> (parent, conn) in before
    ensures DrawnPart(before, owners, todo - {parent}, conn, edges + {(parent, conn)})
    ensures (parent, conn) in edges ==> DrawnPart(before, owners, todo - {parent}, conn, edges)
  {
  }

  lemma DrawnAll(before: set<(Context, D.ConnId)>, owners: set<Context>, conn: D.ConnId,
                 edges: set<(Context, D.ConnId)>)
    requires DrawnPart(before, owners, {}, conn, edges)
    ensures edges == before + set p | p in owners :: (p, conn)
  {
    var all := before + set p | p in owners :: (p, conn);
    forall x ensures x in edges <==> x in all { assert x == (x.0, x.1); }
  }

  lemma PublishedAs(s: State)
    ensures Provenance.Graphed(s) ==
            SocketReads.Publish(s.graph,
                                SocketReads.Lifecycle(SocketReads.BindAll(s.effects.sockets.owned, s.effects.rows)))
    ensures Provenance.Rows(s) == SocketReads.BindAll(s.effects.sockets.owned, s.effects.rows)
  {
  }

  lemma FindingsFrame(s: State, g: State)
    requires g.works == s.works && g.ipc == s.ipc
    ensures Findings(g) == Findings(s)
  {
  }

  lemma LeastUndrawn(m: Mapping, k: Sockets, todo: set<Context>, conn: D.ConnId, least: Context)
    requires IsLeast(least, todo)
    ensures ConnectedEdges(m, Undrawn(k, todo, conn), conn) ==
            (if (least, conn) in k.edges then [] else [Edge(ContextNode(m, least), SocketNode(conn), Connected)])
            + ConnectedEdges(m, Undrawn(k, todo - {least}, conn), conn)
  {
    var rest := Undrawn(k, todo - {least}, conn);
    if (least, conn) in k.edges {
      assert Undrawn(k, todo, conn) == rest;
    } else {
      assert IsLeast(least, Undrawn(k, todo, conn));
      assert Undrawn(k, todo, conn) - {least} == rest;
    }
  }

  // ----- copying a table, part by part ----------------------------------------------------

  ghost predicate Copies(f: D.FdState, table: nat, done: set<D.Key>, key: D.Key) {
    key.table == f.serial + 1 && D.Key(table, key.fd) in done && D.Key(table, key.fd) in f.sockets
  }

  /** `g` is `f` with the `done` keys of `table` also present in table `serial + 1`. */
  ghost predicate CopiedPart(f: D.FdState, table: nat, done: set<D.Key>, g: D.FdState) {
    && g.tables == f.tables && g.generation == f.generation && g.serial == f.serial + 1
    && (forall key: D.Key :: key in g.sockets <==> key in f.sockets || Copies(f, table, done, key))
    && (forall key: D.Key :: key in g.sockets ==>
          g.sockets[key] == if Copies(f, table, done, key) then f.sockets[D.Key(table, key.fd)] else f.sockets[key])
    && (forall key: D.Key :: key in g.cloexec <==>
          key in f.cloexec || (Copies(f, table, done, key) && D.Key(table, key.fd) in f.cloexec))
  }

  lemma CopiedNone(f: D.FdState, table: nat)
    ensures CopiedPart(f, table, {}, f.(serial := f.serial + 1))
  {
  }

  lemma CopyAt(f: D.FdState, table: nat, key: D.Key)
    ensures var copies := Copies(f, table, f.sockets.Keys, key);
            var h := D.CopyTable(f, table);
            && h.tables == f.tables && h.generation == f.generation && h.serial == f.serial + 1
            && (key in h.sockets <==> key in f.sockets || copies)
            && (key in h.sockets ==>
                  h.sockets[key] == if copies then f.sockets[D.Key(table, key.fd)] else f.sockets[key])
            && (key in h.cloexec <==> key in f.cloexec || (copies && D.Key(table, key.fd) in f.cloexec))
  {
    assert D.Key(table, key.fd) in f.sockets && key.table == f.serial + 1 ==>
           key in D.CopiedSockets(f, table, f.serial + 1);
  }

  lemma CopiedAll(f: D.FdState, table: nat, g: D.FdState)
    requires CopiedPart(f, table, f.sockets.Keys, g)
    ensures g == D.CopyTable(f, table)
  {
    hide D.CopiedSockets, D.CopiedFlags;
    var h := D.CopyTable(f, table);
    hide D.CopyTable, Copies;
    forall key: D.Key
      ensures key in h.sockets <==> key in g.sockets
      ensures key in h.sockets ==> h.sockets[key] == g.sockets[key]
      ensures key in h.cloexec <==> key in g.cloexec
    {
      CopyAt(f, table, key);
    }
    CopyAt(f, table, D.Key(0, 0));
    assert g.sockets == h.sockets;
    assert g.cloexec == h.cloexec;
  }

  lemma CopiedOne(f: D.FdState, table: nat, done: set<D.Key>, g: D.FdState, k: D.Key, h: D.FdState)
    requires CopiedPart(f, table, done, g) && k in f.sockets && k !in done
    requires h.tables == g.tables && h.generation == g.generation && h.serial == g.serial
    requires h.sockets == if k.table == table then g.sockets[D.Key(g.serial, k.fd) := f.sockets[k]] else g.sockets
    requires h.cloexec == if k.table == table && k in g.cloexec then g.cloexec + {D.Key(g.serial, k.fd)} else g.cloexec
    ensures CopiedPart(f, table, done + {k}, h)
  {
  }

  /** The first i rows are bound, the others as they were. */
  ghost predicate PartlyBound(owned: SocketReads.Owned, rows: seq<Row>, part: seq<Row>, i: nat) {
    i <= |rows| && part == SocketReads.BindAll(owned, rows[..i]) + rows[i..]
  }

  lemma BoundStart(owned: SocketReads.Owned, rows: seq<Row>)
    ensures PartlyBound(owned, rows, rows, 0) && SocketReads.Resolved(owned, rows[..0]) == 0
  {
    SocketReads.PassStart(owned, rows);
  }

  lemma BoundStep(owned: SocketReads.Owned, rows: seq<Row>, part: seq<Row>, i: nat)
    requires i < |rows| && PartlyBound(owned, rows, part, i)
    ensures |part| == |rows| && part[i] == rows[i]
    ensures PartlyBound(owned, rows, part[i := SocketReads.Bind(owned, rows[i])], i + 1)
    ensures i + 1 < |rows| ==> part[i + 1] == rows[i + 1]
    ensures SocketReads.Resolved(owned, rows[..i + 1]) ==
            SocketReads.Resolved(owned, rows[..i]) + if SocketReads.Resolves(owned, rows[i]) then 1 else 0
  {
    hide SocketReads.Bind, SocketReads.Resolves;
    SocketReads.PassStep(owned, rows, i);
  }

  lemma BoundEnd(owned: SocketReads.Owned, rows: seq<Row>, part: seq<Row>)
    requires PartlyBound(owned, rows, part, |rows|)
    ensures part == SocketReads.BindAll(owned, rows)
  {
    assert rows[..|rows|] == rows && rows[|rows|..] == [];
  }
}
