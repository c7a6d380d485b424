/** The provenance graph: nothing dangles, and walking back from an attributed syscall ends
    at exactly the context its row names. */
module Provenance {
  import opened Trace
  import opened Attribution
  import opened Replay
  import opened MarkerFacts
  import IpcProtocol
  import SocketReads
  import D = Descriptors

  type Graph = seq<Record>

  // ----- walking -----------------------------------------------------------------------------

  /** The edges that carry a request from its context to what it caused. */
  predicate Walked(kind: EdgeKind) {
    kind.IpcSent? || kind.CreatedTask? || kind.Polled? || kind.Submitted? || kind.Spawned? || kind.Executed?
  }

  predicate Walk(r: Record) { r.Edge? && Walked(r.kind) }

  ghost predicate Back(g: Graph, n: NodeId, p: NodeId) { exists kind :: Walked(kind) && Edge(p, n, kind) in g }

  /** `target` is exactly `steps` edges behind `n`. */
  ghost predicate Reaches(g: Graph, n: NodeId, target: NodeId, steps: nat)
    decreases steps
  {
    if steps == 0 then n == target else exists p :: Back(g, n, p) && Reaches(g, p, target, steps - 1)
  }

  predicate IsContext(n: NodeId) { n.RequestNode? || n.JoinNode? }

  // ----- well-formed graphs ----------------------------------------------------------------------

  ghost predicate Closed(g: Graph) {
    forall r :: r in g && r.Edge? ==> Node(r.source) in g && Node(r.target) in g
  }

  ghost predicate Unique(g: Graph) {
    forall r, q :: r in g && q in g && Walk(r) && Walk(q) && r.target == q.target ==> r == q
  }

  predicate Shaped(r: Record) {
    Walk(r) ==> !IsContext(r.target) && !r.source.SyscallNode? && (r.kind.Executed? <==> r.target.SyscallNode?)
  }

  ghost predicate WellFormed(g: Graph) { Closed(g) && Unique(g) && forall r :: r in g ==> Shaped(r) }

  /** New records may point anywhere present, but walked edges only at new nodes, once each. */
  lemma Extend(g: Graph, added: Graph)
    requires WellFormed(g)
    requires forall r :: r in added && r.Edge? ==> Node(r.source) in g + added && Node(r.target) in g + added
    requires forall r :: r in added ==> Shaped(r)
    requires forall r :: r in added && Walk(r) ==> Node(r.target) !in g
    requires forall r, q :: r in added && q in added && Walk(r) && Walk(q) && r.target == q.target ==> r == q
    ensures WellFormed(g + added)
  {
  }

  lemma {:induction false} ReachMono(g: Graph, added: Graph, n: NodeId, target: NodeId, steps: nat)
    requires Reaches(g, n, target, steps)
    ensures Reaches(g + added, n, target, steps)
    decreases steps
  {
    if steps > 0 {
      var p :| Back(g, n, p) && Reaches(g, p, target, steps - 1);
      ReachMono(g, added, p, target, steps - 1);
      var kind :| Walked(kind) && Edge(p, n, kind) in g;
      assert Edge(p, n, kind) in g + added;
      assert Back(g + added, n, p);
    }
  }

  /** The walk has no choices: whatever lies behind `n` lies on the way to the context. */
  lemma {:induction false} WalkIsDetermined(g: Graph, n: NodeId, end: NodeId, steps: nat, other: NodeId, taken: nat)
    requires WellFormed(g) && IsContext(end) && Reaches(g, n, end, steps) && Reaches(g, n, other, taken)
    ensures taken <= steps && Reaches(g, other, end, steps - taken)
    decreases taken
  {
    if taken > 0 {
      var q :| Back(g, n, q) && Reaches(g, q, other, taken - 1);
      var kindQ :| Walked(kindQ) && Edge(q, n, kindQ) in g;
      assert Shaped(Edge(q, n, kindQ));
      var p :| Back(g, n, p) && Reaches(g, p, end, steps - 1);
      var kindP :| Walked(kindP) && Edge(p, n, kindP) in g;
      assert Edge(q, n, kindQ) == Edge(p, n, kindP);
      WalkIsDetermined(g, p, end, steps - 1, other, taken - 1);
    }
  }

  // ----- what the state claims about each node -------------------------------------------------------

  function RowContext(rows: seq<Row>, source: Source): Option<Context> {
    if rows == [] then None
    else if rows[|rows| - 1].stamp.source == source then Some(rows[|rows| - 1].context)
    else RowContext(rows[..|rows| - 1], source)
  }

  /** The request a node stands for; None if the state knows no such node. */
  function Claim(m: Mapping, s: State, n: NodeId): Option<Context> {
    match n
    case RequestNode(c) => if c in m.owners && c in m.roots then Some(c) else None
    case JoinNode(c) => if c in m.owners && c !in m.roots then Some(c) else None
    case IpcNode(job) => if job.Some? && job.value in s.ipc.jobs then Some(s.ipc.jobs[job.value].request) else None
    case CancelNode(job) =>
      if job.Some? && job.value in s.ipc.jobs && s.ipc.jobs[job.value].cancelled then Some(0) else None
    case WorkNode(op) => if op in s.works.operations then Some(s.works.operations[op].request) else None
    case TaskNode(span) => if span in s.works.spans then Some(s.works.spans[span]) else None
    case ProcessNode(pid) => if pid in s.effects.inherited then Some(s.effects.inherited[pid].request) else None
    case SocketNode(conn) => if conn in s.effects.sockets.drawn then Some(0) else None
    case SyscallNode(source) => RowContext(s.effects.rows, source)
  }

  ghost predicate Grounded(m: Mapping, g: Graph, n: NodeId, c: Context) {
    exists steps: nat :: Reaches(g, n, ContextNode(m, c), steps)
  }

  /** The graph shows `n` exactly if the state knows it, connected to its context. */
  ghost predicate Accounted(m: Mapping, s: State, n: NodeId) {
    var claim := Claim(m, s, n);
    && (Node(n) in s.graph ==> claim.Some?)
    && (claim.Some? && (!n.SyscallNode? || claim.value != 0) ==> Node(n) in s.graph)
    && (claim.Some? && claim.value != 0 ==> Grounded(m, s.graph, n, claim.value))
  }

  /** A context names a registered request, and the node it runs as stands for that request. */
  predicate Backed(m: Mapping, s: State, c: Ctx, pid: Pid) {
    c.request == 0 || (c.request in m.owners && Claim(m, s, ActorNode(m, c, pid)) == Some(c.request))
  }

  ghost predicate Contexts(m: Mapping, s: State) {
    && (forall t :: t in s.threads ==> !s.threads[t].origin.ProcessInheritance? && Backed(m, s, s.threads[t], 0))
    && (forall p :: p in s.effects.inherited ==>
          s.effects.inherited[p].origin.ProcessInheritance? && Backed(m, s, s.effects.inherited[p], p))
  }

  ghost predicate SocketsDrawn(m: Mapping, x: Effects) {
    && (forall c :: c in x.sockets.owned ==> c in x.sockets.drawn && x.sockets.owned[c] <= m.roots)
    && SocketReads.Numbered(x)
    && (forall source :: source in x.executed ==> RowContext(x.rows, source).Some?)
  }

  ghost predicate Inv(m: Mapping, s: State) {
    && WellFormed(s.graph)
    && (forall n :: Accounted(m, s, n))
    && Contexts(m, s)
    && SocketsDrawn(m, s.effects)
  }

  /** The records of a request map: its context nodes and the joined edges between them. */
  ghost predicate Seeded(m: Mapping, g: Graph) {
    && WellFormed(g)
    && (forall c :: c in m.owners ==> Node(ContextNode(m, c)) in g)
    && (forall r :: r in g && r.Node? ==> Claim(m, Initial([]), r.id).Some?)
  }

  lemma SeedInv(m: Mapping, g: Graph)
    requires Seeded(m, g)
    ensures Inv(m, Initial(g))
  {
    var s := Initial(g);
    forall n ensures Accounted(m, s, n) {
      assert Claim(m, s, n) == Claim(m, Initial([]), n);
      if Claim(m, s, n).Some? {
        assert Reaches(g, n, ContextNode(m, Claim(m, s, n).value), 0);
      }
    }
  }

  /** Bridges name their own operations; forked children and trace positions are new. */
  ghost predicate Faithful(s: State, line: Line) {
    match line
    case MarkerLine(_, n) =>
      Transition(n.kind) && n.operation != 0 && n.request != 0 ==>
        n.operation in s.works.operations && s.works.operations[n.operation].request == n.request
    case CallLine(e) =>
      && (Forks(e) ==> e.ret.value !in s.effects.inherited)
      && RowContext(s.effects.rows, e.stamp.source).None?
  }

  // ----- growth ------------------------------------------------------------------------------

  ghost predicate Keeps(m: Mapping, s: State, g: State) {
    forall n :: Claim(m, s, n).Some? ==> Claim(m, g, n) == Claim(m, s, n)
  }

  lemma GroundedMono(m: Mapping, g: Graph, added: Graph, n: NodeId, c: Context)
    requires Grounded(m, g, n, c)
    ensures Grounded(m, g + added, n, c)
  {
    var steps: nat :| Reaches(g, n, ContextNode(m, c), steps);
    ReachMono(g, added, n, ContextNode(m, c), steps);
  }

  lemma GroundedStep(m: Mapping, g: Graph, n: NodeId, p: NodeId, kind: EdgeKind, c: Context)
    requires Grounded(m, g, p, c) && Walked(kind) && Edge(p, n, kind) in g
    ensures Grounded(m, g, n, c)
  {
    var steps: nat :| Reaches(g, p, ContextNode(m, c), steps);
    assert Back(g, n, p);
    assert Reaches(g, n, ContextNode(m, c), steps + 1);
  }

  /** Old claims survive an extension; only the new nodes have to be accounted for. */
  lemma Accounts(m: Mapping, s: State, g: State, added: Graph)
    requires Inv(m, s) && g.graph == s.graph + added && Keeps(m, s, g)
    requires forall n :: Node(n) in added ==> Claim(m, g, n).Some?
    requires forall n :: Claim(m, g, n) != Claim(m, s, n) ==> Accounted(m, g, n)
    ensures forall n :: Accounted(m, g, n)
  {
    forall n ensures Accounted(m, g, n) {
      assert Accounted(m, s, n);
      var claim := Claim(m, s, n);
      if Claim(m, g, n) == claim && claim.Some? && claim.value != 0 {
        GroundedMono(m, s.graph, added, n, claim.value);
      }
    }
  }

  lemma BackedKept(m: Mapping, s: State, g: State, c: Ctx, pid: Pid)
    requires Keeps(m, s, g) && Backed(m, s, c, pid)
    ensures Backed(m, g, c, pid)
  {
  }

  lemma ContextsKept(m: Mapping, s: State, g: State)
    requires Keeps(m, s, g) && Contexts(m, s) && g.threads == s.threads && g.effects.inherited == s.effects.inherited
    ensures Contexts(m, g)
  {
    hide Claim;
    forall t | t in g.threads ensures Backed(m, g, g.threads[t], 0) { BackedKept(m, s, g, s.threads[t], 0); }
    forall p | p in g.effects.inherited ensures Backed(m, g, g.effects.inherited[p], p) {
      BackedKept(m, s, g, s.effects.inherited[p], p);
    }
  }

  /** Nothing new in the graph, the same claims, and at most one new thread context. */
  lemma Restart(m: Mapping, s: State, g: State, t: Tid, c: Ctx)
    requires Inv(m, s) && g.graph == s.graph && g.effects == s.effects
    requires g.threads == s.threads[t := c] || g.threads == s.threads
    requires forall n :: Claim(m, g, n) == Claim(m, s, n)
    requires !c.origin.ProcessInheritance? && Backed(m, g, c, 0)
    ensures Inv(m, g)
  {
    forall n ensures Accounted(m, g, n) { assert Accounted(m, s, n); }
    hide Accounted, Claim;
  }

  lemma KnownRequest(m: Mapping, s: State, at: Stamp, n: Marker)
    requires MarkerStep(m, s, at, n).errors == s.errors
    ensures n.request == 0 || n.request in m.owners
    ensures Transition(n.kind) ==> at.tid !in s.ipc.running
  {
    DispatchErrors(m, s, at, n);
    DispatchErrors(m, Fail(s, UnknownContext(n.request)), at, n);
    if IpcProtocol.IpcKind(n.kind) {} else {
      IpcProtocol.DispatchOther(m, s, at, n);
      IpcProtocol.DispatchOther(m, Fail(s, UnknownContext(n.request)), at, n);
    }
    hide Dispatch;
  }

  // ----- markers -------------------------------------------------------------------------------

  lemma ContextClaim(m: Mapping, s: State, c: Context)
    requires c in m.owners
    ensures Claim(m, s, ContextNode(m, c)) == Some(c)
  {
  }

  lemma EnterLeaveInv(m: Mapping, s: State, at: Stamp, n: Marker)
    requires Inv(m, s) && (n.kind.IpcEnter? || n.kind.IpcLeave?) && MarkerStep(m, s, at, n).errors == s.errors
    ensures Inv(m, MarkerStep(m, s, at, n))
  {
    hide Inv, MarkerStep;
    KnownRequest(m, s, at, n);
    IpcProtocol.IpcMarker(m, s, at, n);
    var g := MarkerStep(m, s, at, n);
    Restart(m, s, g, at.tid, g.threads[at.tid]);
  }

  lemma CancelEffect(m: Mapping, s: State, at: Stamp, n: Marker)
    requires n.kind.IpcCancel? && MarkerStep(m, s, at, n).errors == s.errors
    ensures var g := MarkerStep(m, s, at, n);
            && g.graph ==
                 s.graph + [Node(CancelNode(n.job)), Edge(IpcNode(n.job), CancelNode(n.job), CancelledBeforeExecution)]
            && g.threads == s.threads && g.effects == s.effects
            && Claim(m, s, IpcNode(n.job)).Some? && Claim(m, g, CancelNode(n.job)) == Some(0)
            && forall x :: x != CancelNode(n.job) ==> Claim(m, g, x) == Claim(m, s, x)
    ensures Claim(m, s, CancelNode(n.job)).Some? ==> Claim(m, s, CancelNode(n.job)) == Some(0)
  {
    hide MarkerStep;
    IpcProtocol.IpcMarker(m, s, at, n);
  }

  lemma CancelInv(m: Mapping, s: State, at: Stamp, n: Marker)
    requires Inv(m, s) && n.kind.IpcCancel? && MarkerStep(m, s, at, n).errors == s.errors
    ensures Inv(m, MarkerStep(m, s, at, n))
  {
    hide MarkerStep, Grounded, Claim;
    CancelEffect(m, s, at, n);
    var g := MarkerStep(m, s, at, n);
    var added := [Node(CancelNode(n.job)), Edge(IpcNode(n.job), CancelNode(n.job), CancelledBeforeExecution)];
    assert Accounted(m, s, IpcNode(n.job)) && Accounted(m, s, CancelNode(n.job));
    assert added[0] in g.graph;
    Accounts(m, s, g, added);
    Extend(s.graph, added);
    ContextsKept(m, s, g);
  }

  lemma SendEffect(m: Mapping, s: State, at: Stamp, n: Marker)
    requires n.kind.IpcSend? && MarkerStep(m, s, at, n).errors == s.errors
    ensures ContextOf(s, at).Some? && ContextOf(s, at).value.request == n.request
    ensures n.request == 0 || n.request in m.owners
    ensures var g := MarkerStep(m, s, at, n);
            && g.graph == s.graph + SendRecords(m, ContextOf(s, at), n)
            && g.threads == s.threads && g.effects == s.effects
            && Claim(m, s, IpcNode(n.job)).None? && Claim(m, g, IpcNode(n.job)) == Some(n.request)
            && forall x :: x != IpcNode(n.job) ==> Claim(m, g, x) == Claim(m, s, x)
  {
    hide MarkerStep;
    KnownRequest(m, s, at, n);
    IpcProtocol.IpcMarker(m, s, at, n);
  }

  lemma SendInv(m: Mapping, s: State, at: Stamp, n: Marker)
    requires Inv(m, s) && n.kind.IpcSend? && MarkerStep(m, s, at, n).errors == s.errors
    ensures Inv(m, MarkerStep(m, s, at, n))
  {
    hide MarkerStep, WellFormed, Grounded, Claim;
    SendEffect(m, s, at, n);
    var g := MarkerStep(m, s, at, n);
    var sender := ContextOf(s, at).value;
    var added := SendRecords(m, Some(sender), n);
    var job := IpcNode(n.job);
    var parent := if sender.origin.IpcWorker? then IpcNode(sender.job) else ContextNode(m, n.request);
    SenderBacked(m, s, at, n);
    assert Accounted(m, s, parent) && Accounted(m, s, job);
    assert added[0] == Node(job) && Node(job) in g.graph;
    if n.request != 0 { SentGrounded(m, s.graph, added, job, parent, n.request); }
    Accounts(m, s, g, added);
    Extend(s.graph, added);
    ContextsKept(m, s, g);
  }

  lemma SentGrounded(m: Mapping, g: Graph, added: Graph, job: NodeId, parent: NodeId, request: Context)
    requires Grounded(m, g, parent, request) && |added| == 2 && added[1] == Edge(parent, job, IpcSent)
    ensures Grounded(m, g + added, job, request)
  {
    GroundedMono(m, g, added, parent, request);
    assert (g + added)[|g| + 1] == added[1];
    GroundedStep(m, g + added, job, parent, IpcSent, request);
  }

  /** The node a job is sent from stands for the sender's request. */
  lemma SenderBacked(m: Mapping, s: State, at: Stamp, n: Marker)
    requires Contexts(m, s) && ContextOf(s, at).Some? && ContextOf(s, at).value.request == n.request
    requires n.request == 0 || n.request in m.owners
    ensures var sender := ContextOf(s, at).value;
            var parent := if sender.origin.IpcWorker? then IpcNode(sender.job) else ContextNode(m, n.request);
            n.request != 0 ==> Claim(m, s, parent) == Some(n.request)
  {
    var sender := ContextOf(s, at).value;
    assert Backed(m, s, sender, 0) || Backed(m, s, sender, at.pid);
  }

  /** Context changes and work flags: no record, no new claim. */
  lemma PlainMarker(m: Mapping, s: State, at: Stamp, n: Marker)
    requires !IpcProtocol.IpcKind(n.kind) && !n.kind.Submit? && MarkerStep(m, s, at, n).errors == s.errors
    ensures var g := MarkerStep(m, s, at, n);
            && g.graph == s.graph && g.effects == s.effects && g.ipc == s.ipc && g.works.spans == s.works.spans
            && g.works.operations.Keys == s.works.operations.Keys
            && (forall op ::
                op in s.works.operations ==> g.works.operations[op].request == s.works.operations[op].request)
            && g.threads ==
                 (if Transition(n.kind)
                  then s.threads[at.tid :=
                                 Ctx(n.request, n.operation, TransitionOrigin(n.kind), None, Observed(at.source))]
                             else s.threads)
  {
    KnownRequest(m, s, at, n);
  }

  lemma PlainInv(m: Mapping, s: State, at: Stamp, n: Marker)
    requires Inv(m, s) && !IpcProtocol.IpcKind(n.kind) && !n.kind.Submit? && MarkerStep(m, s, at, n).errors == s.errors
    requires Faithful(s, MarkerLine(at, n))
    ensures Inv(m, MarkerStep(m, s, at, n))
  {
    hide Inv, MarkerStep;
    KnownRequest(m, s, at, n);
    PlainMarker(m, s, at, n);
    var g := MarkerStep(m, s, at, n);
    var c := if Transition(n.kind) then g.threads[at.tid] else Ctx(0, 0, AsyncContext, None, Observed(at.source));
    if n.request != 0 { ContextClaim(m, g, n.request); }
    Restart(m, s, g, at.tid, c);
  }

  lemma SubmitEffect(m: Mapping, s: State, at: Stamp, n: Marker)
    requires n.kind.Submit? && MarkerStep(m, s, at, n).errors == s.errors
    ensures n.operation !in s.works.operations
    ensures n.spanPoll && n.pointer in s.works.spans ==> s.works.spans[n.pointer] == n.request
    ensures var g := MarkerStep(m, s, at, n);
            && g.graph == s.graph + SubmitRecords(m, s.works, n) && g.effects == s.effects && g.ipc == s.ipc
            && g.threads == s.threads
            && g.works.operations == s.works.operations[n.operation := Work(n.request, false, false, false, None)]
            && g.works.spans ==
                 if n.spanPoll && n.pointer !in s.works.spans then s.works.spans[n.pointer := n.request]
                   else s.works.spans
  {
    KnownRequest(m, s, at, n);
    hide SubmitRecords;
    assert |SubmitErrors(s.works, n)| == 0;
  }

  /** The shape of a submission's records: work node, perhaps a span, one walked edge each. */
  lemma SubmitShape(m: Mapping, w: Works, n: Marker)
    ensures var added := SubmitRecords(m, w, n);
            var root := ContextNode(m, n.request);
            var work := WorkNode(n.operation);
            var task := TaskNode(n.pointer);
            && Node(work) in added
            && (forall r :: r in added ==>
                  || r == Node(work)
                  || (n.spanPoll && n.pointer !in w.spans && r == Node(task))
                  || (n.spanPoll && n.pointer !in w.spans && n.request != 0 && r == Edge(root, task, CreatedTask))
                  || (n.spanPoll && r == Edge(task, work, Polled))
                  || (!n.spanPoll && n.request != 0 && r == Edge(root, work, Submitted)))
            && (n.spanPoll ==> Edge(task, work, Polled) in added)
            && (n.spanPoll && n.pointer !in w.spans ==> Node(task) in added)
            && (n.spanPoll && n.pointer !in w.spans && n.request != 0 ==> Edge(root, task, CreatedTask) in added)
            && (!n.spanPoll && n.request != 0 ==> Edge(root, work, Submitted) in added)
  {
    var added := SubmitRecords(m, w, n);
    assert added[0] == Node(WorkNode(n.operation));
    if n.spanPoll {
      assert added[|added| - 1] == Edge(TaskNode(n.pointer), WorkNode(n.operation), Polled);
      if n.pointer !in w.spans {
        assert added[1] == Node(TaskNode(n.pointer));
        if n.request != 0 { assert added[2] == Edge(ContextNode(m, n.request), TaskNode(n.pointer), CreatedTask); }
      }
    } else if n.request != 0 {
      assert added[1] == Edge(ContextNode(m, n.request), WorkNode(n.operation), Submitted);
    }
  }

  /** Only the work node and a newly seen span get new claims. */
  predicate NewBySubmit(w: Works, n: Marker, x: NodeId) {
    x == WorkNode(n.operation) || (x == TaskNode(n.pointer) && n.spanPoll && n.pointer !in w.spans)
  }

  lemma SubmitClaims(m: Mapping, s: State, g: State, n: Marker, x: NodeId)
    requires n.operation !in s.works.operations && g.effects == s.effects && g.ipc == s.ipc
    requires g.works.operations == s.works.operations[n.operation := Work(n.request, false, false, false, None)]
    requires g.works.spans ==
             if n.spanPoll && n.pointer !in s.works.spans then s.works.spans[n.pointer := n.request] else s.works.spans
    ensures Claim(m, g, x) == if NewBySubmit(s.works, n, x) then Some(n.request) else Claim(m, s, x)
    ensures NewBySubmit(s.works, n, x) ==> Claim(m, s, x).None?
  {
  }

  lemma SubmitInv(m: Mapping, s: State, at: Stamp, n: Marker)
    requires Inv(m, s) && n.kind.Submit? && MarkerStep(m, s, at, n).errors == s.errors
    ensures Inv(m, MarkerStep(m, s, at, n))
  {
    hide MarkerStep, SubmitRecords, WellFormed, SocketsDrawn, Contexts, Claim, Grounded;
    KnownRequest(m, s, at, n);
    SubmitEffect(m, s, at, n);
    SubmitShape(m, s.works, n);
    var g := MarkerStep(m, s, at, n);
    var added := SubmitRecords(m, s.works, n);
    var work := WorkNode(n.operation);
    var task := TaskNode(n.pointer);
    var root := ContextNode(m, n.request);
    assert Accounted(m, s, work) && Accounted(m, s, task) && Accounted(m, s, root);
    if n.request != 0 { ContextClaim(m, s, n.request); }
    SpanClaim(m, s, n.pointer);
    SubmitClaims(m, s, g, n, work);
    SubmitClaims(m, s, g, n, task);
    SubmitGrounded(m, s, g, n);
    forall x ensures Claim(m, g, x) == (if NewBySubmit(s.works, n, x) then Some(n.request) else Claim(m, s, x))
      ensures NewBySubmit(s.works, n, x) ==> Claim(m, s, x).None?
    {
      SubmitClaims(m, s, g, n, x);
    }
    Accounts(m, s, g, added);
    Extend(s.graph, added);
    ContextsKept(m, s, g);
  }

  lemma SpanClaim(m: Mapping, s: State, span: SpanId)
    ensures Claim(m, s, TaskNode(span)) == if span in s.works.spans then Some(s.works.spans[span]) else None
  {
  }

  lemma SubmitGrounded(m: Mapping, s: State, g: State, n: Marker)
    requires (n.request == 0 || n.request in m.owners) && g.graph == s.graph + SubmitRecords(m, s.works, n)
    requires n.spanPoll && n.pointer in s.works.spans && n.request != 0 ==>
               Accounted(m, s, TaskNode(n.pointer)) && s.works.spans[n.pointer] == n.request
    ensures n.request != 0 ==> Grounded(m, g.graph, WorkNode(n.operation), n.request)
    ensures n.request != 0 && n.spanPoll ==> Grounded(m, g.graph, TaskNode(n.pointer), n.request)
  {
    if n.request != 0 {
      SubmitShape(m, s.works, n);
      var added := SubmitRecords(m, s.works, n);
      hide SubmitRecords;
      var root := ContextNode(m, n.request);
      assert Reaches(g.graph, root, root, 0);
      assert Grounded(m, g.graph, root, n.request);
      if n.spanPoll {
        if n.pointer in s.works.spans {
          GroundedMono(m, s.graph, added, TaskNode(n.pointer), n.request);
        } else {
          GroundedStep(m, g.graph, TaskNode(n.pointer), root, CreatedTask, n.request);
        }
        GroundedStep(m, g.graph, WorkNode(n.operation), TaskNode(n.pointer), Polled, n.request);
      } else {
        GroundedStep(m, g.graph, WorkNode(n.operation), root, Submitted, n.request);
      }
    }
  }

  // ----- syscalls --------------------------------------------------------------------------------

  lemma ConnectedEdge(m: Mapping, owners: set<Context>, conn: D.ConnId, r: Record)
    requires r in ConnectedEdges(m, owners, conn)
    ensures exists p :: p in owners && r == Edge(ContextNode(m, p), SocketNode(conn), Connected)
  {
    var first := Least(owners);
    if r in ConnectedEdges(m, owners - {first}, conn) {
      ConnectedEdge(m, owners - {first}, conn, r);
    }
  }

  /** What a record about a socket can be. */
  ghost predicate SocketRecord(m: Mapping, e: Syscall, out: D.Outcome, owners: set<Context>, r: Record) {
    out.socket.Some? &&
    var conn := SocketNode(out.socket.value);
    var call := SyscallNode(e.stamp.source);
    || r == Node(conn)
    || (out.created.Some? && r == Node(SocketNode(out.created.value)))
    || (out.listener.Some? && out.created.Some?
        && r == Edge(SocketNode(out.listener.value), SocketNode(out.created.value), AcceptedConnection))
    || (out.created.Some? && r == Edge(call, SocketNode(out.created.value), Accepted))
    || (exists p :: p in owners && r == Edge(ContextNode(m, p), conn, Connected))
    || r == Edge(conn, call, SocketEffect)
  }

  lemma SocketShape(m: Mapping, k: Sockets, e: Syscall, out: D.Outcome, owners: set<Context>)
    ensures forall r :: r in SocketRecords(m, k, e, out, owners) ==> SocketRecord(m, e, out, owners, r)
    ensures out.socket.Some? && (out.created.Some? ==> out.created == out.socket) ==>
              out.socket.value in k.drawn || Node(SocketNode(out.socket.value)) in SocketRecords(m, k, e, out, owners)
  {
    if out.socket.Some? {
      var conn := out.socket.value;
      var undrawn := Undrawn(k, owners, conn);
      forall r | r in ConnectedEdges(m, undrawn, conn) ensures SocketRecord(m, e, out, owners, r) {
        ConnectedEdge(m, undrawn, conn, r);
      }
      if out.listener.Some? && out.created.Some? {
        assert AcceptRecords(e, out)[0] == Node(SocketNode(out.created.value));
      }
      hide SocketRecord, ConnectedEdges;
      assert forall r :: r in AcceptRecords(e, out) ==> SocketRecord(m, e, out, owners, r) by {
        AcceptShape(m, e, out, owners);
      }
      NodeShape(m, e, out, owners);
    }
  }

  lemma AcceptShape(m: Mapping, e: Syscall, out: D.Outcome, owners: set<Context>)
    requires out.socket.Some?
    ensures forall r :: r in AcceptRecords(e, out) ==> SocketRecord(m, e, out, owners, r)
  {
  }

  lemma NodeShape(m: Mapping, e: Syscall, out: D.Outcome, owners: set<Context>)
    requires out.socket.Some?
    ensures SocketRecord(m, e, out, owners, Node(SocketNode(out.socket.value)))
    ensures SocketRecord(m, e, out, owners,
                         Edge(SocketNode(out.socket.value), SyscallNode(e.stamp.source), SocketEffect))
  {
  }

  /** The context an event is charged to is backed by a node, and sockets are owned by
      registered requests. */
  lemma ReadFacts(m: Mapping, s: State, e: Syscall)
    requires SocketReads.ValidMapping(m) && Contexts(m, s) && SocketsDrawn(m, s.effects)
    ensures var r := Read(m, s, e);
            && (r.ctx.Some? ==> Backed(m, s, r.ctx.value, e.stamp.pid))
            && r.row.context == RequestOf(r.ctx) && r.row.connection == r.out.socket && r.row.stamp == e.stamp
            && r.owners <= m.roots
            && (forall c :: c in r.owned ==> r.owned[c] <= m.roots)
  {
    var c := ContextOf(s, e.stamp);
    var out := D.Step(s.effects.fds, e);
    hide D.Step;
    if c.Some? {
      assert if e.stamp.tid in s.threads then Backed(m, s, s.threads[e.stamp.tid], 0)
             else Backed(m, s, c.value, e.stamp.pid);
      ContextRegistered(m, s, c.value, e.stamp);
    }
    OwnedByRoots(m, s.effects.sockets.owned, e, out, RequestOf(c));
  }

  lemma OwnedByRoots(m: Mapping, owned: SocketReads.Owned, e: Syscall, out: D.Outcome, request: Context)
    requires SocketReads.ValidMapping(m) && (request == 0 || request in m.owners)
    requires forall c :: c in owned ==> owned[c] <= m.roots
    ensures forall c ::
            c in OwnersAfter(m, owned, e, out, request) ==> OwnersAfter(m, owned, e, out, request)[c] <= m.roots
  {
  }

  lemma ContextRegistered(m: Mapping, s: State, c: Ctx, at: Stamp)
    requires Contexts(m, s) && ContextOf(s, at) == Some(c)
    ensures Backed(m, s, c, at.pid)
  {
    if at.tid in s.threads { assert Backed(m, s, s.threads[at.tid], 0); }
  }

  lemma CallEffect(m: Mapping, s: State, e: Syscall)
    requires !e.instrumentation
    ensures var r := Read(m, s, e);
            var x := TraceStep(m, s, e).effects;
            && x.inherited == Inherited(s.effects.inherited, e, r.ctx)
            && x.fds == r.out.fds && x.sockets == DrawnAfter(s.effects.sockets, r)
            && x.executed == s.effects.executed + (if r.row.context != 0 then {e.stamp.source} else {})
            && x.rows == s.effects.rows + [r.row]
            && TraceStep(m, s, e).graph == s.graph + TraceRecords(m, s, e, r)
            && r.out == D.Step(s.effects.fds, e)
  {
    hide D.Step, OwnersAfter, SocketOwners, Effective, NewRow, TraceRecords, DrawnAfter, Inherited, ContextOf;
  }

  /** The records about the call itself and the process it starts. */
  predicate CallRecord(m: Mapping, e: Syscall, r: Reading, x: Record) {
    var call := SyscallNode(e.stamp.source);
    || (Forks(e) && x == Node(ProcessNode(e.ret.value)))
    || (Forks(e) && RequestOf(r.ctx) != 0
        && x == Edge(ActorNode(m, r.ctx.value, e.stamp.pid), ProcessNode(e.ret.value), Spawned))
    || ((r.row.context != 0 || r.row.connection.Some?) && x == Node(call))
    || (r.row.context != 0 && r.ctx.Some? && x == Edge(ActorNode(m, r.ctx.value, e.stamp.pid), call, Executed))
  }

  lemma CallShape(m: Mapping, s: State, e: Syscall, r: Reading)
    requires r.row.stamp == e.stamp && r.row.context == RequestOf(r.ctx)
    ensures forall x ::
            x in SpawnRecords(m, e, r.ctx) + RowRecords(m, s.effects.executed, r.row, r.ctx) ==> CallRecord(m, e, r, x)
    ensures var added := SpawnRecords(m, e, r.ctx) + RowRecords(m, s.effects.executed, r.row, r.ctx);
            && (Forks(e) ==> Node(ProcessNode(e.ret.value)) in added)
            && (Forks(e) && RequestOf(r.ctx) != 0 ==>
                  Edge(ActorNode(m, r.ctx.value, e.stamp.pid), ProcessNode(e.ret.value), Spawned) in added)
            && (r.row.context != 0 || r.row.connection.Some? ==> Node(SyscallNode(e.stamp.source)) in added)
            && (r.row.context != 0 && e.stamp.source !in s.effects.executed ==>
                  Edge(ActorNode(m, r.ctx.value, e.stamp.pid), SyscallNode(e.stamp.source), Executed) in added)
  {
    hide ActorNode;
    var spawned := SpawnRecords(m, e, r.ctx);
    var own := RowRecords(m, s.effects.executed, r.row, r.ctx);
    if Forks(e) {
      assert spawned[0] == Node(ProcessNode(e.ret.value));
      if RequestOf(r.ctx) != 0 { assert spawned[1].Edge?; }
    }
    if r.row.context != 0 || r.row.connection.Some? {
      assert own[0] == Node(SyscallNode(e.stamp.source));
      if r.row.context != 0 && e.stamp.source !in s.effects.executed { assert own[1].Edge?; }
    }
  }

  lemma Listener(f: D.FdState, e: Syscall)
    ensures D.Step(f, e).listener.Some? ==> D.Step(f, e).listener.value in f.sockets.Values
  {
    hide D.CopyTable, D.CloseRangeStep, D.ExecStep, D.CloneStep, D.Bind, D.Unbind, D.Flag, D.Redirect;
  }

  lemma RowContextPush(rows: seq<Row>, row: Row, source: Source)
    ensures RowContext(rows + [row], source) ==
            if row.stamp.source == source then Some(row.context) else RowContext(rows, source)
  {
    assert (rows + [row])[..|rows|] == rows;
  }

  /** Claims after a call: the socket, the child and the call itself may be new. */
  lemma CallClaims(m: Mapping, s: State, e: Syscall, n: NodeId)
    requires !e.instrumentation && Faithful(s, CallLine(e))
    requires Read(m, s, e).row.stamp == e.stamp
    ensures var r := Read(m, s, e);
            var g := TraceStep(m, s, e);
            Claim(m, g, n) ==
              if n == SyscallNode(e.stamp.source) then Some(r.row.context)
              else if Forks(e) && n == ProcessNode(e.ret.value) then Some(RequestOf(r.ctx))
              else if r.out.socket.Some? && n == SocketNode(r.out.socket.value) then Some(0)
              else Claim(m, s, n)
    ensures n == SyscallNode(e.stamp.source) || (Forks(e) && n == ProcessNode(e.ret.value)) ==> Claim(m, s, n).None?
  {
    hide TraceStep, Read;
    CallEffect(m, s, e);
    TraceFrame(m, s, e);
    if n.SyscallNode? { RowContextPush(s.effects.rows, Read(m, s, e).row, n.source); }
  }

  lemma CallSockets(m: Mapping, s: State, e: Syscall)
    requires SocketReads.ValidMapping(m) && Contexts(m, s) && SocketsDrawn(m, s.effects)
    requires !e.instrumentation
    ensures SocketsDrawn(m, TraceStep(m, s, e).effects)
  {
    hide TraceStep, Read, D.Step, Contexts, SocketReads.Numbered;
    CallEffect(m, s, e);
    ReadFacts(m, s, e);
    SocketReads.CallGrows(m, s, e);
    SocketReads.TraceOwners(m, s, e);
    OwnedKeys(m, s, e);
    var r := Read(m, s, e);
    forall source ensures RowContext(s.effects.rows + [r.row], source) ==
      if r.row.stamp.source == source then Some(r.row.context) else RowContext(s.effects.rows, source)
    {
      RowContextPush(s.effects.rows, r.row, source);
    }
  }

  lemma OwnedKeys(m: Mapping, s: State, e: Syscall)
    requires SocketReads.Numbered(s.effects)
    ensures var r := Read(m, s, e);
            && r.owned.Keys == s.effects.sockets.owned.Keys + (if r.out.socket.Some? then {r.out.socket.value} else {})
            && (r.out.created.Some? ==> r.out.socket == r.out.created)
            && (r.out.listener.Some? ==> r.out.listener.value in s.effects.sockets.owned)
            && (r.out.socket.Some? && r.out.created.None? ==> r.out.socket.value in s.effects.sockets.owned)
  {
    var out := D.Step(s.effects.fds, e);
    SocketReads.StepSockets(s.effects.fds, e);
    Listener(s.effects.fds, e);
    hide D.Step;
    SocketReads.OwnersAfterGrows(m, s.effects.sockets.owned, e, out, RequestOf(ContextOf(s, e.stamp)));
  }

  lemma CallKeeps(m: Mapping, s: State, e: Syscall)
    requires Inv(m, s) && SocketReads.ValidMapping(m) && !e.instrumentation && Faithful(s, CallLine(e))
    ensures Keeps(m, s, TraceStep(m, s, e))
  {
    hide TraceStep, Read, Accounted, WellFormed, SocketsDrawn, Contexts, Backed;
    ReadFacts(m, s, e);
    forall n | Claim(m, s, n).Some? ensures Claim(m, TraceStep(m, s, e), n) == Claim(m, s, n) {
      CallClaims(m, s, e, n);
      SocketClaim(m, s, n);
    }
  }

  lemma CallContexts(m: Mapping, s: State, e: Syscall)
    requires Inv(m, s) && SocketReads.ValidMapping(m) && !e.instrumentation && Faithful(s, CallLine(e))
    ensures Keeps(m, s, TraceStep(m, s, e)) && Contexts(m, TraceStep(m, s, e))
  {
    hide TraceStep, Read, Accounted, WellFormed, SocketsDrawn, Claim;
    ReadFacts(m, s, e);
    CallEffect(m, s, e);
    TraceFrame(m, s, e);
    CallKeeps(m, s, e);
    var g := TraceStep(m, s, e);
    assert Contexts(m, s);
    forall t | t in g.threads ensures Backed(m, g, g.threads[t], 0) { BackedKept(m, s, g, s.threads[t], 0); }
    forall p | p in g.effects.inherited
      ensures g.effects.inherited[p].origin.ProcessInheritance? && Backed(m, g, g.effects.inherited[p], p)
    {
      if Forks(e) && p == e.ret.value {
        CallClaims(m, s, e, ProcessNode(p));
      } else {
        BackedKept(m, s, g, s.effects.inherited[p], p);
      }
    }
  }

  lemma SocketClaim(m: Mapping, s: State, n: NodeId)
    ensures n.SocketNode? && Claim(m, s, n).Some? ==> Claim(m, s, n) == Some(0)
  {
  }

  /** What the graph shows after a call about the call, its socket and its child. */
  ghost predicate Shown(m: Mapping, s: State, g: State, e: Syscall, r: Reading) {
    && s.graph <= g.graph
    && Claim(m, g, SyscallNode(e.stamp.source)).Some?
    && Node(SyscallNode(e.stamp.source)) !in s.graph
    && (r.row.context != 0 || r.row.connection.Some? ==> Node(SyscallNode(e.stamp.source)) in g.graph)
    && (Forks(e) ==> Claim(m, g, ProcessNode(e.ret.value)).Some?
                     && Node(ProcessNode(e.ret.value)) in g.graph && Node(ProcessNode(e.ret.value)) !in s.graph)
    && (r.out.socket.Some? ==>
        Claim(m, g, SocketNode(r.out.socket.value)).Some? && Node(SocketNode(r.out.socket.value)) in g.graph)
    && (r.out.created.Some? ==> r.out.socket == r.out.created)
    && (r.out.listener.Some? ==> Node(SocketNode(r.out.listener.value)) in g.graph)
    && (forall p :: p in r.owners ==> Node(ContextNode(m, p)) in s.graph)
    && (r.ctx.Some? && RequestOf(r.ctx) != 0 ==>
          Node(ActorNode(m, r.ctx.value, e.stamp.pid)) in s.graph
            && !ActorNode(m, r.ctx.value, e.stamp.pid).SyscallNode?)
    && r.row.connection == r.out.socket
  }

  lemma CallGraph(m: Mapping, s: State, e: Syscall)
    requires !e.instrumentation
    ensures var r := Read(m, s, e);
            && s.graph <= TraceStep(m, s, e).graph
            && (forall x ::
                x in SocketRecords(m, s.effects.sockets, e, r.out, r.owners) ==> x in TraceStep(m, s, e).graph)
            && (forall x ::
                x in SpawnRecords(m, e, r.ctx) + RowRecords(m, s.effects.executed, r.row, r.ctx) ==>
                  x in TraceStep(m, s, e).graph)
  {
    hide SocketRecords, SpawnRecords, RowRecords, Read;
  }

  lemma CallShown(m: Mapping, s: State, e: Syscall)
    requires Inv(m, s) && SocketReads.ValidMapping(m) && !e.instrumentation && Faithful(s, CallLine(e))
    ensures Shown(m, s, TraceStep(m, s, e), e, Read(m, s, e))
  {
    hide TraceStep, Read, TraceRecords, SocketRecords, SpawnRecords, RowRecords, WellFormed, Claim, Grounded, ActorNode,
      CallRecord, SocketRecord, Inv, Faithful, Contexts, SocketsDrawn, Backed, SocketReads.ValidMapping,
        SocketReads.Numbered,
      Accounted, ContextNode;
    var r := Read(m, s, e);
    InvParts(m, s);
    ReadFacts(m, s, e);
    CallGraph(m, s, e);
    CallShape(m, s, e, r);
    CallNew(m, s, e);
    OwnedKeys(m, s, e);
    ContextsPresent(m, s, r.owners);
    SocketShown(m, s, e);
    if r.ctx.Some? && RequestOf(r.ctx) != 0 { ActorPresent(m, s, r.ctx.value, e.stamp.pid); }
  }

  lemma CallNew(m: Mapping, s: State, e: Syscall)
    requires Inv(m, s) && SocketReads.ValidMapping(m) && !e.instrumentation && Faithful(s, CallLine(e))
    ensures var g := TraceStep(m, s, e);
            && Claim(m, g, SyscallNode(e.stamp.source)).Some? && Node(SyscallNode(e.stamp.source)) !in s.graph
            && (Forks(e) ==> Claim(m, g, ProcessNode(e.ret.value)).Some? && Node(ProcessNode(e.ret.value)) !in s.graph)
  {
    hide TraceStep, Read, Claim, Grounded, Contexts, SocketsDrawn, WellFormed;
    InvParts(m, s);
    ReadFacts(m, s, e);
    var call := SyscallNode(e.stamp.source);
    CallClaims(m, s, e, call);
    assert Accounted(m, s, call);
    if Forks(e) {
      var child := ProcessNode(e.ret.value);
      CallClaims(m, s, e, child);
      assert Accounted(m, s, child);
    }
  }

  lemma SocketShown(m: Mapping, s: State, e: Syscall)
    requires Inv(m, s) && SocketReads.ValidMapping(m) && !e.instrumentation && Faithful(s, CallLine(e))
    ensures var r := Read(m, s, e);
            var g := TraceStep(m, s, e);
            && (r.out.socket.Some? ==>
                Claim(m, g, SocketNode(r.out.socket.value)).Some? && Node(SocketNode(r.out.socket.value)) in g.graph)
            && (r.out.listener.Some? ==> Node(SocketNode(r.out.listener.value)) in g.graph)
  {
    hide TraceStep, Read, SocketRecords, SpawnRecords, RowRecords, Inv, Claim, Faithful, Contexts, SocketsDrawn,
      SocketRecord,
      SocketReads.Numbered, SocketReads.ValidMapping;
    var r := Read(m, s, e);
    InvParts(m, s);
    ReadFacts(m, s, e);
    CallGraph(m, s, e);
    OwnedKeys(m, s, e);
    if r.out.socket.Some? {
      SocketShape(m, s.effects.sockets, e, r.out, r.owners);
      SocketPresent(m, s, r.out.socket.value);
      CallClaims(m, s, e, SocketNode(r.out.socket.value));
    }
    if r.out.listener.Some? { SocketPresent(m, s, r.out.listener.value); }
  }

  /** A record may be added: its endpoints are shown, and walked edges point at new nodes. */
  ghost predicate Fits(m: Mapping, s: State, g: State, x: Record) {
    && Shaped(x)
    && (x.Node? ==> Claim(m, g, x.id).Some?)
    && (x.Edge? ==> Node(x.source) in g.graph && Node(x.target) in g.graph)
    && (Walk(x) ==> Node(x.target) !in s.graph)
  }

  lemma SocketFits(m: Mapping, s: State, g: State, e: Syscall, r: Reading, x: Record)
    requires Shown(m, s, g, e, r) && SocketRecord(m, e, r.out, r.owners, x)
    ensures Fits(m, s, g, x) && !Walk(x)
  {
    hide Claim;
  }

  lemma CallFits(m: Mapping, s: State, g: State, e: Syscall, r: Reading, x: Record)
    requires Shown(m, s, g, e, r) && CallRecord(m, e, r, x) && r.row.context == RequestOf(r.ctx)
    ensures Fits(m, s, g, x)
  {
    hide Claim, ActorNode;
  }

  lemma CallParts(m: Mapping, s: State, e: Syscall, r: Reading, x: Record)
    requires x in TraceRecords(m, s, e, r)
    ensures || x in SocketRecords(m, s.effects.sockets, e, r.out, r.owners)
            || x in SpawnRecords(m, e, r.ctx) + RowRecords(m, s.effects.executed, r.row, r.ctx)
  {
    hide SocketRecords, SpawnRecords, RowRecords;
  }

  lemma CallEndpoints(m: Mapping, s: State, e: Syscall)
    requires Inv(m, s) && SocketReads.ValidMapping(m) && !e.instrumentation && Faithful(s, CallLine(e))
    ensures var r := Read(m, s, e);
            forall x :: x in TraceRecords(m, s, e, r) ==>
              Fits(m, s, TraceStep(m, s, e), x) && (Walk(x) ==> CallRecord(m, e, r, x))
  {
    hide *;
    var r := Read(m, s, e);
    CallShown(m, s, e);
    InvParts(m, s);
    ReadFacts(m, s, e);
    SocketShape(m, s.effects.sockets, e, r.out, r.owners);
    CallShape(m, s, e, r);
    forall x | x in TraceRecords(m, s, e, r)
      ensures Fits(m, s, TraceStep(m, s, e), x) && (Walk(x) ==> CallRecord(m, e, r, x))
    {
      CallParts(m, s, e, r, x);
      if x in SocketRecords(m, s.effects.sockets, e, r.out, r.owners) {
        SocketFits(m, s, TraceStep(m, s, e), e, r, x);
      } else {
        CallFits(m, s, TraceStep(m, s, e), e, r, x);
      }
    }
  }

  lemma InvParts(m: Mapping, s: State)
    requires Inv(m, s)
    ensures WellFormed(s.graph) && Contexts(m, s) && SocketsDrawn(m, s.effects) && SocketReads.Numbered(s.effects)
  {
    hide WellFormed, Contexts, Accounted, SocketReads.Numbered;
  }

  lemma SocketPresent(m: Mapping, s: State, conn: D.ConnId)
    requires Inv(m, s)
    ensures conn in s.effects.sockets.owned || conn in s.effects.sockets.drawn ==> Node(SocketNode(conn)) in s.graph
  {
    assert Accounted(m, s, SocketNode(conn));
  }

  lemma ContextsPresent(m: Mapping, s: State, owners: set<Context>)
    requires Inv(m, s) && SocketReads.ValidMapping(m) && owners <= m.roots
    ensures forall p :: p in owners ==> Node(ContextNode(m, p)) in s.graph
  {
    forall p | p in owners ensures Node(ContextNode(m, p)) in s.graph { assert Accounted(m, s, ContextNode(m, p)); }
  }

  lemma ActorPresent(m: Mapping, s: State, c: Ctx, pid: Pid)
    requires Inv(m, s) && Backed(m, s, c, pid) && c.request != 0
    ensures !ActorNode(m, c, pid).SyscallNode?
    ensures Node(ActorNode(m, c, pid)) in s.graph && Grounded(m, s.graph, ActorNode(m, c, pid), c.request)
  {
    assert Accounted(m, s, ActorNode(m, c, pid));
  }

  /** What a call starts hangs on the node its caller runs as. */
  lemma CallGrounded(m: Mapping, s: State, e: Syscall)
    requires Inv(m, s) && SocketReads.ValidMapping(m) && !e.instrumentation && Faithful(s, CallLine(e))
    ensures var r := Read(m, s, e);
            var g := TraceStep(m, s, e);
            r.row.context != 0 ==>
              && Grounded(m, g.graph, SyscallNode(e.stamp.source), r.row.context)
              && (Forks(e) ==> Grounded(m, g.graph, ProcessNode(e.ret.value), r.row.context))
  {
    hide TraceStep, Read, SocketRecords, SpawnRecords, RowRecords, Inv, Claim, Contexts, SocketRecord, CallRecord,
      TraceRecords,
      SocketReads.Numbered, SocketReads.ValidMapping, Grounded, ActorNode, Backed, WellFormed;
    var r := Read(m, s, e);
    var g := TraceStep(m, s, e);
    InvParts(m, s);
    ReadFacts(m, s, e);
    if r.row.context != 0 {
      CallEffect(m, s, e);
      CallGraph(m, s, e);
      CallShape(m, s, e, r);
      var actor := ActorNode(m, r.ctx.value, e.stamp.pid);
      ActorPresent(m, s, r.ctx.value, e.stamp.pid);
      GroundedMono(m, s.graph, TraceRecords(m, s, e, r), actor, r.row.context);
      GroundedStep(m, g.graph, SyscallNode(e.stamp.source), actor, Executed, r.row.context);
      if Forks(e) { GroundedStep(m, g.graph, ProcessNode(e.ret.value), actor, Spawned, r.row.context); }
    }
  }

  lemma CallAccounted(m: Mapping, s: State, e: Syscall, n: NodeId)
    requires Inv(m, s) && SocketReads.ValidMapping(m) && !e.instrumentation && Faithful(s, CallLine(e))
    requires Claim(m, TraceStep(m, s, e), n) != Claim(m, s, n)
    ensures Accounted(m, TraceStep(m, s, e), n)
  {
    hide TraceStep, Read, Inv, Claim, Grounded, Contexts, SocketsDrawn, WellFormed, SocketReads.ValidMapping,
      Faithful, ActorNode;
    InvParts(m, s);
    ReadFacts(m, s, e);
    CallClaims(m, s, e, n);
    CallShown(m, s, e);
    CallGrounded(m, s, e);
  }

  lemma WalkedOnce(m: Mapping, e: Syscall, r: Reading, x: Record, y: Record)
    requires CallRecord(m, e, r, x) && CallRecord(m, e, r, y) && Walk(x) && Walk(y) && x.target == y.target
    ensures x == y
  {
    hide ActorNode;
  }

  lemma CallInv(m: Mapping, s: State, e: Syscall)
    requires Inv(m, s) && SocketReads.ValidMapping(m) && Faithful(s, CallLine(e))
    ensures Inv(m, TraceStep(m, s, e))
  {
    if e.instrumentation {
      SocketReads.TraceIgnored(m, s, e);
    } else {
      CallInvFresh(m, s, e);
    }
    hide *;
  }

  lemma CallInvFresh(m: Mapping, s: State, e: Syscall)
    requires Inv(m, s) && SocketReads.ValidMapping(m) && Faithful(s, CallLine(e)) && !e.instrumentation
    ensures Inv(m, TraceStep(m, s, e))
  {
    hide TraceStep, Read, TraceRecords, Claim, Grounded, Accounted, Contexts, SocketsDrawn, WellFormed,
      SocketReads.ValidMapping,
      Faithful, CallRecord, Shaped;
    var g := TraceStep(m, s, e);
    var r := Read(m, s, e);
    var added := TraceRecords(m, s, e, r);
    InvParts(m, s);
    CallEffect(m, s, e);
    CallContexts(m, s, e);
    CallSockets(m, s, e);
    CallEndpoints(m, s, e);
    forall x, y | x in added && y in added && Walk(x) && Walk(y) && x.target == y.target ensures x == y {
      WalkedOnce(m, e, r, x, y);
    }
    Extend(s.graph, added);
    forall n | Claim(m, g, n) != Claim(m, s, n) ensures Accounted(m, g, n) { CallAccounted(m, s, e, n); }
    Accounts(m, s, g, added);
  }

  // ----- runs ------------------------------------------------------------------------------------

  lemma LineInv(m: Mapping, s: State, line: Line)
    requires Inv(m, s) && SocketReads.ValidMapping(m) && Faithful(s, line) && Apply(m, s, line).errors == s.errors
    ensures Inv(m, Apply(m, s, line))
  {
    hide Inv, MarkerStep, TraceStep, SocketReads.ValidMapping, Faithful;
    match line
    case MarkerLine(at, n) =>
      if n.kind.IpcEnter? || n.kind.IpcLeave? { EnterLeaveInv(m, s, at, n); }
      else if n.kind.IpcCancel? { CancelInv(m, s, at, n); }
      else if n.kind.IpcSend? { SendInv(m, s, at, n); }
      else if n.kind.Submit? { SubmitInv(m, s, at, n); }
      else { PlainInv(m, s, at, n); }
    case CallLine(e) => CallInv(m, s, e);
  }

  ghost predicate FaithfulRun(m: Mapping, graph: Graph, lines: seq<Line>) {
    forall i :: 0 <= i < |lines| ==> Faithful(After(m, graph, lines[..i]), lines[i])
  }

  lemma {:induction false} RunInv(m: Mapping, graph: Graph, lines: seq<Line>)
    requires Seeded(m, graph) && SocketReads.ValidMapping(m) && FaithfulRun(m, graph, lines)
    requires After(m, graph, lines).errors == []
    ensures Inv(m, After(m, graph, lines))
  {
    hide Seeded, Inv, Faithful, Apply, SocketReads.ValidMapping;
    if lines == [] {
      SeedInv(m, graph);
    } else {
      var last := |lines| - 1;
      PrefixErrorFree(m, graph, lines, last);
      forall i | 0 <= i < last ensures Faithful(After(m, graph, lines[..last][..i]), lines[..last][i]) {
        assert lines[..last][..i] == lines[..i];
      }
      RunInv(m, graph, lines[..last]);
      LineInv(m, After(m, graph, lines[..last]), lines[last]);
    }
  }

  // ----- rows at distinct trace positions -----------------------------------------------------------

  ghost predicate Distinct(rows: seq<Row>) {
    forall i, j :: 0 <= i < j < |rows| ==> rows[i].stamp.source != rows[j].stamp.source
  }

  lemma {:induction false} RowContextAt(rows: seq<Row>, source: Source)
    ensures RowContext(rows, source).None? ==> forall i :: 0 <= i < |rows| ==> rows[i].stamp.source != source
    ensures forall i :: 0 <= i < |rows| && Distinct(rows) && rows[i].stamp.source == source ==>
              RowContext(rows, source) == Some(rows[i].context)
  {
    if rows != [] { RowContextAt(rows[..|rows| - 1], source); }
  }

  lemma CallDistinct(m: Mapping, s: State, e: Syscall)
    requires Distinct(s.effects.rows) && Faithful(s, CallLine(e)) && !e.instrumentation
    requires Read(m, s, e).row.stamp == e.stamp
    ensures Distinct(TraceStep(m, s, e).effects.rows)
  {
    hide TraceStep, Read;
    CallEffect(m, s, e);
    RowContextAt(s.effects.rows, e.stamp.source);
  }

  lemma {:induction false} RunDistinct(m: Mapping, graph: Graph, lines: seq<Line>)
    requires Seeded(m, graph) && SocketReads.ValidMapping(m) && FaithfulRun(m, graph, lines)
    requires After(m, graph, lines).errors == []
    ensures Distinct(After(m, graph, lines).effects.rows)
  {
    hide Seeded, Inv, Faithful, Apply, SocketReads.ValidMapping, Distinct;
    if lines == [] {
      hide After;
      assert Distinct(Initial(graph).effects.rows) by { NoRows(graph); }
      EmptyRun(m, graph);
    } else {
      var last := |lines| - 1;
      PrefixErrorFree(m, graph, lines, last);
      forall i | 0 <= i < last ensures Faithful(After(m, graph, lines[..last][..i]), lines[..last][i]) {
        assert lines[..last][..i] == lines[..i];
      }
      RunDistinct(m, graph, lines[..last]);
      RunInv(m, graph, lines[..last]);
      LineDistinct(m, After(m, graph, lines[..last]), lines[last]);
    }
  }

  lemma NoRows(graph: Graph)
    ensures Distinct(Initial(graph).effects.rows)
  {
  }

  lemma EmptyRun(m: Mapping, graph: Graph)
    ensures After(m, graph, []) == Initial(graph)
  {
  }

  lemma LineDistinct(m: Mapping, s: State, line: Line)
    requires Inv(m, s) && SocketReads.ValidMapping(m) && Faithful(s, line) && Distinct(s.effects.rows)
    ensures Distinct(Apply(m, s, line).effects.rows)
  {
    hide Inv, MarkerStep, TraceStep, Read, SocketReads.ValidMapping, Faithful, Distinct, Contexts, SocketsDrawn, Backed;
    match line
    case MarkerLine(at, n) => MarkerFrame(m, s, at, n);
    case CallLine(e) =>
      if e.instrumentation {
        SocketReads.TraceIgnored(m, s, e);
      } else {
        InvParts(m, s);
        ReadFacts(m, s, e);
        CallDistinct(m, s, e);
      }
  }

  // ----- the published graph --------------------------------------------------------------------------

  /** The rows as published: after the retroactive pass. */
  function Rows(s: State): seq<Row> { SocketReads.BindAll(s.effects.sockets.owned, s.effects.rows) }

  function Graphed(s: State): Graph { SocketReads.Publish(s.graph, SocketReads.Lifecycle(Rows(s))) }

  lemma {:induction false} PublishKeeps(g: Graph, sources: set<Source>)
    ensures forall r :: r in SocketReads.Publish(g, sources) <==> r in g && !SocketReads.Unjustified(r, sources)
  {
    if g != [] {
      PublishKeeps(g[..|g| - 1], sources);
      assert g == g[..|g| - 1] + [g[|g| - 1]];
    }
  }

  /** Dropping edges into the reads of sockets leaves every other walk as it was. */
  lemma {:induction false} WalkSurvives(g: Graph, sources: set<Source>, n: NodeId, target: NodeId, steps: nat)
    requires WellFormed(g) && Reaches(g, n, target, steps) && (n.SyscallNode? ==> n.source !in sources)
    ensures Reaches(SocketReads.Publish(g, sources), n, target, steps)
    decreases steps
  {
    if steps > 0 {
      var p :| Back(g, n, p) && Reaches(g, p, target, steps - 1);
      var kind :| Walked(kind) && Edge(p, n, kind) in g;
      assert Shaped(Edge(p, n, kind));
      WalkSurvives(g, sources, p, target, steps - 1);
      PublishKeeps(g, sources);
      assert Back(SocketReads.Publish(g, sources), n, p);
    }
  }

  lemma PublishedWellFormed(g: Graph, sources: set<Source>)
    requires WellFormed(g)
    ensures WellFormed(SocketReads.Publish(g, sources))
    ensures forall source, p :: source in sources ==> !Back(SocketReads.Publish(g, sources), SyscallNode(source), p)
  {
    PublishKeeps(g, sources);
  }

  /** No published edge dangles; walking back from a syscall that ran under its own request
      reaches the context its row names and no other; a read charged to its socket has
      nothing executed behind it. */
  ghost predicate Explained(m: Mapping, s: State, i: nat)
    requires i < |s.effects.rows|
  {
    var row := Rows(s)[i];
    var call := SyscallNode(row.stamp.source);
    && Closed(Graphed(s))
    && (row.origin == Some(SocketLifecycle) ==> forall p :: !Back(Graphed(s), call, p))
    && (row.origin != Some(SocketLifecycle) && row.context != 0 ==>
          && Node(call) in Graphed(s)
          && Grounded(m, Graphed(s), call, row.context)
          && (forall end, steps: nat ::
                IsContext(end) && Reaches(Graphed(s), call, end, steps) ==> end == ContextNode(m, row.context)))
  }

  lemma RowsExplained(m: Mapping, graph: Graph, lines: seq<Line>, i: nat)
    requires Seeded(m, graph) && SocketReads.ValidMapping(m) && FaithfulRun(m, graph, lines)
    requires After(m, graph, lines).errors == [] && i < |After(m, graph, lines).effects.rows|
    ensures Explained(m, After(m, graph, lines), i)
  {
    RunInv(m, graph, lines);
    RunDistinct(m, graph, lines);
    hide *;
    RowExplained(m, After(m, graph, lines), i);
  }

  lemma RowExplained(m: Mapping, s: State, i: nat)
    requires Inv(m, s) && Distinct(s.effects.rows) && i < |s.effects.rows|
    ensures Explained(m, s, i)
  {
    var rows := Rows(s);
    var row := rows[i];
    var call := SyscallNode(row.stamp.source);
    var sources := SocketReads.Lifecycle(rows);
    PublishedWellFormed(s.graph, sources);
    assert forall j :: 0 <= j < |rows| ==> rows[j].stamp == s.effects.rows[j].stamp;
    if row.origin != Some(SocketLifecycle) && row.context != 0 {
      assert row == s.effects.rows[i];
      assert row.stamp.source !in sources;
      RowContextAt(s.effects.rows, row.stamp.source);
      assert Accounted(m, s, call);
      PublishKeeps(s.graph, sources);
      var taken: nat :| Reaches(s.graph, call, ContextNode(m, row.context), taken);
      WalkSurvives(s.graph, sources, call, ContextNode(m, row.context), taken);
      forall end, steps: nat | IsContext(end) && Reaches(Graphed(s), call, end, steps)
        ensures end == ContextNode(m, row.context) {
        WalkIsDetermined(Graphed(s), call, ContextNode(m, row.context), taken, end, steps);
      }
    }
  }
}
