/** The Tokio bridge: a tracing layer that keeps a per-thread stack of entered spans and
    emits markers, stepped one visible effect at a time. */
module TokioBridge {
  import opened Trace

  const COUNTER_LIMIT: nat := 0x1_0000_0000_0000_0000

  datatype Owner = Owner(request: Context, relevant: bool)

  datatype Frame = Frame(span: SpanId, request: Context, operation: OpId)

  /** Between two marker writes of one enter or exit. */
  datatype Phase = Idle | Counted(span: SpanId, operation: OpId) | Announced(span: SpanId, operation: OpId)
    | Leaving(frame: Frame)

  datatype Local = Local(stack: seq<Frame>, phase: Phase)

  /** One execution interval of a span. */
  datatype Stage = Unannounced | Submitted | Running | Left | Completed
  datatype Life = Life(request: Context, stage: Stage, holder: Tid)

  datatype Bridge = Bridge(owners: map<SpanId, Owner>, locals: map<Tid, Local>, next: OpId, lives: map<OpId, Life>)

  datatype Step =
    | NewSpan(tid: Tid, span: SpanId, field: Option<Context>, parent: Option<SpanId>, relevant: bool)
    | Enter(tid: Tid, span: SpanId)
    | Announce(tid: Tid)
    | Push(tid: Tid)
    | Exit(tid: Tid, span: SpanId)
    | Report(tid: Tid)

  function Start(): Bridge { Bridge(map[], map[], 1, map[]) }

  function At(b: Bridge, tid: Tid): Local {
    if tid in b.locals then b.locals[tid] else Local([], Idle)
  }

  function Set(b: Bridge, tid: Tid, l: Local): Bridge { b.(locals := b.locals[tid := l]) }

  function Top(l: Local): Frame
    requires l.stack != []
  {
    l.stack[|l.stack| - 1]
  }

  /** The request and operation of the innermost entered span. */
  function Current(l: Local): (Context, OpId) {
    if l.stack == [] then (0, 0) else (Top(l).request, Top(l).operation)
  }

  predicate Relevant(b: Bridge, span: SpanId) { span in b.owners && b.owners[span].relevant }

  /** Span identities are not reused, registered contexts only, and exits match enters. */
  predicate Enabled(known: set<Context>, b: Bridge, step: Step) {
    var l := At(b, step.tid);
    match step
    case NewSpan(_, span, field, _, _) =>
      l.phase.Idle? && span !in b.owners && (field.Some? ==> field.value == 0 || field.value in known)
    case Enter(_, _) => l.phase.Idle?
    case Announce(_) => l.phase.Counted?
    case Push(_) => l.phase.Announced?
    case Exit(_, span) => l.phase.Idle? && (Relevant(b, span) ==> l.stack != [] && Top(l).span == span)
    case Report(_) => l.phase.Leaving?
  }

  /** The request a new span belongs to: its own field, its explicit parent, or its creator. */
  function OwnerRequest(b: Bridge, l: Local, field: Option<Context>, parent: Option<SpanId>): Context {
    if field.Some? then field.value
    else if parent.Some? && parent.value in b.owners then b.owners[parent.value].request
    else Current(l).0
  }

  function Moved(b: Bridge, operation: OpId, stage: Stage): Bridge {
    if operation in b.lives then b.(lives := b.lives[operation := b.lives[operation].(stage := stage)]) else b
  }

  function Next(known: set<Context>, b: Bridge, step: Step): Bridge
    requires Enabled(known, b, step)
  {
    var tid := step.tid;
    var l := At(b, tid);
    match step
    case NewSpan(_, span, field, parent, relevant) =>
      b.(owners := b.owners[span := Owner(OwnerRequest(b, l, field, parent), relevant)])
    case Enter(_, span) =>
      if !Relevant(b, span) then b
      else
        Set(b.(next := (b.next + 1) % COUNTER_LIMIT,
               lives := b.lives[b.next := Life(b.owners[span].request, Unannounced, tid)]),
            tid, l.(phase := Counted(span, b.next)))
    case Announce(_) =>
      Set(Moved(b, l.phase.operation, Submitted), tid, l.(phase := Announced(l.phase.span, l.phase.operation)))
    case Push(_) =>
      var request := if l.phase.span in b.owners then b.owners[l.phase.span].request else 0;
      Set(Moved(b, l.phase.operation, Running), tid,
          Local(l.stack + [Frame(l.phase.span, request, l.phase.operation)], Idle))
    case Exit(_, span) =>
      if !Relevant(b, span) then b
      else Set(Moved(b, Top(l).operation, Left), tid, Local(l.stack[..|l.stack| - 1], Leaving(Top(l))))
    case Report(_) => Set(Moved(b, l.phase.frame.operation, Completed), tid, l.(phase := Idle))
  }

  function Note(kind: Kind, tid: Tid, request: Context, operation: OpId, span: SpanId): Marker {
    Marker(kind, tid, request, operation, span, 0, true, None)
  }

  function Emitted(known: set<Context>, b: Bridge, step: Step): Option<Marker>
    requires Enabled(known, b, step)
  {
    var tid := step.tid;
    var l := At(b, tid);
    match step
    case NewSpan(_, _, _, _, _) => None
    case Enter(_, _) => None
    case Announce(_) =>
      if l.phase.span !in b.owners then None
      else Some(Note(Submit, tid, b.owners[l.phase.span].request, l.phase.operation, l.phase.span))
    case Push(_) =>
      if l.phase.span !in b.owners then None
      else Some(Note(WorkEnter, tid, b.owners[l.phase.span].request, l.phase.operation, l.phase.span))
    case Exit(_, span) =>
      if !Relevant(b, span) then None
      else
        var rest := Current(Local(l.stack[..|l.stack| - 1], Idle));
        Some(Note(WorkLeave, tid, rest.0, rest.1, span))
    case Report(_) => Some(Note(Complete, tid, l.phase.frame.request, l.phase.frame.operation, l.phase.frame.span))
  }

  // ----- invariants ---------------------------------------------------------------------

  ghost predicate Numbered(b: Bridge) {
    1 <= b.next && forall op :: op in b.lives ==> 1 <= op < b.next
  }

  ghost predicate Registered(known: set<Context>, b: Bridge) {
    && (forall span :: span in b.owners ==> b.owners[span].request == 0 || b.owners[span].request in known)
    && (forall op :: op in b.lives ==> b.lives[op].request == 0 || b.lives[op].request in known)
  }

  /** `op` is at `stage`, held by `t`, and belongs to `request`. */
  ghost predicate Holds(b: Bridge, t: Tid, op: OpId, stage: Stage, request: Context) {
    op in b.lives && b.lives[op] == Life(request, stage, t)
  }

  ghost predicate Busy(b: Bridge, t: Tid) {
    match At(b, t).phase
    case Idle => true
    case Counted(span, op) => span in b.owners && Holds(b, t, op, Unannounced, b.owners[span].request)
    case Announced(span, op) => span in b.owners && Holds(b, t, op, Submitted, b.owners[span].request)
    case Leaving(frame) => Holds(b, t, frame.operation, Left, frame.request)
  }

  ghost predicate Stacked(b: Bridge, t: Tid) {
    var stack := At(b, t).stack;
    && (forall i :: 0 <= i < |stack| ==> Holds(b, t, stack[i].operation, Running, stack[i].request))
    && (forall i, j :: 0 <= i < j < |stack| ==> stack[i].operation != stack[j].operation)
  }

  /** Every unfinished interval is where its thread says it is. */
  ghost predicate Attended(b: Bridge, op: OpId)
    requires op in b.lives
  {
    var phase := At(b, b.lives[op].holder).phase;
    match b.lives[op].stage
    case Unannounced => phase.Counted? && phase.operation == op
    case Submitted => phase.Announced? && phase.operation == op
    case Left => phase.Leaving? && phase.frame.operation == op
    case Running =>
      exists i :: 0 <= i < |At(b, b.lives[op].holder).stack| && At(b, b.lives[op].holder).stack[i].operation == op
    case Completed => true
  }

  ghost predicate Inv(known: set<Context>, b: Bridge) {
    && Numbered(b) && Registered(known, b)
    && (forall t :: Busy(b, t))
    && (forall t :: Stacked(b, t))
    && (forall op :: op in b.lives ==> Attended(b, op))
  }

  lemma StartInv(known: set<Context>)
    ensures Inv(known, Start())
  {
  }

  lemma InvAt(known: set<Context>, b: Bridge, t: Tid)
    requires Inv(known, b)
    ensures Numbered(b) && Registered(known, b) && Busy(b, t) && Stacked(b, t)
    ensures Current(At(b, t)).0 == 0 || Current(At(b, t)).0 in known
    ensures b.next !in b.lives
  {
    if At(b, t).stack != [] {
      assert Stacked(b, t) && Holds(b, t, Top(At(b, t)).operation, Running, Top(At(b, t)).request);
    }
  }

  lemma Elsewhere(known: set<Context>, b: Bridge, step: Step, t: Tid)
    requires Enabled(known, b, step) && t != step.tid
    ensures At(Next(known, b, step), t) == At(b, t)
  {
  }

  lemma StepNumbered(known: set<Context>, b: Bridge, step: Step)
    requires Inv(known, b) && Enabled(known, b, step) && b.next + 1 < COUNTER_LIMIT
    ensures var c := Next(known, b, step); Numbered(c) && Registered(known, c) && b.next <= c.next <= b.next + 1
  {
    hide Inv, Stacked;
    InvAt(known, b, step.tid);
  }

  /** Intervals of other threads are left alone. */
  lemma HeldElsewhere(known: set<Context>, b: Bridge, step: Step, t: Tid, op: OpId, stage: Stage, request: Context)
    requires Inv(known, b) && Enabled(known, b, step) && b.next + 1 < COUNTER_LIMIT
    requires t != step.tid && Holds(b, t, op, stage, request)
    ensures Holds(Next(known, b, step), t, op, stage, request)
  {
    hide Inv;
    InvAt(known, b, step.tid);
  }

  lemma StepBusy(known: set<Context>, b: Bridge, step: Step, t: Tid)
    requires Inv(known, b) && Enabled(known, b, step) && b.next + 1 < COUNTER_LIMIT
    ensures Busy(Next(known, b, step), t)
  {
    hide Inv;
    InvAt(known, b, step.tid);
    InvAt(known, b, t);
    if t != step.tid {
      Elsewhere(known, b, step, t);
      match At(b, t).phase {
        case Idle =>
        case Counted(span, op) => HeldElsewhere(known, b, step, t, op, Unannounced, b.owners[span].request);
        case Announced(span, op) => HeldElsewhere(known, b, step, t, op, Submitted, b.owners[span].request);
        case Leaving(frame) => HeldElsewhere(known, b, step, t, frame.operation, Left, frame.request);
      }
    }
  }

  lemma StepStacked(known: set<Context>, b: Bridge, step: Step, t: Tid)
    requires Inv(known, b) && Enabled(known, b, step) && b.next + 1 < COUNTER_LIMIT
    ensures Stacked(Next(known, b, step), t)
  {
    hide Inv;
    InvAt(known, b, step.tid);
    InvAt(known, b, t);
    if t != step.tid {
      Elsewhere(known, b, step, t);
      var stack := At(b, t).stack;
      forall i | 0 <= i < |stack|
        ensures Holds(Next(known, b, step), t, stack[i].operation, Running, stack[i].request) {
        HeldElsewhere(known, b, step, t, stack[i].operation, Running, stack[i].request);
      }
    }
  }

  /** An interval on its thread's stack stays there unless it is the one exited. */
  lemma StepRunning(known: set<Context>, b: Bridge, step: Step, op: OpId, i: nat)
    requires Enabled(known, b, step) && Stacked(b, step.tid) && Busy(b, step.tid) && Numbered(b)
    requires i < |At(b, step.tid).stack| && At(b, step.tid).stack[i].operation == op && op in Next(known, b, step).lives
    requires op in b.lives && b.lives[op].holder == step.tid && b.lives[op].stage.Running?
    ensures Attended(Next(known, b, step), op)
  {
    var t := step.tid;
    var after := At(Next(known, b, step), t).stack;
    if i < |after| {
      assert after[i].operation == op;
      assert step.Exit? && Relevant(b, step.span) ==> At(b, t).stack[i].operation != Top(At(b, t)).operation;
      assert Next(known, b, step).lives[op] == b.lives[op];
    } else {
      assert step.Exit? && Relevant(b, step.span) && Top(At(b, t)).operation == op;
    }
  }

  lemma StepAttended(known: set<Context>, b: Bridge, step: Step, op: OpId)
    requires Inv(known, b) && Enabled(known, b, step) && b.next + 1 < COUNTER_LIMIT
    requires op in Next(known, b, step).lives
    ensures Attended(Next(known, b, step), op)
  {
    hide Inv, Stacked, Registered;
    InvAt(known, b, step.tid);
    if At(b, step.tid).stack != [] { TopRunning(b, step.tid); }
    if op in b.lives {
      AttendedAt(known, b, op);
      var t := b.lives[op].holder;
      if t != step.tid {
        Elsewhere(known, b, step, t);
      } else if b.lives[op].stage.Running? {
        var i :| 0 <= i < |At(b, t).stack| && At(b, t).stack[i].operation == op;
        StepRunning(known, b, step, op, i);
      } else if step.Push? {
        var after := At(Next(known, b, step), t).stack;
        assert after[|after| - 1].operation == At(b, t).phase.operation;
      }
    }
  }

  lemma TopRunning(b: Bridge, t: Tid)
    requires Stacked(b, t) && At(b, t).stack != []
    ensures var top := Top(At(b, t)); Holds(b, t, top.operation, Running, top.request)
  {
  }

  lemma AttendedAt(known: set<Context>, b: Bridge, op: OpId)
    requires Inv(known, b) && op in b.lives
    ensures Attended(b, op)
  {
  }

  lemma StepInv(known: set<Context>, b: Bridge, step: Step)
    requires Inv(known, b) && Enabled(known, b, step) && b.next + 1 < COUNTER_LIMIT
    ensures Inv(known, Next(known, b, step)) && b.next <= Next(known, b, step).next <= b.next + 1
  {
    hide Numbered, Registered, Busy, Stacked, Attended, Enabled, Next;
    var c := Next(known, b, step);
    StepNumbered(known, b, step);
    forall t ensures Busy(c, t) { StepBusy(known, b, step, t); }
    forall t ensures Stacked(c, t) { StepStacked(known, b, step, t); }
    forall op | op in c.lives ensures Attended(c, op) { StepAttended(known, b, step, op); }
  }
}
