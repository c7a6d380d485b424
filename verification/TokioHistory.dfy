/** What a Tokio run means, read off its events alone: whose request each span belongs to, and which
    span each thread is inside after any number of events.  The layer's span owners, stacks and
    markers are then shown to say exactly this. */
module TokioHistory {
  import opened Trace
  import opened TokioBridge
  import opened TokioReplay
  import opened Attribution
  import BridgedTraces

  // ----- the reading -----------------------------------------------------------------------

  predicate By(run: seq<Event>, i: nat, t: Tid) { i < |run| && run[i].Effect? && run[i].step.tid == t }

  predicate Creates(run: seq<Event>, i: nat, span: SpanId) {
    i < |run| && run[i].Effect? && run[i].step.NewSpan? && run[i].step.span == span
  }

  /** The event that created a span. */
  function CreatedAt(run: seq<Event>, n: nat, span: SpanId): (r: Option<nat>)
    requires n <= |run|
    ensures r.Some? ==> r.value < n && Creates(run, r.value, span)
    ensures r.None? ==> forall i :: 0 <= i < n ==> !Creates(run, i, span)
  {
    if n == 0 then None else if Creates(run, n - 1, span) then Some(n - 1) else CreatedAt(run, n - 1, span)
  }

  /** Spans of requests and of spawned tasks are followed; others are not. */
  predicate Followed(run: seq<Event>, n: nat, span: SpanId)
    requires n <= |run|
  {
    var i := CreatedAt(run, n, span);
    i.Some? && run[i.value].step.relevant
  }

  predicate Enters(run: seq<Event>, i: nat) {
    i < |run| && run[i].Effect? && run[i].step.Enter? && Followed(run, i, run[i].step.span)
  }

  /** How many intervals the first n events open. */
  function Intervals(run: seq<Event>, n: nat): nat
    requires n <= |run|
  {
    if n == 0 then 0 else Intervals(run, n - 1) + if Enters(run, n - 1) then 1 else 0
  }

  /** The last interval a thread opened. */
  function EnteredBy(run: seq<Event>, n: nat, t: Tid): (r: Option<nat>)
    requires n <= |run|
    ensures r.Some? ==> r.value < n && By(run, r.value, t) && Enters(run, r.value)
  {
    if n == 0 then None
    else if By(run, n - 1, t) && Enters(run, n - 1) then Some(n - 1)
    else EnteredBy(run, n - 1, t)
  }

  /** The intervals a thread is inside, outermost first, as the events that opened them. */
  function Inside(run: seq<Event>, n: nat, t: Tid): (r: seq<nat>)
    requires n <= |run|
    ensures forall k :: 0 <= k < |r| ==> r[k] < n && Enters(run, r[k])
  {
    if n == 0 then []
    else
      var before := Inside(run, n - 1, t);
      if !By(run, n - 1, t) then before
      else match run[n - 1].step
        case Push(_) =>
          var entered := EnteredBy(run, n - 1, t);
          if entered.None? then before else before + [entered.value]
        case Exit(_, span) =>
          if Followed(run, n - 1, span) && before != [] then before[..|before| - 1] else before
        case _ => before
  }

  /** The interval a thread left last. */
  function LeftBy(run: seq<Event>, n: nat, t: Tid): (r: Option<nat>)
    requires n <= |run|
    ensures r.Some? ==> r.value < n && Enters(run, r.value)
  {
    if n == 0 then None
    else if By(run, n - 1, t) && run[n - 1].step.Exit? && Followed(run, n - 1, run[n - 1].step.span)
            && Inside(run, n - 1, t) != [] then
      var inside := Inside(run, n - 1, t);
      Some(inside[|inside| - 1])
    else LeftBy(run, n - 1, t)
  }

  /** The request a span belongs to: the one in its own field; without a field, its explicit parent's; without
      either, the one its creator worked for when creating it. */
  function BelongsTo(run: seq<Event>, n: nat, span: SpanId): Context
    requires n <= |run|
    decreases n, 1
  {
    var at := CreatedAt(run, n, span);
    if at.None? then 0
    else
      var i, step := at.value, run[at.value].step;
      if step.field.Some? then step.field.value
      else if step.parent.Some? && CreatedAt(run, i, step.parent.value).Some? then BelongsTo(run, i, step.parent.value)
      else WorksFor(run, i, step.tid).0
  }

  /** What a thread works for: the request of the innermost span it is inside, and the interval's number. */
  function WorksFor(run: seq<Event>, n: nat, t: Tid): (Context, OpId)
    requires n <= |run|
    decreases n, 0
  {
    var inside := Inside(run, n, t);
    if inside == [] then (0, 0) else Interval(run, inside[|inside| - 1])
  }

  /** The request and number of the interval opened by the i-th event. */
  function Interval(run: seq<Event>, i: nat): (Context, OpId)
    requires Enters(run, i)
    decreases i, 2
  {
    (BelongsTo(run, i, run[i].step.span), 1 + Intervals(run, i))
  }

  /** The marker the next event owes the trace, if any. */
  function Owed(run: seq<Event>, n: nat, step: Step): Option<Marker>
    requires n < |run| && run[n].Effect? && run[n].step == step
  {
    var t := step.tid;
    match step
    case NewSpan(_, _, _, _, _) => None
    case Enter(_, _) => None
    case Announce(_) =>
      var i := EnteredBy(run, n, t);
      if i.None? then None
      else
        var (request, operation) := Interval(run, i.value);
        Some(Marker(Submit, t, request, operation, run[i.value].step.span, 0, true, None))
    case Push(_) =>
      var i := EnteredBy(run, n, t);
      if i.None? then None
      else
        var (request, operation) := Interval(run, i.value);
        Some(Marker(WorkEnter, t, request, operation, run[i.value].step.span, 0, true, None))
    case Exit(_, span) =>
      if !Followed(run, n, span) then None
      else
        var (request, operation) := WorksFor(run, n + 1, t);
        Some(Marker(WorkLeave, t, request, operation, span, 0, true, None))
    case Report(_) =>
      var i := LeftBy(run, n, t);
      if i.None? then None
      else
        var (request, operation) := Interval(run, i.value);
        Some(Marker(Complete, t, request, operation, run[i.value].step.span, 0, true, None))
  }

  // ----- the layer says the same --------------------------------------------------------------

  predicate OwnerRight(run: seq<Event>, n: nat, b: Bridge, span: SpanId)
    requires n <= |run|
  {
    && (span in b.owners <==> CreatedAt(run, n, span).Some?)
    && (span in b.owners ==> b.owners[span] == Owner(BelongsTo(run, n, span), Followed(run, n, span)))
  }

  predicate FrameRight(run: seq<Event>, i: nat, frame: Frame) {
    Enters(run, i) && frame.span == run[i].step.span && (frame.request, frame.operation) == Interval(run, i)
  }

  predicate StackRight(run: seq<Event>, n: nat, b: Bridge, t: Tid)
    requires n <= |run|
  {
    var stack, inside := At(b, t).stack, Inside(run, n, t);
    |stack| == |inside| && forall k :: 0 <= k < |stack| ==> FrameRight(run, inside[k], stack[k])
  }

  predicate PhaseRight(run: seq<Event>, n: nat, b: Bridge, t: Tid)
    requires n <= |run|
  {
    match At(b, t).phase
    case Idle => true
    case Counted(span, op) =>
      var i := EnteredBy(run, n, t);
      i.Some? && span == run[i.value].step.span && op == Interval(run, i.value).1
        && Kept(b, span, Interval(run, i.value).0)
    case Announced(span, op) =>
      var i := EnteredBy(run, n, t);
      i.Some? && span == run[i.value].step.span && op == Interval(run, i.value).1
        && Kept(b, span, Interval(run, i.value).0)
    case Leaving(frame) =>
      var i := LeftBy(run, n, t);
      i.Some? && FrameRight(run, i.value, frame)
  }

  predicate Kept(b: Bridge, span: SpanId, request: Context) { span in b.owners && b.owners[span].request == request }

  ghost predicate Right(run: seq<Event>, n: nat, b: Bridge)
    requires n <= |run|
  {
    && b.next == 1 + Intervals(run, n)
    && (forall span :: OwnerRight(run, n, b, span))
    && (forall t :: StackRight(run, n, b, t))
    && (forall t :: PhaseRight(run, n, b, t))
  }

  lemma CurrentRight(run: seq<Event>, n: nat, b: Bridge, t: Tid)
    requires n <= |run| && StackRight(run, n, b, t)
    ensures Current(At(b, t)) == WorksFor(run, n, t)
  {
    var inside := Inside(run, n, t);
    if inside != [] { assert FrameRight(run, inside[|inside| - 1], Top(At(b, t))); }
  }

  lemma {:induction false} OwnerStep(known: set<Context>, run: seq<Event>, n: nat, b: Bridge, step: Step, span: SpanId)
    requires n < |run| && run[n].Effect? && run[n].step == step && Right(run, n, b)
    requires Enabled(known, b, step)
    ensures OwnerRight(run, n + 1, Next(known, b, step), span)
  {
    hide StackRight, PhaseRight, Inside, WorksFor, Interval;
    assert OwnerRight(run, n, b, span);
    CurrentOf(run, n, b, step.tid);
    if step.NewSpan? && step.parent.Some? { assert OwnerRight(run, n, b, step.parent.value); }
  }

  lemma CurrentOf(run: seq<Event>, n: nat, b: Bridge, t: Tid)
    requires n <= |run| && Right(run, n, b)
    ensures Current(At(b, t)) == WorksFor(run, n, t)
  {
    hide StackRight, WorksFor;
    CurrentRight(run, n, b, t);
  }

  lemma {:induction false} StackStep(known: set<Context>, run: seq<Event>, n: nat, b: Bridge, step: Step, t: Tid)
    requires n < |run| && run[n].Effect? && run[n].step == step && Right(run, n, b)
    requires Inv(known, b) && Enabled(known, b, step) && b.next + 1 < COUNTER_LIMIT
    ensures StackRight(run, n + 1, Next(known, b, step), t)
  {
    hide Stacked, Attended, Numbered, Registered, Interval, WorksFor, BelongsTo;
    assert StackRight(run, n, b, t) && PhaseRight(run, n, b, t);
    if step.Exit? { assert OwnerRight(run, n, b, step.span); }
    if t != step.tid { Elsewhere(known, b, step, t); }
  }

  lemma {:induction false} PhaseStep(known: set<Context>, run: seq<Event>, n: nat, b: Bridge, step: Step, t: Tid)
    requires n < |run| && run[n].Effect? && run[n].step == step && Right(run, n, b)
    requires Inv(known, b) && Enabled(known, b, step) && b.next + 1 < COUNTER_LIMIT
    ensures PhaseRight(run, n + 1, Next(known, b, step), t)
  {
    hide Stacked, Attended, Numbered, Registered, WorksFor, BelongsTo, Inside;
    assert StackRight(run, n, b, t) && PhaseRight(run, n, b, t);
    if step.Exit? || step.Enter? { assert OwnerRight(run, n, b, step.span); }
    if t != step.tid { Elsewhere(known, b, step, t); }
  }

  lemma StepRight(known: set<Context>, run: seq<Event>, n: nat, b: Bridge, step: Step)
    requires n < |run| && run[n].Effect? && run[n].step == step && Right(run, n, b)
    requires Inv(known, b) && Enabled(known, b, step) && b.next + 1 < COUNTER_LIMIT
    ensures Right(run, n + 1, Next(known, b, step))
  {
    hide Inv, Enabled, OwnerRight, StackRight, PhaseRight;
    NextNumber(known, run, n, b, step);
    var m, c := n + 1, Next(known, b, step);
    forall span ensures OwnerRight(run, m, c, span) { OwnerStep(known, run, n, b, step, span); }
    forall t ensures StackRight(run, m, c, t) { StackStep(known, run, n, b, step, t); }
    forall t ensures PhaseRight(run, m, c, t) { PhaseStep(known, run, n, b, step, t); }
  }

  lemma NextNumber(known: set<Context>, run: seq<Event>, n: nat, b: Bridge, step: Step)
    requires n < |run| && run[n].Effect? && run[n].step == step && Right(run, n, b)
    requires Enabled(known, b, step) && b.next + 1 < COUNTER_LIMIT
    ensures Next(known, b, step).next == 1 + Intervals(run, n + 1)
  {
    hide StackRight, PhaseRight, BelongsTo;
    if step.Enter? { assert OwnerRight(run, n, b, step.span); }
  }

  lemma CallRight(run: seq<Event>, n: nat, b: Bridge)
    requires n < |run| && run[n].Kernel? && Right(run, n, b)
    ensures Right(run, n + 1, b)
  {
    var m := n + 1;
    forall span ensures OwnerRight(run, m, b, span) { assert OwnerRight(run, n, b, span); }
    forall t ensures StackRight(run, m, b, t) && PhaseRight(run, m, b, t) {
      assert StackRight(run, n, b, t) && PhaseRight(run, n, b, t);
    }
  }

  lemma StartRight(run: seq<Event>)
    ensures Right(run, 0, Start())
  {
  }

  /** After any number of events the layer's state says what the events mean. */
  lemma {:induction false} RunRight(m: Mapping, server: Pid, run: seq<Event>, n: nat)
    requires Possible(m, server, run) && |run| + 2 < COUNTER_LIMIT && n <= |run|
    ensures Possible(m, server, run[..n]) && Inv(Known(m), BridgeAfter(m, server, run[..n]))
    ensures Right(run, n, BridgeAfter(m, server, run[..n])) && BridgeAfter(m, server, run[..n]).next <= 1 + n
  {
    hide Right, Inv, Enabled, Next, Sim;
    PrefixPossible(m, server, run, n);
    RunSim(m, server, run[..n], []);
    SimInv(m, server, BridgeAfter(m, server, run[..n]), StateAfter(m, server, run[..n], []));
    if n == 0 {
      StartRight(run);
    } else {
      RunRight(m, server, run, n - 1);
      assert run[..n][..n - 1] == run[..n - 1];
      var b := BridgeAfter(m, server, run[..n - 1]);
      match run[n - 1]
      case Effect(step, _) => StepRight(Known(m), run, n - 1, b, step);
      case Kernel(_) => CallRight(run, n - 1, b);
    }
  }

  lemma {:induction false} PrefixPossible(m: Mapping, server: Pid, run: seq<Event>, i: nat)
    requires Possible(m, server, run) && i <= |run|
    ensures Possible(m, server, run[..i])
    decreases |run| - i
  {
    if i < |run| {
      PrefixPossible(m, server, run, i + 1);
      assert run[..i + 1][..i] == run[..i];
    } else {
      assert run[..i] == run;
    }
  }

  // ----- what follows ---------------------------------------------------------------------------

  /** Every thread's innermost frame is the one the events so far put there. */
  lemma CurrentIsRight(m: Mapping, server: Pid, run: seq<Event>, n: nat, t: Tid)
    requires Possible(m, server, run) && |run| + 2 < COUNTER_LIMIT && n <= |run|
    ensures Possible(m, server, run[..n])
    ensures Current(At(BridgeAfter(m, server, run[..n]), t)) == WorksFor(run, n, t)
  {
    hide Right, WorksFor, Inv, Possible, BridgeAfter;
    RunRight(m, server, run, n);
    CurrentOf(run, n, BridgeAfter(m, server, run[..n]), t);
  }

  /** Every span's owner is the request it belongs to. */
  lemma OwnersAreRight(m: Mapping, server: Pid, run: seq<Event>, n: nat, span: SpanId)
    requires Possible(m, server, run) && |run| + 2 < COUNTER_LIMIT && n <= |run|
    ensures Possible(m, server, run[..n])
    ensures OwnerRight(run, n, BridgeAfter(m, server, run[..n]), span)
  {
    hide StackRight, PhaseRight, OwnerRight, Inv, Possible, BridgeAfter;
    RunRight(m, server, run, n);
  }

  /** Every marker written is the one the events owe: nothing missing, nothing else. */
  lemma MarkersAreRight(m: Mapping, server: Pid, run: seq<Event>, n: nat)
    requires Possible(m, server, run) && |run| + 2 < COUNTER_LIMIT && n < |run| && run[n].Effect?
    ensures Possible(m, server, run[..n]) && Allowed(m, server, BridgeAfter(m, server, run[..n]), run[n])
    ensures Emitted(Known(m), BridgeAfter(m, server, run[..n]), run[n].step) == Owed(run, n, run[n].step)
  {
    hide Right, Inv, Enabled, Next, Emitted, Owed;
    RunRight(m, server, run, n);
    RunRight(m, server, run, n + 1);
    assert run[..n + 1][..n] == run[..n];
    MarkerRight(Known(m), run, n, BridgeAfter(m, server, run[..n]), run[n].step);
  }

  lemma MarkerRight(known: set<Context>, run: seq<Event>, n: nat, b: Bridge, step: Step)
    requires n < |run| && run[n].Effect? && run[n].step == step && Right(run, n, b)
    requires Inv(known, b) && Enabled(known, b, step) && b.next + 1 < COUNTER_LIMIT
    ensures Emitted(known, b, step) == Owed(run, n, step)
  {
    hide Inv, OwnerRight, StackRight, BelongsTo, WorksFor, Inside;
    assert PhaseRight(run, n, b, step.tid);
    if step.Exit? {
      FollowedRight(run, n, b, step.span);
      StackStep(known, run, n, b, step, step.tid);
      CurrentRight(run, n + 1, Next(known, b, step), step.tid);
    }
  }

  lemma FollowedRight(run: seq<Event>, n: nat, b: Bridge, span: SpanId)
    requires n <= |run| && Right(run, n, b)
    ensures Relevant(b, span) <==> Followed(run, n, span)
  {
    assert OwnerRight(run, n, b, span);
  }

  /** The attributor holds it too, for every thread. */
  lemma AttributorIsRight(m: Mapping, server: Pid, run: seq<Event>, n: nat, graph: seq<Record>, t: Tid, source: Source)
    requires Possible(m, server, run) && |run| + 2 < COUNTER_LIMIT && n <= |run|
    ensures Possible(m, server, run[..n])
    ensures var c := ContextOf(StateAfter(m, server, run[..n], graph), Stamp(t, server, source));
            (RequestOf(c), if c.Some? then c.value.operation else 0) == WorksFor(run, n, t)
  {
    hide WorksFor, Possible, BridgeAfter, StateAfter, ContextOf;
    CurrentIsRight(m, server, run, n, t);
    ContextsReplayed(m, server, run[..n], graph, t, source);
  }

  // ----- in plain words ----------------------------------------------------------------------------

  /** A span is created once, so what it belongs to never changes. */
  lemma {:induction false} CreatedOnce(m: Mapping, server: Pid, run: seq<Event>, n: nat, i: nat, span: SpanId)
    requires Possible(m, server, run) && |run| + 2 < COUNTER_LIMIT && i < n <= |run| && Creates(run, i, span)
    ensures CreatedAt(run, n, span) == Some(i)
    ensures forall k :: i < k <= n ==> BelongsTo(run, k, span) == BelongsTo(run, i + 1, span)
  {
    hide Possible, BridgeAfter, OwnerRight;
    if i + 1 < n {
      CreatedOnce(m, server, run, n - 1, i, span);
      if Creates(run, n - 1, span) {
        OwnersAreRight(m, server, run, n - 1, span);
        NotAgain(m, server, run, n - 1, span);
        assert false;
      }
    }
  }

  lemma NotAgain(m: Mapping, server: Pid, run: seq<Event>, n: nat, span: SpanId)
    requires Possible(m, server, run) && n < |run| && Creates(run, n, span) && Possible(m, server, run[..n])
    requires OwnerRight(run, n, BridgeAfter(m, server, run[..n]), span)
    ensures CreatedAt(run, n, span).None?
  {
    PrefixPossible(m, server, run, n + 1);
    assert run[..n + 1][..n] == run[..n];
  }

  /** The j-th event puts a thread inside the span created by the i-th. */
  predicate Pushes(run: seq<Event>, j: nat, i: nat, span: SpanId) {
    && i < j < |run| && Creates(run, i, span) && run[j].Effect? && run[j].step.Push?
    && var k := EnteredBy(run, j, run[j].step.tid); k.Some? && run[k.value].step.span == span
  }

  /** What a thread works for inside a span, whichever thread it is: the span's own field; without one, what its
      explicit parent belongs to; without either, what its creator worked for at that moment. */
  lemma SpanWorksFor(m: Mapping, server: Pid, run: seq<Event>, i: nat, j: nat, span: SpanId)
    requires Possible(m, server, run) && |run| + 2 < COUNTER_LIMIT && Pushes(run, j, i, span)
    ensures Possible(m, server, run[..i]) && Possible(m, server, run[..j + 1])
    ensures var before := BridgeAfter(m, server, run[..i]);
            var inside := Current(At(BridgeAfter(m, server, run[..j + 1]), run[j].step.tid)).0;
            match run[i].step
            case NewSpan(t, _, Some(field), _, _) => inside == field
            case NewSpan(t, _, None, Some(parent), _) =>
              inside == if parent in before.owners then before.owners[parent].request else Current(At(before, t)).0
            case NewSpan(t, _, None, None, _) => inside == Current(At(before, t)).0
            case _ => true
  {
    hide Possible, BridgeAfter;
    var t, u := run[i].step.tid, run[j].step.tid;
    var k := EnteredBy(run, j, u).value;
    CurrentIsRight(m, server, run, j + 1, u);
    CurrentIsRight(m, server, run, i, t);
    if run[i].step.parent.Some? { OwnersAreRight(m, server, run, i, run[i].step.parent.value); }
    CreatedOnce(m, server, run, j, i, span);
    CreatedOnce(m, server, run, j, CreatedAt(run, k, span).value, span);
    assert Inside(run, j + 1, u) == Inside(run, j, u) + [k];
    assert WorksFor(run, j + 1, u) == Interval(run, k) && CreatedAt(run, k, span) == Some(i);
    BelongsFrom(run, k, i, span);
    if run[i].step.parent.Some? {
      assert OwnerRight(run, i, BridgeAfter(m, server, run[..i]), run[i].step.parent.value);
    }
  }

  lemma BelongsFrom(run: seq<Event>, n: nat, i: nat, span: SpanId)
    requires n <= |run| && CreatedAt(run, n, span) == Some(i)
    ensures var step := run[i].step;
            BelongsTo(run, n, span) ==
              if step.field.Some? then step.field.value
              else if step.parent.Some? && CreatedAt(run, i, step.parent.value).Some? then
                BelongsTo(run, i, step.parent.value)
              else WorksFor(run, i, step.tid).0
  {
  }

  /** The rows of the finished trace name what their threads worked for. */
  lemma RowsAreRight(m: Mapping, server: Pid, run: seq<Event>, graph: seq<Record>, i: nat)
    requires Possible(m, server, run) && |run| + 2 < COUNTER_LIMIT
    requires i < |run| && run[i].Kernel? && run[i].e.stamp.pid == server && !run[i].e.instrumentation
    ensures Possible(m, server, run[..i])
    ensures var (request, operation) := WorksFor(run, i, run[i].e.stamp.tid);
            var at := |StateAfter(m, server, run[..i], graph).effects.rows|;
            var rows := StateAfter(m, server, run, graph).effects.rows;
            && at < |rows| && rows[at].stamp == run[i].e.stamp
            && (request != 0 ==> rows[at].context == request && rows[at].operation == operation)
            && (request == 0 && !run[i].e.call.Receive? ==> rows[at].context == 0)
  {
    hide WorksFor, Possible, BridgeAfter, StateAfter;
    CurrentIsRight(m, server, run, i, run[i].e.stamp.tid);
    BridgedTraces.RowsNameRunningSpan(m, server, run, graph, i);
  }

  /** What other threads do, syscalls, new spans and markers leave a thread inside what it was inside. */
  lemma {:induction false} InsideKept(run: seq<Event>, i: nat, n: nat, t: Tid)
    requires i <= n <= |run|
    requires forall k :: i <= k < n && By(run, k, t) ==> !run[k].step.Push? && !run[k].step.Exit?
    ensures Inside(run, n, t) == Inside(run, i, t)
  {
    if i < n { InsideKept(run, i, n - 1, t); }
  }

  /** A task spawned without field or parent works for its creator's request: every syscall its thread makes
      inside it, before entering or leaving another span, is attributed to the request the creator worked for. */
  lemma TaskRowsNameCreator(m: Mapping, server: Pid, run: seq<Event>, graph: seq<Record>, i: nat, j: nat, k: nat,
                            span: SpanId)
    requires Possible(m, server, run) && |run| + 2 < COUNTER_LIMIT && Pushes(run, j, i, span) && j < k < |run|
    requires run[i].step.field.None? && run[i].step.parent.None?
    requires forall n :: j < n < k && By(run, n, run[j].step.tid) ==> !run[n].step.Push? && !run[n].step.Exit?
    requires run[k].Kernel? && run[k].e.stamp.tid == run[j].step.tid && run[k].e.stamp.pid == server
    requires !run[k].e.instrumentation
    ensures Possible(m, server, run[..i]) && Possible(m, server, run[..k])
    ensures var request := Current(At(BridgeAfter(m, server, run[..i]), run[i].step.tid)).0;
            var at := |StateAfter(m, server, run[..k], graph).effects.rows|;
            var rows := StateAfter(m, server, run, graph).effects.rows;
            && at < |rows| && rows[at].stamp == run[k].e.stamp
            && (request != 0 ==> rows[at].context == request)
            && (request == 0 && !run[k].e.call.Receive? ==> rows[at].context == 0)
  {
    hide Possible, BridgeAfter, StateAfter, Inside, Interval;
    SpanWorksFor(m, server, run, i, j, span);
    CurrentIsRight(m, server, run, j + 1, run[j].step.tid);
    InsideKept(run, j + 1, k, run[j].step.tid);
    RowsAreRight(m, server, run, graph, k);
  }

  /** Nothing gets stuck: an idle thread may create and enter any span, and every interval goes on. */
  lemma Progress(known: set<Context>, b: Bridge, op: OpId, idle: Tid, span: SpanId, relevant: bool)
    requires Inv(known, b) && op in b.lives && At(b, idle).phase.Idle?
    ensures Enabled(known, b, Enter(idle, span))
    ensures span !in b.owners ==> forall field: Option<Context>, parent: Option<SpanId> ::
              field.None? || field.value == 0 || field.value in known ==>
              Enabled(known, b, NewSpan(idle, span, field, parent, relevant))
    ensures var life := b.lives[op];
            var l := At(b, life.holder);
            match life.stage
            case Unannounced => Enabled(known, b, Announce(life.holder))
            case Submitted => Enabled(known, b, Push(life.holder))
            case Running =>
              l.phase.Idle? && Top(l).operation == op ==> Enabled(known, b, Exit(life.holder, Top(l).span))
            case Left => Enabled(known, b, Report(life.holder))
            case Completed => true
  {
    hide Numbered, Registered, Stacked, Busy;
    assert Attended(b, op);
  }
}
