/** What one well-formed marker, or one syscall, does to the attributor's state. */
module MarkerFacts {
  import opened Trace
  import opened Attribution

  /** A marker that only replaces the thread's context. */
  lemma ContextMarker(m: Mapping, s: State, at: Stamp, n: Marker)
    requires n.kind.JsContext? || n.kind.DoneEnter? || n.kind.DoneLeave?
    requires (n.request == 0 || n.request in m.owners) && s.ipc.running == map[]
    ensures MarkerStep(m, s, at, n) ==
            SetThread(s, at.tid, Ctx(n.request, n.operation, TransitionOrigin(n.kind), None, Observed(at.source)))
  {
  }

  lemma SubmitMarker(m: Mapping, s: State, at: Stamp, n: Marker)
    requires n.kind.Submit? && !n.spanPoll && n.operation !in s.works.operations
    requires n.request == 0 || n.request in m.owners
    ensures MarkerStep(m, s, at, n) ==
            s.(works := PutWork(s.works, n.operation, Work(n.request, false, false, false, None)),
               graph := s.graph + SubmitRecords(m, s.works, n))
  {
    hide SubmitRecords;
    assert s.errors + SubmitErrors(s.works, n) == s.errors;
  }

  lemma EnterMarker(m: Mapping, s: State, at: Stamp, n: Marker)
    requires n.kind.WorkEnter? && n.operation in s.works.operations
    requires s.works.operations[n.operation].request == n.request && !s.works.operations[n.operation].started
    requires (n.request == 0 || n.request in m.owners) && s.ipc.running == map[]
    ensures MarkerStep(m, s, at, n) ==
            s.(works := PutWork(s.works.(active := s.works.active[at.tid := ActiveOf(s.works, at.tid) + [n.operation]]),
                                n.operation, s.works.operations[n.operation].(started := true)),
               threads := s.threads[at.tid := Ctx(n.request, n.operation, Worker, None, Observed(at.source))])
  {
  }

  lemma LeaveMarker(m: Mapping, s: State, at: Stamp, n: Marker, rest: seq<OpId>, top: OpId)
    requires n.kind.WorkLeave? && ActiveOf(s.works, at.tid) == rest + [top] && top in s.works.operations
    requires (n.request == 0 || n.request in m.owners) && s.ipc.running == map[]
    ensures MarkerStep(m, s, at, n) ==
            s.(works := PutWork(s.works.(active := s.works.active[at.tid := rest]),
                                top, s.works.operations[top].(finished := true)),
               threads := s.threads[at.tid := Ctx(n.request, n.operation, AsyncContext, None, Observed(at.source))])
  {
    assert (rest + [top])[..|rest|] == rest;
  }

  lemma CompleteMarker(m: Mapping, s: State, at: Stamp, n: Marker)
    requires n.kind.Complete? && n.operation in s.works.operations
    requires s.works.operations[n.operation].request == n.request && !s.works.operations[n.operation].completed
    requires n.request == 0 || n.request in m.owners
    ensures MarkerStep(m, s, at, n) ==
            s.(works := PutWork(s.works, n.operation,
                                s.works.operations[n.operation].(completed := true, status := Some(n.status))))
  {
  }

  lemma SpanSubmitMarker(m: Mapping, s: State, at: Stamp, n: Marker)
    requires n.kind.Submit? && n.spanPoll && n.operation !in s.works.operations
    requires n.pointer in s.works.spans ==> s.works.spans[n.pointer] == n.request
    requires n.request == 0 || n.request in m.owners
    ensures MarkerStep(m, s, at, n) ==
            s.(works := PutWork(s.works, n.operation, Work(n.request, false, false, false, None))
                          .(spans := s.works.spans[n.pointer := n.request]),
               graph := s.graph + SubmitRecords(m, s.works, n))
  {
    hide SubmitRecords;
    assert s.errors + SubmitErrors(s.works, n) == s.errors;
    assert n.pointer in s.works.spans ==> s.works.spans[n.pointer := n.request] == s.works.spans;
  }

  lemma RowOfCaller(m: Mapping, s: State, e: Syscall)
    requires !e.instrumentation
    ensures var rows := TraceStep(m, s, e).effects.rows;
            var c := ContextOf(s, e.stamp);
            var last := |s.effects.rows|;
            && |rows| == last + 1 && s.effects.rows == rows[..last] && rows[last].stamp == e.stamp
            && (RequestOf(c) != 0 ==>
                  && rows[last].context == RequestOf(c) && rows[last].operation == c.value.operation
                  && rows[last].job == c.value.job && rows[last].origin == Some(c.value.origin))
            && (RequestOf(c) == 0 && !e.call.Receive? ==> rows[last].context == 0)
  {
    hide OwnersAfter, SocketOwners, TraceRecords, DrawnAfter;
  }
}
