/** The Tokio layer as it runs: span extensions, an atomic counter and a thread-local stack
    changed in place; every method is one step of `TokioBridge`. */
module TokioRuntime {
  import opened Trace
  import opened TokioBridge

  function Written(known: set<Context>, b: Bridge, step: Step): seq<Marker>
    requires Enabled(known, b, step)
  {
    match Emitted(known, b, step) case None => [] case Some(n) => [n]
  }

  class RuntimeLayer {
    var owners: map<SpanId, Owner>
    var locals: map<Tid, Local>
    var operation: OpId
    var log: seq<Marker>
    ghost const known: set<Context>
    ghost var lives: map<OpId, Life>

    constructor (ghost known: set<Context>)
      ensures this.known == known && View() == Start() && log == []
    {
      this.known := known;
      owners, locals, operation, log, lives := map[], map[], 1, [], map[];
    }

    ghost function View(): Bridge
      reads this
    {
      Bridge(owners, locals, operation, lives)
    }

    function Here(tid: Tid): Local
      reads this
    {
      if tid in locals then locals[tid] else Local([], Idle)
    }

    method Emit(kind: Kind, tid: Tid, request: Context, op: OpId, span: SpanId)
      modifies this`log
      ensures log == old(log) + [Note(kind, tid, request, op, span)]
    {
      log := log + [Note(kind, tid, request, op, span)];
    }

    ghost method Mark(op: OpId, stage: Stage)
      modifies this`lives
      ensures View() == Moved(old(View()), op, stage)
    {
      if op in lives { lives := lives[op := lives[op].(stage := stage)]; }
    }

    /** A new span, of any identity and naming any context, gets its owner. */
    method OnNewSpan(tid: Tid, span: SpanId, field: Option<Context>, parent: Option<SpanId>, relevant: bool)
      modifies this`owners
      ensures span in owners && owners[span].relevant == relevant && View() == old(View()).(owners := owners)
      ensures forall other :: other != span ==>
                (other in owners <==> other in old(owners)) && (other in owners ==> owners[other] == old(owners)[other])
      ensures field.Some? ==> owners[span].request == field.value
      ensures field.None? && parent.Some? && parent.value in old(owners) ==>
                owners[span].request == old(owners)[parent.value].request
      ensures field.None? && (parent.None? || parent.value !in old(owners)) ==>
                owners[span].request == Current(old(Here(tid))).0
      ensures Enabled(known, old(View()), NewSpan(tid, span, field, parent, relevant)) ==>
                View() == Next(known, old(View()), NewSpan(tid, span, field, parent, relevant))
    {
      var request := Current(Here(tid)).0;
      if field.Some? {
        request := field.value;
      } else if parent.Some? && parent.value in owners {
        request := owners[parent.value].request;
      }
      owners := owners[span := Owner(request, relevant)];
    }

    /** Entering numbers one execution interval; its two markers follow as separate writes. */
    method OnEnter(tid: Tid, span: SpanId) returns (op: Option<OpId>)
      requires Here(tid).phase.Idle? && operation + 1 < COUNTER_LIMIT
      modifies this`locals, this`operation, this`lives
      ensures View() == Next(known, old(View()), Enter(tid, span)) && log == old(log)
      ensures op.Some? <==> Relevant(old(View()), span)
    {
      if span !in owners || !owners[span].relevant {
        return None;
      }
      op := Some(operation);
      lives := lives[operation := Life(owners[span].request, Unannounced, tid)];
      locals := locals[tid := Here(tid).(phase := Counted(span, operation))];
      operation := operation + 1;
    }

    method EmitSubmit(tid: Tid)
      requires Inv(known, View()) && Enabled(known, View(), Announce(tid))
      modifies this
      ensures View() == Next(known, old(View()), Announce(tid))
      ensures log == old(log) + Written(known, old(View()), Announce(tid))
    {
      InvAt(known, View(), tid);
      var l := Here(tid);
      Emit(Submit, tid, owners[l.phase.span].request, l.phase.operation, l.phase.span);
      Mark(l.phase.operation, Submitted);
      locals := locals[tid := l.(phase := Announced(l.phase.span, l.phase.operation))];
    }

    method PushFrame(tid: Tid)
      requires Inv(known, View()) && Enabled(known, View(), Push(tid))
      modifies this
      ensures View() == Next(known, old(View()), Push(tid))
      ensures log == old(log) + Written(known, old(View()), Push(tid))
    {
      InvAt(known, View(), tid);
      var l := Here(tid);
      var request := owners[l.phase.span].request;
      Emit(WorkEnter, tid, request, l.phase.operation, l.phase.span);
      Mark(l.phase.operation, Running);
      locals := locals[tid := Local(l.stack + [Frame(l.phase.span, request, l.phase.operation)], Idle)];
    }

    method OnExit(tid: Tid, span: SpanId)
      requires Enabled(known, View(), Exit(tid, span))
      modifies this
      ensures View() == Next(known, old(View()), Exit(tid, span))
      ensures log == old(log) + Written(known, old(View()), Exit(tid, span))
    {
      if span in owners && owners[span].relevant {
        var l := Here(tid);
        var frame := l.stack[|l.stack| - 1];
        var rest := l.stack[..|l.stack| - 1];
        var outer := Current(Local(rest, Idle));
        Mark(frame.operation, Left);
        locals := locals[tid := Local(rest, Leaving(frame))];
        Emit(WorkLeave, tid, outer.0, outer.1, span);
      }
    }

    method EmitComplete(tid: Tid)
      requires Enabled(known, View(), Report(tid))
      modifies this
      ensures View() == Next(known, old(View()), Report(tid))
      ensures log == old(log) + Written(known, old(View()), Report(tid))
    {
      var l := Here(tid);
      var frame := l.phase.frame;
      Emit(Complete, tid, frame.request, frame.operation, frame.span);
      Mark(frame.operation, Completed);
      locals := locals[tid := l.(phase := Idle)];
    }

    /** A span's context may be recorded again, but never changed. */
    method OnRecord(span: SpanId, field: Option<Context>) returns (accepted: bool)
      ensures accepted <==> field.None? || (span in owners && owners[span].request == field.value)
    {
      accepted := true;
      if field.Some? {
        accepted := span in owners && field.value == owners[span].request;
      }
    }
  }
}
