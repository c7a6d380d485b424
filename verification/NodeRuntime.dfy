/** The Node bridge as it runs: shared records, a shared counter and thread-locals changed in
    place, with the branches taken when libuv's promises are broken. */
module NodeRuntime {
  import opened Trace
  import opened NodeBridge

  const UNKNOWN_WORK: int := 87
  const DUPLICATE_SUBMISSION: int := 88

  /** What one step appends to the native event log. */
  function Written(known: set<Context>, b: Bridge, step: Step): seq<Marker>
    requires Enabled(known, b, step)
  {
    match Emitted(known, b, step) case None => [] case Some(n) => [n]
  }

  class Runtime {
    /** `current_request`, `current_operation` and what each wrapper in progress restores. */
    var locals: map<Tid, Local>
    var records: map<Pointer, Entry>
    var nextOperation: OpId
    /** The exit code a broken invariant has chosen; 0 if there is none. */
    var fatal: int
    var log: seq<Marker>
    ghost const known: set<Context>
    ghost var lives: map<OpId, Life>

    constructor (ghost known: set<Context>)
      ensures this.known == known && View() == Start() && log == [] && fatal == 0
    {
      this.known := known;
      locals, records, nextOperation, fatal, log, lives := map[], map[], 1, 0, [], map[];
    }

    ghost function View(): Bridge
      reads this
    {
      Bridge(locals, records, nextOperation, lives)
    }

    function Here(tid: Tid): Local
      reads this
    {
      if tid in locals then locals[tid] else Local(0, 0, [], Idle)
    }

    method Emit(kind: Kind, tid: Tid, request: Context, operation: OpId, pointer: Pointer, status: int)
      modifies this`log
      ensures log == old(log) + [Note(kind, tid, request, operation, pointer, status)]
    {
      log := log + [Note(kind, tid, request, operation, pointer, status)];
    }

    /** The record of a work object.  An unknown one is reported and marked fatal; the wrapper goes
        on with an empty record. */
    method Lookup(tid: Tid, work: Pointer, erase: bool) returns (record: Entry)
      modifies this`records, this`fatal, this`log
      ensures work in old(records) ==>
                && record == old(records)[work] && fatal == old(fatal) && log == old(log)
                && records == if erase then old(records) - {work} else old(records)
      ensures work !in old(records) ==>
                && record == Entry(0, 0) && fatal == UNKNOWN_WORK && records == old(records)
                && log == old(log) + [Note(InvariantFailure, tid, 0, 0, work, 0)]
    {
      if work !in records {
        Emit(InvariantFailure, tid, 0, 0, work, 0);
        fatal := UNKNOWN_WORK;
        return Entry(0, 0);
      }
      record := records[work];
      if erase { records := records - {work}; }
    }

    /** The JavaScript side names the request a thread works for, registered or not. */
    method Context(tid: Tid, request: Context) returns (previous: Context)
      requires Here(tid).phase.Idle?
      modifies this`locals, this`log
      ensures View() == Next(known + {request}, old(View()), SetContext(tid, request))
              && previous == old(Here(tid)).request
      ensures log == old(log) + Written(known + {request}, old(View()), SetContext(tid, request))
    {
      var l := Here(tid);
      previous := l.request;
      if request != l.request || l.operation != 0 {
        locals := locals[tid := l.(request := request, operation := 0)];
        Emit(JsContext, tid, request, 0, 0, 0);
      }
    }

    /** First half of submitting: capture the context, number the operation, record it.  The process
        exits if something fatal was noted before, or if the work object is already recorded. */
    method Submit(tid: Tid, work: Pointer) returns (exit: int)
      requires Here(tid).phase.Idle? && nextOperation + 1 < COUNTER_LIMIT
      modifies this
      ensures old(fatal) != 0 ==> exit == old(fatal) && View() == old(View()) && log == old(log)
      ensures old(fatal) == 0 && work in old(records) ==>
                && exit == DUPLICATE_SUBMISSION && View() == old(View()).(next := old(nextOperation) + 1)
                && log == old(log) + [Note(DuplicateWork, tid, 0, 0, work, 0)]
      ensures old(fatal) == 0 && work !in old(records) ==>
                exit == 0 && View() == Next(known, old(View()), Reserve(tid, work)) && log == old(log)
      ensures exit == 0 ==>
                && records == old(records)[work := Entry(old(Here(tid)).request, old(nextOperation))]
                && Here(tid).request == old(Here(tid)).request && Here(tid).phase == Submitting(old(nextOperation))
      ensures fatal == old(fatal)
    {
      if fatal != 0 { return fatal; }
      var l := Here(tid);
      var record := Entry(l.request, nextOperation);
      nextOperation := nextOperation + 1;
      if work in records {
        Emit(DuplicateWork, tid, 0, 0, work, 0);
        return DUPLICATE_SUBMISSION;
      }
      records := records[work := record];
      lives := lives[record.operation := Life(l.request, work, Reserved, tid)];
      locals := locals[tid := l.(phase := Submitting(record.operation))];
      exit := 0;
    }

    /** Second half: write the marker and hand the work to libuv. */
    method AnnounceWork(tid: Tid, record: Entry, work: Pointer)
      requires Here(tid).phase == Submitting(record.operation) && record.operation in lives
      requires lives[record.operation].request == record.request && lives[record.operation].work == work
      modifies this`locals, this`lives, this`log
      ensures View() == Next(known, old(View()), Announce(tid))
      ensures log == old(log) + Written(known, old(View()), Announce(tid))
    {
      var l := Here(tid);
      Emit(Kind.Submit, tid, record.request, record.operation, work, 0);
      lives := lives[record.operation := lives[record.operation].(stage := Queued, holder := tid)];
      locals := locals[tid := l.(phase := Idle)];
    }

    /** Enter a context and remember the one to restore. */
    method Enter(kind: Kind, tid: Tid, record: Entry, frame: Frame, phase: Phase)
      modifies this`locals, this`log
      ensures locals ==
              old(locals)[tid :=
                          old(Here(tid)).(request := record.request, operation := record.operation, phase := phase,
                                                           frames := old(Here(tid)).frames + [frame])]
      ensures log == old(log) + [Note(kind, tid, record.request, record.operation, 0, 0)]
    {
      var l := Here(tid);
      locals := locals[tid :=
                       l.(request := record.request, operation := record.operation, phase := phase,
                          frames := l.frames + [frame])];
      Emit(kind, tid, record.request, record.operation, 0, 0);
    }

    /** Work begins; an unknown work object is entered under no request. */
    method BeginWork(tid: Tid, work: Pointer)
      requires Here(tid).phase.Idle?
      modifies this
      ensures Enabled(known, old(View()), StartWork(tid, work)) ==>
                && View() == Next(known, old(View()), StartWork(tid, work))
                && log == old(log) + Written(known, old(View()), StartWork(tid, work)) && fatal == old(fatal)
      ensures work !in old(records) ==>
                && fatal == UNKNOWN_WORK && records == old(records) && Here(tid).request == 0
                && Here(tid).operation == 0
                && log == old(log) + [Note(InvariantFailure, tid, 0, 0, work, 0), Note(WorkEnter, tid, 0, 0, 0, 0)]
    {
      var l := Here(tid);
      var record := Lookup(tid, work, false);
      if record.operation in lives {
        lives := lives[record.operation := lives[record.operation].(stage := Running, holder := tid)];
      }
      Enter(WorkEnter, tid, record, WorkFrame(record.operation, l.request, l.operation), Idle);
    }

    method FinishWork(tid: Tid)
      requires Enabled(known, View(), EndWork(tid))
      modifies this`locals, this`lives, this`log
      ensures View() == Next(known, old(View()), EndWork(tid))
      ensures log == old(log) + Written(known, old(View()), EndWork(tid))
    {
      var l := Here(tid);
      var top := l.frames[|l.frames| - 1];
      if top.operation in lives {
        lives := lives[top.operation := lives[top.operation].(stage := Ran, holder := tid)];
      }
      locals := locals[tid :=
                       l.(request := top.request, operation := top.previous, frames := l.frames[..|l.frames| - 1])];
      Emit(WorkLeave, tid, top.request, top.previous, 0, 0);
    }

    /** The record goes first: from here on the address may be reused. */
    method EraseRecord(tid: Tid, work: Pointer, status: int)
      requires Here(tid).phase.Idle?
      modifies this
      ensures Enabled(known, old(View()), TakeRecord(tid, work, status)) ==>
                View() == Next(known, old(View()), TakeRecord(tid, work, status)) && log == old(log)
                  && fatal == old(fatal)
      ensures work !in records
      ensures work !in old(records) ==>
                && fatal == UNKNOWN_WORK && Here(tid).phase == Entering(Entry(0, 0), status)
                && log == old(log) + [Note(InvariantFailure, tid, 0, 0, work, 0)]
    {
      var l := Here(tid);
      var record := Lookup(tid, work, true);
      if record.operation in lives {
        lives := lives[record.operation := lives[record.operation].(stage := Erased(status), holder := tid)];
      }
      locals := locals[tid := l.(phase := Entering(record, status))];
    }

    method BeginDone(tid: Tid)
      requires Here(tid).phase.Entering?
      modifies this`locals, this`lives, this`log
      ensures View() == Next(known, old(View()), StartDone(tid))
      ensures log == old(log) + Written(known, old(View()), StartDone(tid))
    {
      var l := Here(tid);
      var record := l.phase.entry;
      if record.operation in lives {
        lives := lives[record.operation := lives[record.operation].(stage := Finishing(l.phase.status), holder := tid)];
      }
      Enter(DoneEnter, tid, record, DoneFrame(record.operation, l.request, l.operation),
            Completing(record.operation, l.phase.status));
    }

    method Complete(tid: Tid, record: Entry, work: Pointer)
      requires Here(tid).phase.Completing? && Here(tid).phase.operation == record.operation && record.operation in lives
      requires lives[record.operation].work == work && lives[record.operation].request == record.request
      modifies this`locals, this`lives, this`log
      ensures View() == Next(known, old(View()), ReportDone(tid))
      ensures log == old(log) + Written(known, old(View()), ReportDone(tid))
    {
      var l := Here(tid);
      Emit(Kind.Complete, tid, record.request, record.operation, work, l.phase.status);
      lives := lives[record.operation := lives[record.operation].(stage := Finished(l.phase.status), holder := tid)];
      locals := locals[tid := l.(phase := Idle)];
    }

    method FinishDone(tid: Tid)
      requires Enabled(known, View(), EndDone(tid))
      modifies this`locals, this`log
      ensures View() == Next(known, old(View()), EndDone(tid))
      ensures log == old(log) + Written(known, old(View()), EndDone(tid))
    {
      var l := Here(tid);
      var top := l.frames[|l.frames| - 1];
      locals := locals[tid :=
                       l.(request := top.request, operation := top.previous, frames := l.frames[..|l.frames| - 1])];
      Emit(DoneLeave, tid, top.request, top.previous, 0, 0);
    }
  }
}
