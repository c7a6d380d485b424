/** The Node bridge: wrappers around libuv work that keep a thread-local context and emit
    markers, stepped one visible effect at a time so that every interleaving is a run. */
module NodeBridge {
  import opened Trace

  type Pointer = nat

  const COUNTER_LIMIT: nat := 0x1_0000_0000_0000_0000

  /** What libuv has done with one submission. */
  datatype Stage = Reserved | Queued | Running | Ran | Erased(status: int) | Finishing(status: int)
    | Finished(status: int)

  /** A submission: its captured request, the work object, and the thread busy with it. */
  datatype Life = Life(request: Context, work: Pointer, stage: Stage, holder: Tid)

  /** The entry of the shared `records` map. */
  datatype Entry = Entry(request: Context, operation: OpId)

  /** A wrapper on the call stack, with the context it restores on return. */
  datatype Frame =
    | WorkFrame(operation: OpId, request: Context, previous: OpId)
    | DoneFrame(operation: OpId, request: Context, previous: OpId)

  /** Between the visible effects of one wrapper: recorded but not announced, record taken but not
      entered, entered but completion not reported. */
  datatype Phase =
    | Idle | Submitting(operation: OpId) | Entering(entry: Entry, status: int)
      | Completing(operation: OpId, status: int)

  /** `current_request`, `current_operation`, and the wrappers in progress. */
  datatype Local = Local(request: Context, operation: OpId, frames: seq<Frame>, phase: Phase)

  datatype Bridge = Bridge(locals: map<Tid, Local>, records: map<Pointer, Entry>, next: OpId, lives: map<OpId, Life>)

  datatype Step =
    | SetContext(tid: Tid, request: Context)
    | Reserve(tid: Tid, work: Pointer)
    | Announce(tid: Tid)
    | StartWork(tid: Tid, work: Pointer)
    | EndWork(tid: Tid)
    | TakeRecord(tid: Tid, work: Pointer, status: int)
    | StartDone(tid: Tid)
    | ReportDone(tid: Tid)
    | EndDone(tid: Tid)

  /** The status libuv reports for work it cancelled. */
  const ECANCELED := -125

  function Start(): Bridge { Bridge(map[], map[], 1, map[]) }

  function At(b: Bridge, tid: Tid): Local {
    if tid in b.locals then b.locals[tid] else Local(0, 0, [], Idle)
  }

  function Set(b: Bridge, tid: Tid, l: Local): Bridge { b.(locals := b.locals[tid := l]) }

  predicate Pending(stage: Stage) { stage.Reserved? || stage.Queued? || stage.Running? || stage.Ran? }

  /** What the program and libuv guarantee about the next step: contexts are registered,
      pending work objects are not resubmitted, work runs once and before completion,
      cancelled work never runs, and wrappers return in call order. */
  predicate Enabled(known: set<Context>, b: Bridge, step: Step) {
    var l := At(b, step.tid);
    match step
    case SetContext(_, request) => l.phase.Idle? && (request == 0 || request in known)
    case Reserve(_, work) => l.phase.Idle? && work !in b.records
    case Announce(_) => l.phase.Submitting?
    case StartWork(_, work) =>
      l.phase.Idle? && work in b.records && b.records[work].operation in b.lives
      && b.lives[b.records[work].operation].stage == Queued
    case EndWork(_) => l.phase.Idle? && l.frames != [] && l.frames[|l.frames| - 1].WorkFrame?
    case TakeRecord(_, work, status) =>
      l.phase.Idle? && work in b.records && b.records[work].operation in b.lives
      && var stage := b.lives[b.records[work].operation].stage;
         (stage == Ran && status == 0) || (stage == Queued && status == ECANCELED)
    case StartDone(_) => l.phase.Entering?
    case ReportDone(_) => l.phase.Completing?
    case EndDone(_) => l.phase.Idle? && l.frames != [] && l.frames[|l.frames| - 1].DoneFrame?
  }

  function Moved(b: Bridge, operation: OpId, stage: Stage, holder: Tid): Bridge
    requires operation in b.lives
  {
    b.(lives := b.lives[operation := b.lives[operation].(stage := stage, holder := holder)])
  }

  function Next(known: set<Context>, b: Bridge, step: Step): Bridge
    requires Enabled(known, b, step)
  {
    var tid := step.tid;
    var l := At(b, tid);
    match step
    case SetContext(_, request) =>
      if request != l.request || l.operation != 0 then Set(b, tid, l.(request := request, operation := 0)) else b
    case Reserve(_, work) =>
      var b1 := b.(next := (b.next + 1) % COUNTER_LIMIT,
                   records := b.records[work := Entry(l.request, b.next)],
                   lives := b.lives[b.next := Life(l.request, work, Reserved, tid)]);
      Set(b1, tid, l.(phase := Submitting(b.next)))
    case Announce(_) =>
      var operation := l.phase.operation;
      var b1 := if operation in b.lives then Moved(b, operation, Queued, tid) else b;
      Set(b1, tid, l.(phase := Idle))
    case StartWork(_, work) =>
      var entry := b.records[work];
      Set(Moved(b, entry.operation, Running, tid), tid,
          l.(request := entry.request, operation := entry.operation,
             frames := l.frames + [WorkFrame(entry.operation, l.request, l.operation)]))
    case EndWork(_) =>
      var top := l.frames[|l.frames| - 1];
      var b1 := if top.operation in b.lives then Moved(b, top.operation, Ran, tid) else b;
      Set(b1, tid, l.(request := top.request, operation := top.previous, frames := l.frames[..|l.frames| - 1]))
    case TakeRecord(_, work, status) =>
      var entry := b.records[work];
      Set(Moved(b, entry.operation, Erased(status), tid).(records := b.records - {work}), tid,
          l.(phase := Entering(entry, status)))
    case StartDone(_) =>
      var entry := l.phase.entry;
      var b1 := if entry.operation in b.lives then Moved(b, entry.operation, Finishing(l.phase.status), tid) else b;
      Set(b1, tid,
          l.(request := entry.request, operation := entry.operation,
             phase := Completing(entry.operation, l.phase.status),
             frames := l.frames + [DoneFrame(entry.operation, l.request, l.operation)]))
    case ReportDone(_) =>
      var operation := l.phase.operation;
      var b1 := if operation in b.lives then Moved(b, operation, Finished(l.phase.status), tid) else b;
      Set(b1, tid, l.(phase := Idle))
    case EndDone(_) =>
      var top := l.frames[|l.frames| - 1];
      Set(b, tid, l.(request := top.request, operation := top.previous, frames := l.frames[..|l.frames| - 1]))
  }

  function Note(kind: Kind, tid: Tid, request: Context, operation: OpId, pointer: Pointer, status: int): Marker {
    Marker(kind, tid, request, operation, pointer, status, false, None)
  }

  /** The marker a step writes, if it writes one. */
  function Emitted(known: set<Context>, b: Bridge, step: Step): Option<Marker>
    requires Enabled(known, b, step)
  {
    var tid := step.tid;
    var l := At(b, tid);
    match step
    case SetContext(_, request) =>
      if request != l.request || l.operation != 0 then Some(Note(JsContext, tid, request, 0, 0, 0)) else None
    case Reserve(_, _) => None
    case Announce(_) =>
      var operation := l.phase.operation;
      if operation in b.lives
        then Some(Note(Submit, tid, b.lives[operation].request, operation, b.lives[operation].work, 0)) else None
    case StartWork(_, work) => Some(Note(WorkEnter, tid, b.records[work].request, b.records[work].operation, 0, 0))
    case EndWork(_) =>
      var top := l.frames[|l.frames| - 1];
      Some(Note(WorkLeave, tid, top.request, top.previous, 0, 0))
    case TakeRecord(_, _, _) => None
    case StartDone(_) => Some(Note(DoneEnter, tid, l.phase.entry.request, l.phase.entry.operation, 0, 0))
    case ReportDone(_) =>
      var operation := l.phase.operation;
      if operation in b.lives then
        Some(Note(Complete, tid, b.lives[operation].request, operation, b.lives[operation].work, l.phase.status))
      else None
    case EndDone(_) =>
      var top := l.frames[|l.frames| - 1];
      Some(Note(DoneLeave, tid, top.request, top.previous, 0, 0))
  }

  // ----- invariants of the bridge ----------------------------------------------------

  ghost predicate Numbered(b: Bridge) {
    1 <= b.next && forall op :: op in b.lives ==> 1 <= op < b.next
  }

  /** `records` holds exactly the submissions whose completion has not begun. */
  ghost predicate Recorded(b: Bridge) {
    && (forall w :: w in b.records ==>
          var op := b.records[w].operation;
          op in b.lives && b.lives[op].work == w && b.lives[op].request == b.records[w].request
            && Pending(b.lives[op].stage))
    && (forall op :: op in b.lives && Pending(b.lives[op].stage) ==>
          b.lives[op].work in b.records && b.records[b.lives[op].work].operation == op)
  }

  /** A thread reserving or completing holds the submission it names. */
  ghost predicate Busy(b: Bridge, t: Tid) {
    match At(b, t).phase
    case Idle => true
    case Submitting(op) => op in b.lives && b.lives[op].stage == Reserved && b.lives[op].holder == t
    case Entering(entry, status) =>
      && entry.operation in b.lives && b.lives[entry.operation].stage == Erased(status)
      && b.lives[entry.operation].holder == t
      && b.lives[entry.operation].request == entry.request
    case Completing(op, status) => op in b.lives && b.lives[op].stage == Finishing(status) && b.lives[op].holder == t
  }

  ghost predicate Attended(b: Bridge, op: OpId)
    requires op in b.lives
  {
    match b.lives[op].stage
    case Reserved => At(b, b.lives[op].holder).phase == Submitting(op)
    case Erased(status) =>
      && At(b, b.lives[op].holder).phase == Entering(Entry(b.lives[op].request, op), status)
      && (status == 0 || status == ECANCELED)
    case Finishing(status) =>
      At(b, b.lives[op].holder).phase == Completing(op, status) && (status == 0 || status == ECANCELED)
    case Finished(status) => status == 0 || status == ECANCELED
    case _ => true
  }

  ghost predicate Held(b: Bridge) {
    && (forall t :: Busy(b, t))
    && (forall op :: op in b.lives ==> Attended(b, op))
  }

  /** A thread's work frames are running submissions it holds, each once. */
  ghost predicate Stacked(b: Bridge, t: Tid) {
    var frames := At(b, t).frames;
    && (forall i :: 0 <= i < |frames| && frames[i].WorkFrame? ==>
          frames[i].operation in b.lives && b.lives[frames[i].operation].stage == Running
          && b.lives[frames[i].operation].holder == t)
    && (forall i, j :: 0 <= i < j < |frames| && frames[i].WorkFrame? && frames[j].WorkFrame? ==>
          frames[i].operation != frames[j].operation)
  }

  ghost predicate Framed(b: Bridge) { forall t :: Stacked(b, t) }

  /** A named operation has been announced and belongs to the request it is named with. */
  ghost predicate Names(known: set<Context>, b: Bridge, request: Context, operation: OpId) {
    && (request == 0 || request in known)
    && (operation != 0 ==>
        operation in b.lives && !b.lives[operation].stage.Reserved? && b.lives[operation].request == request)
  }

  ghost predicate NamesAt(known: set<Context>, b: Bridge, t: Tid) {
    && Names(known, b, At(b, t).request, At(b, t).operation)
    && forall i ::
         0 <= i < |At(b, t).frames| ==> Names(known, b, At(b, t).frames[i].request, At(b, t).frames[i].previous)
  }

  ghost predicate Named(known: set<Context>, b: Bridge) {
    && (forall t :: NamesAt(known, b, t))
    && (forall op :: op in b.lives ==> b.lives[op].request == 0 || b.lives[op].request in known)
  }

  ghost predicate Inv(known: set<Context>, b: Bridge) {
    Numbered(b) && Recorded(b) && Held(b) && Framed(b) && Named(known, b)
  }

  lemma StartInv(known: set<Context>)
    ensures Inv(known, Start())
  {
  }

  /** Other threads' locals do not move, and lives change only for one submission. */
  lemma Elsewhere(known: set<Context>, b: Bridge, step: Step, t: Tid)
    requires Enabled(known, b, step) && t != step.tid
    ensures At(Next(known, b, step), t) == At(b, t)
  {
  }

  lemma StepNumbered(known: set<Context>, b: Bridge, step: Step)
    requires Inv(known, b) && Enabled(known, b, step) && b.next + 1 < COUNTER_LIMIT
    ensures Numbered(Next(known, b, step)) && b.next <= Next(known, b, step).next <= b.next + 1
  {
    hide Recorded, Framed, Named;
  }

  lemma MovedRecorded(b: Bridge, op: OpId, stage: Stage, holder: Tid)
    requires Recorded(b) && op in b.lives && Pending(stage) == Pending(b.lives[op].stage)
    ensures Recorded(Moved(b, op, stage, holder))
  {
  }

  lemma SetRecorded(b: Bridge, t: Tid, l: Local)
    ensures Recorded(Set(b, t, l)) <==> Recorded(b)
  {
  }

  lemma ErasedRecorded(b: Bridge, work: Pointer, stage: Stage, holder: Tid)
    requires Recorded(b) && work in b.records && !Pending(stage)
    ensures b.records[work].operation in b.lives
    ensures Recorded(Moved(b, b.records[work].operation, stage, holder).(records := b.records - {work}))
  {
  }

  lemma ReservedRecorded(b: Bridge, work: Pointer, request: Context, next: OpId, holder: Tid)
    requires Recorded(b) && Numbered(b) && work !in b.records
    ensures Recorded(b.(next := next, records := b.records[work := Entry(request, b.next)],
                        lives := b.lives[b.next := Life(request, work, Reserved, holder)]))
  {
  }

  lemma StepRecorded(known: set<Context>, b: Bridge, step: Step)
    requires Inv(known, b) && Enabled(known, b, step) && b.next + 1 < COUNTER_LIMIT
    ensures Recorded(Next(known, b, step))
  {
    BusyParts(known, b, step);
    var l := At(b, step.tid);
    hide Inv, Recorded, Named, Framed, Held, Attended, NamesAt, Stacked, Moved, Set;
    match step
    case SetContext(_, request) => SetRecorded(b, step.tid, l.(request := request, operation := 0));
    case Reserve(_, work) =>
      ReservedRecorded(b, work, l.request, (b.next + 1) % COUNTER_LIMIT, step.tid);
      RecordedSets(step.tid);
    case Announce(_) =>
      MovedRecorded(b, l.phase.operation, Queued, step.tid);
      RecordedSets(step.tid);
    case StartWork(_, work) =>
      MovedRecorded(b, b.records[work].operation, Running, step.tid);
      RecordedSets(step.tid);
    case EndWork(_) =>
      MovedRecorded(b, l.frames[|l.frames| - 1].operation, Ran, step.tid);
      RecordedSets(step.tid);
    case TakeRecord(_, work, status) =>
      ErasedRecorded(b, work, Erased(status), step.tid);
      RecordedSets(step.tid);
    case StartDone(_) =>
      MovedRecorded(b, l.phase.entry.operation, Finishing(l.phase.status), step.tid);
      RecordedSets(step.tid);
    case ReportDone(_) =>
      MovedRecorded(b, l.phase.operation, Finished(l.phase.status), step.tid);
      RecordedSets(step.tid);
    case EndDone(_) => RecordedSets(step.tid);
  }

  lemma RecordedSets(t: Tid)
    ensures forall b: Bridge, l: Local :: Recorded(Set(b, t, l)) <==> Recorded(b)
  {
    forall b: Bridge, l: Local ensures Recorded(Set(b, t, l)) <==> Recorded(b) { SetRecorded(b, t, l); }
  }

  /** What the steps that move a submission know of it. */
  lemma BusyParts(known: set<Context>, b: Bridge, step: Step)
    requires Inv(known, b) && Enabled(known, b, step)
    ensures Recorded(b) && Numbered(b)
    ensures Busy(b, step.tid)
    ensures var frames := At(b, step.tid).frames;
            step.EndWork? ==> frames[|frames| - 1].operation in b.lives
                              && b.lives[frames[|frames| - 1].operation].stage == Running
  {
    hide Named, Attended, NamesAt, Recorded, Numbered, Stacked;
    assert Busy(b, step.tid);
    TopIsRunning(b, step.tid);
  }

  lemma TopIsRunning(b: Bridge, t: Tid)
    requires Framed(b)
    ensures var frames := At(b, t).frames;
            frames != [] && frames[|frames| - 1].WorkFrame? ==>
              frames[|frames| - 1].operation in b.lives && b.lives[frames[|frames| - 1].operation].stage == Running
  {
    assert Stacked(b, t);
  }

  lemma StepBusy(known: set<Context>, b: Bridge, step: Step, t: Tid)
    requires Inv(known, b) && Enabled(known, b, step) && b.next + 1 < COUNTER_LIMIT
    ensures Busy(Next(known, b, step), t)
  {
    hide Named, Framed;
    if t != step.tid { Elsewhere(known, b, step, t); }
    assert Busy(b, t) && Busy(b, step.tid);
    if step.EndWork? { assert Stacked(b, step.tid) by { assert Framed(b); StackedAt(b, step.tid); } }
  }

  lemma StackedAt(b: Bridge, t: Tid)
    requires Framed(b)
    ensures Stacked(b, t)
  {
  }

  lemma StepAttended(known: set<Context>, b: Bridge, step: Step, op: OpId)
    requires Inv(known, b) && Enabled(known, b, step) && b.next + 1 < COUNTER_LIMIT
    requires op in Next(known, b, step).lives
    ensures Attended(Next(known, b, step), op)
  {
    hide Named, Framed;
    assert Busy(b, step.tid);
    if op in b.lives {
      assert Attended(b, op);
      if b.lives[op].holder != step.tid { Elsewhere(known, b, step, b.lives[op].holder); }
    }
  }

  lemma StepHeld(known: set<Context>, b: Bridge, step: Step)
    requires Inv(known, b) && Enabled(known, b, step) && b.next + 1 < COUNTER_LIMIT
    ensures Held(Next(known, b, step))
  {
    hide Inv, Busy, Attended, Enabled, Next;
    forall t ensures Busy(Next(known, b, step), t) { StepBusy(known, b, step, t); }
    forall op | op in Next(known, b, step).lives ensures Attended(Next(known, b, step), op) {
      StepAttended(known, b, step, op);
    }
  }

  lemma StepStacked(known: set<Context>, b: Bridge, step: Step, t: Tid)
    requires Inv(known, b) && Enabled(known, b, step) && b.next + 1 < COUNTER_LIMIT
    ensures Stacked(Next(known, b, step), t)
  {
    hide Named;
    if t != step.tid { Elsewhere(known, b, step, t); }
    assert Stacked(b, t) && Stacked(b, step.tid) && Busy(b, step.tid);
  }

  lemma StepFramed(known: set<Context>, b: Bridge, step: Step)
    requires Inv(known, b) && Enabled(known, b, step) && b.next + 1 < COUNTER_LIMIT
    ensures Framed(Next(known, b, step))
  {
    hide Inv, Stacked, Enabled, Next;
    forall t ensures Stacked(Next(known, b, step), t) { StepStacked(known, b, step, t); }
  }

  /** Announced submissions stay announced, under the same request. */
  lemma NamesKept(known: set<Context>, b: Bridge, step: Step, request: Context, operation: OpId)
    requires Inv(known, b) && Enabled(known, b, step) && b.next + 1 < COUNTER_LIMIT
    requires Names(known, b, request, operation)
    ensures Names(known, Next(known, b, step), request, operation)
  {
    hide Named, Recorded;
    assert Busy(b, step.tid);
  }

  lemma StepNamesAt(known: set<Context>, b: Bridge, step: Step, t: Tid)
    requires Inv(known, b) && Enabled(known, b, step) && b.next + 1 < COUNTER_LIMIT
    ensures NamesAt(known, Next(known, b, step), t)
  {
    hide Framed, Numbered;
    assert NamesAt(known, b, t) && NamesAt(known, b, step.tid) && Busy(b, step.tid);
    var c := Next(known, b, step);
    if t != step.tid {
      Elsewhere(known, b, step, t);
      hide Inv, Enabled, Next;
    } else {
    }
    forall i | 0 <= i < |At(b, t).frames|
      ensures Names(known, c, At(b, t).frames[i].request, At(b, t).frames[i].previous) {
      NamesKept(known, b, step, At(b, t).frames[i].request, At(b, t).frames[i].previous);
    }
    NamesKept(known, b, step, At(b, t).request, At(b, t).operation);
  }

  lemma StepNamed(known: set<Context>, b: Bridge, step: Step)
    requires Inv(known, b) && Enabled(known, b, step) && b.next + 1 < COUNTER_LIMIT
    ensures Named(known, Next(known, b, step))
  {
    hide NamesAt, Numbered, Recorded, Framed;
    var c := Next(known, b, step);
    forall t ensures NamesAt(known, c, t) { StepNamesAt(known, b, step, t); }
    assert NamesAt(known, b, step.tid);
    assert At(b, step.tid).request == 0 || At(b, step.tid).request in known by { RequestKnown(known, b, step.tid); }
  }

  lemma RequestKnown(known: set<Context>, b: Bridge, t: Tid)
    requires Named(known, b)
    ensures At(b, t).request == 0 || At(b, t).request in known
  {
    assert NamesAt(known, b, t);
  }

  lemma StepInv(known: set<Context>, b: Bridge, step: Step)
    requires Inv(known, b) && Enabled(known, b, step) && b.next + 1 < COUNTER_LIMIT
    ensures Inv(known, Next(known, b, step)) && b.next <= Next(known, b, step).next <= b.next + 1
  {
    hide Numbered, Recorded, Held, Framed, Named, Enabled, Next;
    StepNumbered(known, b, step);
    StepRecorded(known, b, step);
    StepHeld(known, b, step);
    StepFramed(known, b, step);
    StepNamed(known, b, step);
  }
}
