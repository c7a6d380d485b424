/** The ordered trace after lexing: native-event markers and observed syscalls.
    Text parsing has already happened; every field below is a decision the lexer made. */
module Trace {

  datatype Option<+T> = None | Some(value: T)

  /** Numeric thread and process identities, contexts (0 means "no request") and operations. */
  type Tid = int
  type Pid = int
  type Context = nat
  type OpId = nat
  type SpanId = nat

  /** The place a record was read from: trace file (one per thread) and line. */
  datatype Source = Source(file: int, line: nat)

  datatype Kind =
    | JsContext | WorkEnter | WorkLeave | DoneEnter | DoneLeave
    | Install | InstallQueue | Submit | Complete | InvariantFailure | DuplicateWork
    | IpcSend | IpcEnter | IpcLeave | IpcCancel

  /** Markers that replace the context of the emitting thread. */
  predicate Transition(kind: Kind) {
    kind.JsContext? || kind.WorkEnter? || kind.WorkLeave? || kind.DoneEnter? || kind.DoneLeave?
  }

  /** `job` is None when the field is absent, empty or not a string. */
  datatype Marker = Marker(
    kind: Kind, tid: Tid, request: Context, operation: OpId,
    pointer: nat, status: int, spanPoll: bool, job: Option<string>)

  /** Where and by whom a trace record was produced. */
  datatype Stamp = Stamp(tid: Tid, pid: Pid, source: Source)

  datatype DupKind = Dup1 | Dup2 | Dup3

  datatype Call =
    | Socket(cloexec: bool)
    | Accept(accept4: bool, cloexec: bool)
    | Connect
    | Dup(kind: DupKind, cloexec: bool)
    | DupFd(cloexec: bool)
    | SetFd(cloexec: bool)
    | CloseRange(bounds: Option<(nat, nat)>, unshare: bool, cloexec: bool)
    | Clone(thread: bool, files: bool)
    | Unshare(files: bool)
    | Exec
    | Close
    | Receive
    | Send
    | Other

  /** One syscall. `fd` is the leading descriptor argument, `ret` is None when unknown;
      `instrumentation` marks accesses to the capture's own output files. */
  datatype Syscall = Syscall(
    stamp: Stamp, call: Call, fd: Option<nat>, ret: Option<int>, instrumentation: bool)
  {
    predicate Returned() { ret.Some? && ret.value >= 0 }
    predicate Zero() { ret == Some(0) }
    predicate Child() { ret.Some? && ret.value > 0 }
    predicate Transfers() { call.Receive? || call.Send? }
  }
}
