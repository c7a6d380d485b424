/** The attributor's descriptor tables: flat maps over (table, number). */
module Descriptors {
  import opened Trace

  datatype Key = Key(table: nat, fd: nat)
  datatype ConnId = ConnId(pid: Pid, fd: nat, generation: nat)

  /** `sockets`, `close_on_exec`, `fd_tables`, `fd_table_serial` and `socket_generation`. */
  datatype FdState = FdState(
    sockets: map<Key, ConnId>,
    cloexec: set<Key>,
    tables: map<Tid, nat>,
    serial: nat,
    generation: nat)

  /** The new tables, the socket the rest of the event works on, the accepting listener
      and a freshly created connection, if any. */
  datatype Outcome = Outcome(
    fds: FdState, socket: Option<ConnId>, listener: Option<ConnId>, created: Option<ConnId>)

  function Empty(): FdState { FdState(map[], {}, map[], 0, 0) }

  // ----- the flat machine ---------------------------------------------------------

  function WithTable(f: FdState, tid: Tid): (r: FdState)
    ensures tid in r.tables
  {
    if tid in f.tables then f else f.(tables := f.tables[tid := f.serial + 1], serial := f.serial + 1)
  }

  function CopiedSockets(f: FdState, table: nat, copied: nat): map<Key, ConnId> {
    map k: Key | k in f.sockets && k.table == table :: Key(copied, k.fd) := f.sockets[k]
  }

  function CopiedFlags(f: FdState, table: nat, copied: nat): set<Key> {
    set k: Key | k in f.sockets && k.table == table && k in f.cloexec :: Key(copied, k.fd)
  }

  /** The copy gets identifier `f.serial + 1`. */
  function CopyTable(f: FdState, table: nat): FdState {
    var copied := f.serial + 1;
    f.(sockets := f.sockets + CopiedSockets(f, table, copied),
       cloexec := f.cloexec + CopiedFlags(f, table, copied),
       serial := copied)
  }

  function Lookup(f: FdState, key: Key): Option<ConnId> {
    if key in f.sockets then Some(f.sockets[key]) else None
  }

  function Flag(f: FdState, key: Key, on: bool): FdState {
    f.(cloexec := if on then f.cloexec + {key} else f.cloexec - {key})
  }

  function Unbind(f: FdState, keys: set<Key>): FdState {
    f.(sockets := f.sockets - keys, cloexec := f.cloexec - keys)
  }

  function Bind(f: FdState, key: Key, conn: ConnId, on: bool): FdState {
    Flag(f.(sockets := f.sockets[key := conn]), key, on)
  }

  /** The new socket at `key`, numbered by the next generation. */
  function Create(f: FdState, e: Syscall, key: Key, on: bool, listener: Option<ConnId>): Outcome {
    var conn := ConnId(e.stamp.pid, key.fd, f.generation + 1);
    Outcome(Bind(f.(generation := f.generation + 1), key, conn, on), Some(conn), listener, Some(conn))
  }

  /** `dup`, `dup2`, `dup3` and `F_DUPFD`: the destination takes over what the source holds. */
  function Redirect(f: FdState, key: Key, source: Option<ConnId>, on: bool): FdState {
    if source.Some? then Bind(f, key, source.value, on) else Unbind(f, {key})
  }

  function InRange(f: FdState, table: nat, bounds: Option<(nat, nat)>): set<Key> {
    set k: Key | k in f.sockets && k.table == table && bounds.Some? && bounds.value.0 <= k.fd <= bounds.value.1
  }

  function Inheritable(f: FdState, table: nat): set<Key> {
    set k: Key | k in f.cloexec && k.table == table
  }

  function CloseRangeStep(f: FdState, e: Syscall, table: nat): FdState
    requires e.call.CloseRange?
  {
    var g := if e.call.unshare then CopyTable(f, table).(tables := f.tables[e.stamp.tid := f.serial + 1]) else f;
    var own := if e.call.unshare then f.serial + 1 else table;
    var keys := InRange(g, own, e.call.bounds);
    if e.call.cloexec then g.(cloexec := g.cloexec + keys) else Unbind(g, keys)
  }

  function ExecStep(f: FdState, tid: Tid, table: nat): FdState {
    var g := CopyTable(f, table).(tables := f.tables[tid := f.serial + 1]);
    Unbind(g, Inheritable(g, f.serial + 1))
  }

  function CloneStep(f: FdState, child: Tid, files: bool, table: nat): FdState {
    if files then f.(tables := f.tables[child := table])
    else CopyTable(f, table).(tables := f.tables[child := f.serial + 1])
  }

  /** The descriptor part of one syscall of a thread whose table is `table`. */
  function Act(f: FdState, e: Syscall, table: nat): Outcome {
    var key := if e.fd.Some? then Some(Key(table, e.fd.value)) else None;
    var held := if key.Some? then Lookup(f, key.value) else None;
    var same := Outcome(f, held, None, None);
    match e.call
    case Socket(cloexec) =>
      if e.Returned() then Create(f, e, Key(table, e.ret.value), cloexec, None) else same
    case Accept(accept4, cloexec) =>
      if e.Returned() then Create(f, e, Key(table, e.ret.value), accept4 && cloexec, held) else same
    case Connect =>
      if key.Some? && held.None? then
        var conn := ConnId(e.stamp.pid, key.value.fd, f.generation + 1);
        Outcome(f.(generation := f.generation + 1, sockets := f.sockets[key.value := conn]), Some(conn), None,
                Some(conn))
      else same
    case Dup(kind, cloexec) =>
      if key.Some? && e.Returned() && !(!kind.Dup1? && e.fd.value == e.ret.value) then
        same.(fds := Redirect(f, Key(table, e.ret.value), held, kind.Dup3? && cloexec))
      else same
    case DupFd(cloexec) =>
      if key.Some? && e.Returned() then same.(fds := Redirect(f, Key(table, e.ret.value), held, cloexec)) else same
    case SetFd(cloexec) =>
      if key.Some? && e.Returned() then same.(fds := Flag(f, key.value, cloexec)) else same
    case CloseRange(_, _, _) =>
      if e.Zero() then Outcome(CloseRangeStep(f, e, table), None, None, None) else same
    case Clone(_, files) =>
      if e.Child() then same.(fds := CloneStep(f, e.ret.value, files, table)) else same
    case Unshare(files) =>
      if e.Zero() && files then same.(fds := CopyTable(f, table).(tables := f.tables[e.stamp.tid := f.serial + 1]))
        else same
    case Exec =>
      if e.Zero() then same.(fds := ExecStep(f, e.stamp.tid, table)) else same
    case Close =>
      if held.Some? && e.Zero() then same.(fds := Unbind(f, {key.value})) else same
    case Receive => same
    case Send => same
    case Other => same
  }

  function Step(f: FdState, e: Syscall): Outcome {
    var g := WithTable(f, e.stamp.tid);
    Act(g, e, g.tables[e.stamp.tid])
  }
}
