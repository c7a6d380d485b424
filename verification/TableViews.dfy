/** What the attributor's flat maps show each task, and how calls change what others see. */
module TableViews {
  import opened Trace
  import opened Descriptors

  datatype Binding = Binding(conn: ConnId, cloexec: bool)

  function Show(f: FdState, key: Key): Option<Binding> {
    if key in f.sockets then Some(Binding(f.sockets[key], key in f.cloexec)) else None
  }

  /** What the attributor shows `tid` at number `fd`; a task without a table sees nothing. */
  function Seen(f: FdState, tid: Tid, fd: nat): Option<Binding> {
    if tid in f.tables then Show(f, Key(f.tables[tid], fd)) else None
  }

  /** Every identifier in use has been handed out. */
  predicate Allocated(f: FdState) {
    && (forall tid :: tid in f.tables ==> 1 <= f.tables[tid] <= f.serial)
    && (forall key :: key in f.sockets ==> 1 <= key.table <= f.serial)
    && (forall key :: key in f.cloexec ==> 1 <= key.table <= f.serial)
  }

  predicate Detaches(e: Syscall) {
    || (e.call.Exec? && e.Zero())
    || (e.call.Unshare? && e.call.files && e.Zero())
    || (e.call.CloseRange? && e.call.unshare && e.Zero())
  }

  predicate Adopts(e: Syscall, child: Tid) { e.call.Clone? && e.Child() && e.ret.value == child }

  /** Table `id` shows the same as before. */
  ghost predicate Untouched(f: FdState, g: FdState, id: nat) {
    forall key: Key :: key.table == id ==> Show(g, key) == Show(f, key)
  }

  // ----- copies ------------------------------------------------------------------------

  lemma CopyAt(f: FdState, table: nat, key: Key)
    requires Allocated(f)
    ensures Show(CopyTable(f, table), key) == Show(f, if key.table == f.serial + 1 then Key(table, key.fd) else key)
  {
    hide CopiedSockets, CopiedFlags;
    CopiedAt(f, table, key);
    if key.table == f.serial + 1 { assert key !in f.sockets && key !in f.cloexec; }
  }

  lemma CopiedAt(f: FdState, table: nat, key: Key)
    ensures var origin := Key(table, key.fd);
            var there := key.table == f.serial + 1 && origin in f.sockets;
            && (key in CopiedSockets(f, table, f.serial + 1) <==> there)
            && (there ==> CopiedSockets(f, table, f.serial + 1)[key] == f.sockets[origin])
            && (key in CopiedFlags(f, table, f.serial + 1) <==> there && origin in f.cloexec)
  {
    if key.table == f.serial + 1 && Key(table, key.fd) in f.sockets {
      assert Key(f.serial + 1, Key(table, key.fd).fd) in CopiedSockets(f, table, f.serial + 1);
    }
  }

  /** A copy keeps what every table shows, and identifiers stay allocated for whichever task gets it. */
  lemma Copied(f: FdState, table: nat, tid: Tid)
    requires Allocated(f)
    ensures var g := CopyTable(f, table).(tables := f.tables[tid := f.serial + 1]);
            && Allocated(g) && g.serial == f.serial + 1 && g.generation == f.generation
            && (forall id :: id != f.serial + 1 ==> Untouched(f, g, id))
            && (forall fd: nat :: Show(g, Key(f.serial + 1, fd)) == Show(f, Key(table, fd)))
  {
    var h := CopyTable(f, table);
    var g := h.(tables := f.tables[tid := f.serial + 1]);
    assert Allocated(g) && g.serial == f.serial + 1 && g.generation == f.generation;
    forall key: Key | key.table != f.serial + 1 ensures Show(g, key) == Show(f, key) { CopyAt(f, table, key); }
    forall fd: nat ensures Show(g, Key(f.serial + 1, fd)) == Show(f, Key(table, fd)) {
      CopyAt(f, table, Key(f.serial + 1, fd));
    }
  }

  lemma HandedOut(f: FdState, tid: Tid)
    requires Allocated(f)
    ensures Allocated(WithTable(f, tid)) && WithTable(f, tid).generation == f.generation
    ensures forall other, fd: nat :: Seen(WithTable(f, tid), other, fd) == Seen(f, other, fd)
  {
  }

  // ----- single numbers -----------------------------------------------------------------

  lemma BindShows(f: FdState, key: Key, conn: ConnId, on: bool)
    ensures forall k: Key :: Show(Bind(f, key, conn, on), k) == if k == key then Some(Binding(conn, on)) else Show(f, k)
  {
  }

  lemma UnbindShows(f: FdState, keys: set<Key>)
    ensures forall k: Key :: Show(Unbind(f, keys), k) == if k in keys then None else Show(f, k)
  {
  }

  lemma FlagShows(f: FdState, key: Key, on: bool)
    ensures forall k: Key :: Show(Flag(f, key, on), k) ==
                             if k == key && key in f.sockets then Some(Binding(f.sockets[key], on)) else Show(f, k)
  {
  }

  lemma RevealShows(f: FdState, key: Key, conn: ConnId, generation: nat)
    ensures var g := f.(generation := generation, sockets := f.sockets[key := conn]);
            forall k: Key :: Show(g, k) == if k == key then Some(Binding(conn, key in f.cloexec)) else Show(f, k)
  {
  }

  // ----- what a call leaves alone -------------------------------------------------------

  lemma ExecFrame(f: FdState, tid: Tid, table: nat, id: nat)
    requires Allocated(f) && 1 <= id <= f.serial
    ensures Untouched(f, ExecStep(f, tid, table), id)
  {
    hide CopyTable;
    Copied(f, table, tid);
    var g := CopyTable(f, table).(tables := f.tables[tid := f.serial + 1]);
    UnbindShows(g, Inheritable(g, f.serial + 1));
    assert Untouched(f, g, id);
  }

  lemma CloseRangeFrame(f: FdState, e: Syscall, table: nat, id: nat)
    requires Allocated(f) && 1 <= id <= f.serial && e.call.CloseRange? && (e.call.unshare || table != id)
    ensures Untouched(f, CloseRangeStep(f, e, table), id)
  {
    hide CopyTable;
    Copied(f, table, e.stamp.tid);
    assert e.call.unshare ==> Untouched(f, CopyTable(f, table).(tables := f.tables[e.stamp.tid := f.serial + 1]), id);
  }

  lemma BindFrame(f: FdState, key: Key, conn: ConnId, on: bool, generation: nat, id: nat)
    requires key.table != id
    ensures Untouched(f, Bind(f.(generation := generation), key, conn, on), id)
    ensures Untouched(f, f.(generation := generation, sockets := f.sockets[key := conn]), id)
    ensures Untouched(f, Unbind(f, {key}), id)
    ensures Untouched(f, Flag(f, key, on), id)
  {
  }

  lemma ActFrame(f: FdState, e: Syscall, id: nat)
    requires Allocated(f) && e.stamp.tid in f.tables && 1 <= id <= f.serial
    requires id != f.tables[e.stamp.tid] || Detaches(e)
    ensures Untouched(f, Act(f, e, f.tables[e.stamp.tid]).fds, id)
  {
    var table := f.tables[e.stamp.tid];
    if Detaches(e) || e.call.Clone? || e.call.CloseRange? {
      WholeFrame(f, e, id);
    } else {
      hide CopyTable, ExecStep, CloseRangeStep, Bind, Unbind, Flag, Allocated, Show;
      forall key: Key, conn, on, generation | key.table != id
        ensures Untouched(f, Bind(f.(generation := generation), key, conn, on), id)
        ensures Untouched(f, f.(generation := generation, sockets := f.sockets[key := conn]), id)
        ensures Untouched(f, Unbind(f, {key}), id)
        ensures Untouched(f, Flag(f, key, on), id)
      {
        BindFrame(f, key, conn, on, generation, id);
      }
      assert f.(generation := f.generation) == f;
    }
  }

  lemma WholeFrame(f: FdState, e: Syscall, id: nat)
    requires Allocated(f) && e.stamp.tid in f.tables && 1 <= id <= f.serial
    requires id != f.tables[e.stamp.tid] || Detaches(e)
    requires Detaches(e) || e.call.Clone? || e.call.CloseRange?
    ensures Untouched(f, Act(f, e, f.tables[e.stamp.tid]).fds, id)
  {
    hide CopyTable, ExecStep, CloseRangeStep, Allocated, Redirect, Create;
    var table := f.tables[e.stamp.tid];
    Copied(f, table, if e.call.Clone? && e.Child() then e.ret.value else e.stamp.tid);
    ExecFrame(f, e.stamp.tid, table, id);
    if e.call.CloseRange? && e.Zero() { CloseRangeFrame(f, e, table, id); }
  }


  // ----- what the tables promise each task ----------------------------------------------

  /** A task with another table, or one left behind by a detaching call, notices nothing;
      a task sharing the table sees exactly what the caller sees. */
  lemma SharingAndIsolation(f: FdState, e: Syscall, other: Tid)
    requires Allocated(f) && other in f.tables && other != e.stamp.tid && !Adopts(e, other)
    ensures var g := Step(f, e).fds;
            && other in g.tables && e.stamp.tid in g.tables && g.tables[other] == f.tables[other]
            && (if e.stamp.tid in f.tables && f.tables[e.stamp.tid] == f.tables[other] && !Detaches(e)
                then forall fd :: Seen(g, other, fd) == Seen(g, e.stamp.tid, fd)
                else forall fd :: Seen(g, other, fd) == Seen(f, other, fd))
  {
    hide Act;
    var h := WithTable(f, e.stamp.tid);
    assert Allocated(h);
    ActTables(h, e);
    var g := Step(f, e).fds;
    if !(e.stamp.tid in f.tables && f.tables[e.stamp.tid] == f.tables[other] && !Detaches(e)) {
      ActFrame(h, e, f.tables[other]);
    } else if Adopts(e, e.stamp.tid) {
      SelfCopy(f, e);
    }
  }

  /** A clone that names its own caller leaves it with the same bindings. */
  lemma SelfCopy(f: FdState, e: Syscall)
    requires Allocated(f) && e.stamp.tid in f.tables && Adopts(e, e.stamp.tid)
    ensures var g := Act(f, e, f.tables[e.stamp.tid]).fds;
            && e.stamp.tid in g.tables
            && forall fd :: Seen(g, e.stamp.tid, fd) == Show(g, Key(f.tables[e.stamp.tid], fd))
  {
    CopiedAlike(f, f.tables[e.stamp.tid], e.stamp.tid);
    hide CopyTable, Show, Allocated;
  }

  lemma CopiedAlike(f: FdState, table: nat, tid: Tid)
    requires Allocated(f) && table <= f.serial
    ensures var g := CopyTable(f, table).(tables := f.tables[tid := f.serial + 1]);
            forall fd: nat :: Show(g, Key(f.serial + 1, fd)) == Show(g, Key(table, fd))
  {
    Copied(f, table, tid);
    hide CopyTable, Show, Allocated;
    assert Untouched(f, CopyTable(f, table).(tables := f.tables[tid := f.serial + 1]), table);
  }

  lemma ActTables(f: FdState, e: Syscall)
    requires Allocated(f) && e.stamp.tid in f.tables
    ensures var g := Act(f, e, f.tables[e.stamp.tid]).fds;
            && e.stamp.tid in g.tables
            && (forall tid :: tid in f.tables && tid != e.stamp.tid && !Adopts(e, tid) ==>
                  tid in g.tables && g.tables[tid] == f.tables[tid])
            && (!Detaches(e) && !Adopts(e, e.stamp.tid) ==> g.tables[e.stamp.tid] == f.tables[e.stamp.tid])
            && (Detaches(e) ==> g.tables[e.stamp.tid] == f.serial + 1)
  {
    hide CopyTable;
    assert CopyTable(f, f.tables[e.stamp.tid]).serial == f.serial + 1 by { CopySerial(f, f.tables[e.stamp.tid]); }
  }

  lemma CopySerial(f: FdState, table: nat)
    ensures CopyTable(f, table).serial == f.serial + 1
  {
  }

  /** `exec` keeps the caller's bindings except the close-on-exec ones. */
  lemma ExecSurvivors(f: FdState, e: Syscall, fd: nat)
    requires Allocated(f) && e.stamp.tid in f.tables && e.call.Exec? && e.Zero()
    ensures var g := Step(f, e).fds;
            var before := Seen(f, e.stamp.tid, fd);
            && e.stamp.tid in g.tables
            && Seen(g, e.stamp.tid, fd) == (if before.Some? && before.value.cloexec then None else before)
  {
    hide CopyTable, ExecStep, Allocated, Show;
    ExecShows(f, e.stamp.tid, f.tables[e.stamp.tid]);
    ExecIs(f, e);
    hide Step;
  }

  lemma ExecIs(f: FdState, e: Syscall)
    requires e.stamp.tid in f.tables && e.call.Exec? && e.Zero()
    ensures Step(f, e).fds == ExecStep(f, e.stamp.tid, f.tables[e.stamp.tid])
  {
    hide ExecStep;
  }

  lemma ExecShows(f: FdState, tid: Tid, table: nat)
    requires Allocated(f)
    ensures var g := ExecStep(f, tid, table);
            && Allocated(g) && g.generation == f.generation && g.tables == f.tables[tid := f.serial + 1]
            && (forall id :: id != f.serial + 1 ==> Untouched(f, g, id))
            && forall fd: nat ::
                 var before := Show(f, Key(table, fd));
                 Show(g, Key(f.serial + 1, fd)) == if before.Some? && before.value.cloexec then None else before
  {
    hide CopyTable;
    Copied(f, table, tid);
    var g := CopyTable(f, table).(tables := f.tables[tid := f.serial + 1]);
    UnbindShows(g, Inheritable(g, f.serial + 1));
    forall key: Key | key.table != f.serial + 1 ensures Show(ExecStep(f, tid, table), key) == Show(f, key) {
      assert Untouched(f, g, key.table);
    }
    forall fd: nat ensures
      var before := Show(f, Key(table, fd));
      Show(ExecStep(f, tid, table), Key(f.serial + 1, fd)) ==
        if before.Some? && before.value.cloexec then None else before
    {
      assert Show(g, Key(f.serial + 1, fd)) == Show(f, Key(table, fd));
    }
  }

  /** After `exec` no flag is remembered for the new table. */
  lemma ExecForgets(f: FdState, tid: Tid, table: nat, fd: nat)
    requires Allocated(f)
    ensures Key(f.serial + 1, fd) !in ExecStep(f, tid, table).cloexec
  {
    hide CopyTable;
  }

  // ----- which connection a call works on -------------------------------------------------

  function ConnectionOf(b: Option<Binding>): Option<ConnId> { if b.Some? then Some(b.value.conn) else None }

  /** The connection the caller is shown at the call's leading descriptor. */
  function Shown(f: FdState, e: Syscall): Option<ConnId> {
    if e.fd.Some? then ConnectionOf(Seen(f, e.stamp.tid, e.fd.value)) else None
  }

  /** A call that makes a connection: a successful socket or accept at the number returned, and a connect on a
      number where none is shown, at that number. */
  function Made(f: FdState, e: Syscall): Option<ConnId> {
    if (e.call.Socket? || e.call.Accept?) && e.Returned() then Some(ConnId(e.stamp.pid, e.ret.value, f.generation + 1))
    else if e.call.Connect? && e.fd.Some? && Shown(f, e).None? then
      Some(ConnId(e.stamp.pid, e.fd.value, f.generation + 1))
    else None
  }

  /** The connection a call works on: the one it makes, none for a successful close_range, else the one shown
      at its descriptor before it. */
  function Worked(f: FdState, e: Syscall): Option<ConnId> {
    if Made(f, e).Some? then Made(f, e) else if e.call.CloseRange? && e.Zero() then None else Shown(f, e)
  }

  lemma WorksOn(f: FdState, e: Syscall)
    requires Allocated(f)
    ensures var out := Step(f, e);
            && out.socket == Worked(f, e) && out.created == Made(f, e)
            && out.listener == (if e.call.Accept? && e.Returned() then Shown(f, e) else None)
    ensures Made(f, e).Some? ==> ConnectionOf(Seen(Step(f, e).fds, e.stamp.tid, Made(f, e).value.fd)) == Made(f, e)
  {
    HandedOut(f, e.stamp.tid);
    var g := WithTable(f, e.stamp.tid);
    assert e.fd.Some? ==> Seen(g, e.stamp.tid, e.fd.value) == Seen(f, e.stamp.tid, e.fd.value);
    hide CopyTable, ExecStep, CloseRangeStep, CloneStep, Redirect, Allocated;
  }

  lemma StepAllocated(f: FdState, e: Syscall)
    requires Allocated(f)
    ensures Allocated(Step(f, e).fds)
  {
    HandedOut(f, e.stamp.tid);
    hide Allocated, Act, WithTable;
    ActAllocated(WithTable(f, e.stamp.tid), e);
  }

  lemma ActAllocated(f: FdState, e: Syscall)
    requires Allocated(f) && e.stamp.tid in f.tables
    ensures Allocated(Act(f, e, f.tables[e.stamp.tid]).fds)
  {
    hide Allocated, Act;
    if e.call.CloseRange? || e.call.Clone? || e.call.Unshare? || e.call.Exec? {
      TablesAllocated(f, e);
    } else {
      NumbersAllocated(f, e);
    }
  }

  lemma TablesAllocated(f: FdState, e: Syscall)
    requires Allocated(f) && e.stamp.tid in f.tables
    requires e.call.CloseRange? || e.call.Clone? || e.call.Unshare? || e.call.Exec?
    ensures Allocated(Act(f, e, f.tables[e.stamp.tid]).fds)
  {
    hide CopyTable, ExecStep, CloseRangeStep, Allocated, CloneStep, Create, Redirect, Flag, Unbind;
    WholeAllocated(f, e);
  }

  lemma NumbersAllocated(f: FdState, e: Syscall)
    requires Allocated(f) && e.stamp.tid in f.tables
    requires !e.call.CloseRange? && !e.call.Clone? && !e.call.Unshare? && !e.call.Exec?
    ensures Allocated(Act(f, e, f.tables[e.stamp.tid]).fds)
  {
    hide CopyTable, ExecStep, CloseRangeStep, Allocated, CloneStep, Create, Redirect, Flag, Unbind;
    TableInUse(f, e.stamp.tid);
    if e.fd.Some? { OpsAllocated(f, e, Key(f.tables[e.stamp.tid], e.fd.value)); }
    if e.Returned() { OpsAllocated(f, e, Key(f.tables[e.stamp.tid], e.ret.value)); }
  }

  lemma TableInUse(f: FdState, tid: Tid)
    requires Allocated(f) && tid in f.tables
    ensures 1 <= f.tables[tid] <= f.serial
  {
  }

  lemma OpsAllocated(f: FdState, e: Syscall, key: Key)
    requires Allocated(f) && 1 <= key.table <= f.serial
    ensures forall on: bool, listener :: Allocated(Create(f, e, key, on, listener).fds)
    ensures forall source, on: bool :: Allocated(Redirect(f, key, source, on))
    ensures forall on: bool :: Allocated(Flag(f, key, on))
    ensures Allocated(Unbind(f, {key}))
    ensures var conn := ConnId(e.stamp.pid, key.fd, f.generation + 1);
            Allocated(f.(generation := f.generation + 1, sockets := f.sockets[key := conn]))
  {
  }

  lemma WholeAllocated(f: FdState, e: Syscall)
    requires Allocated(f) && e.stamp.tid in f.tables
    ensures var table := f.tables[e.stamp.tid];
            && (e.call.CloseRange? ==> Allocated(CloseRangeStep(f, e, table)))
            && Allocated(ExecStep(f, e.stamp.tid, table))
            && Allocated(CopyTable(f, table).(tables := f.tables[e.stamp.tid := f.serial + 1]))
            && (e.call.Clone? && e.Child() ==> Allocated(CloneStep(f, e.ret.value, e.call.files, table)))
  {
    var table := f.tables[e.stamp.tid];
    Copied(f, table, e.stamp.tid);
    if e.call.Clone? && e.Child() { Copied(f, table, e.ret.value); }
    ExecShows(f, e.stamp.tid, table);
    CloseRangeAllocated(f, e, table);
    hide CopyTable, ExecStep, CloseRangeStep, Untouched, Show;
  }

  lemma CloseRangeAllocated(f: FdState, e: Syscall, table: nat)
    requires Allocated(f) && e.stamp.tid in f.tables && table == f.tables[e.stamp.tid]
    ensures e.call.CloseRange? ==> Allocated(CloseRangeStep(f, e, table))
  {
    hide CopyTable;
    Copied(f, table, e.stamp.tid);
  }
}
