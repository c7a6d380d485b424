/** The kernel's descriptor tables: every living task points to a table object, and a table maps
    numbers to open files, traced or not, with their close-on-exec flag.  The attributor's flat
    maps show every task the same, event by event, except at events that are characterised exactly. */
module KernelTables {
  import opened Trace
  import opened Descriptors
  import opened TableViews

  /** An open file: its identity and whether it is a socket. */
  datatype File = File(id: nat, socket: bool)
  datatype Entry = Entry(file: File, cloexec: bool)
  type Table = map<nat, Entry>
  type Names = map<File, ConnId>

  /** `task` holds the living tasks only.  `names` is not the kernel's: it records which open files
      the trace has identified as connections, and `generation` numbers them. */
  datatype Kernel = Kernel(task: map<Tid, nat>, tables: map<nat, Table>, next: nat, names: Names, generation: nat)

  /** What the trace does not show about a call: the file a creating call opens, and, for a call
      whose effect it does not tell, the table the caller has afterwards and whether it is a new
      one of its own. */
  datatype Unseen = Unseen(born: File, after: Table, split: bool)

  /** Between calls, tasks come, with a table of their own or sharing another's, and go, and a table
      may change by no call of its own task. */
  datatype Event =
    | Happens(e: Syscall, unseen: Unseen)
    | Shifts(tid: Tid, after: Table)
    | Begins(tid: Tid, table: Table)
    | Joins(tid: Tid, partner: Tid)
    | Ends(tid: Tid)

  function Boot(): Kernel { Kernel(map[], map[], 0, map[], 0) }

  /** Every task points to a table, and no table is numbered beyond `next`. */
  predicate Rooted(k: Kernel) {
    && (forall tid :: tid in k.task ==> k.task[tid] in k.tables)
    && (forall id :: id in k.tables ==> id <= k.next)
  }

  function Own(k: Kernel, tid: Tid): Table
    requires Rooted(k) && tid in k.task
  {
    k.tables[k.task[tid]]
  }

  /** Give `tid` a private table holding `contents`. */
  function Detached(k: Kernel, tid: Tid, contents: Table): (r: Kernel)
    ensures Rooted(k) ==> Rooted(r)
  {
    k.(task := k.task[tid := k.next + 1], tables := k.tables[k.next + 1 := contents], next := k.next + 1)
  }

  /** The table of `tid`, and of the tasks it shares it with, now holds `contents`. */
  function Put(k: Kernel, tid: Tid, contents: Table): (r: Kernel)
    requires Rooted(k) && tid in k.task
    ensures Rooted(r)
  {
    k.(tables := k.tables[k.task[tid] := contents])
  }

  function Settle(k: Kernel, tid: Tid, contents: Table, split: bool): (r: Kernel)
    requires Rooted(k) && tid in k.task
    ensures Rooted(r)
  {
    if split then Detached(k, tid, contents) else Put(k, tid, contents)
  }

  /** The trace has identified `file` as a connection. */
  function Name(k: Kernel, file: File, pid: Pid, fd: nat): (r: Kernel)
    ensures Rooted(k) ==> Rooted(r)
  {
    k.(names := k.names[file := ConnId(pid, fd, k.generation + 1)], generation := k.generation + 1)
  }

  function Survivors(t: Table): Table { map fd | fd in t && !t[fd].cloexec :: t[fd] }

  function Marked(t: Table, low: nat, high: nat): Table {
    map fd | fd in t :: if low <= fd <= high then Entry(t[fd].file, true) else t[fd]
  }

  function Outside(t: Table, low: nat, high: nat): Table { map fd | fd in t && !(low <= fd <= high) :: t[fd] }

  function Swept(t: Table, low: nat, high: nat, cloexec: bool): Table {
    if cloexec then Marked(t, low, high) else Outside(t, low, high)
  }

  /** The trace tells what the call did.  It does not if the call failed or its result is unknown, if
      its descriptor or range was not read, or if it is of a kind the attributor does not look at. */
  predicate Told(e: Syscall) {
    match e.call
    case Socket(_) => e.Returned()
    case Accept(_, _) => e.Returned()
    case Connect => true
    case Dup(_, _) => e.fd.Some? && e.Returned()
    case DupFd(_) => e.fd.Some? && e.Returned()
    case SetFd(_) => e.fd.Some? && e.Returned()
    case CloseRange(bounds, _, _) => bounds.Some? && e.Zero()
    case Clone(_, _) => e.Child()
    case Unshare(_) => e.Zero()
    case Exec => e.Zero()
    case Close => e.fd.Some? && e.Zero()
    case _ => false
  }

  /** What the kernel does, to every open descriptor alike.  A call whose effect is not told leaves
      the caller whatever table it may.  A connect changes no descriptor; if it was made on an
      unidentified socket, the trace identifies that socket from then on. */
  function KernelAct(k: Kernel, e: Syscall, u: Unseen): (r: Kernel)
    requires Rooted(k) && e.stamp.tid in k.task
    ensures Rooted(r)
  {
    var tid := e.stamp.tid;
    var t := Own(k, tid);
    if !Told(e) then Settle(k, tid, u.after, u.split || Detaches(e)) else
    match e.call
    case Socket(on) => Put(Name(k, u.born, e.stamp.pid, e.ret.value), tid, t[e.ret.value := Entry(u.born, on)])
    case Accept(flags, on) =>
      Put(Name(k, u.born, e.stamp.pid, e.ret.value), tid, t[e.ret.value := Entry(u.born, flags && on)])
    case Connect =>
      if e.fd.Some? && e.fd.value in t && t[e.fd.value].file.socket && t[e.fd.value].file !in k.names
      then Name(k, t[e.fd.value].file, e.stamp.pid, e.fd.value)
      else k
    case Dup(kind, on) =>
      if e.fd.value !in t || (!kind.Dup1? && e.fd.value == e.ret.value) then k
      else Put(k, tid, t[e.ret.value := Entry(t[e.fd.value].file, kind.Dup3? && on)])
    case DupFd(on) => if e.fd.value !in t then k else Put(k, tid, t[e.ret.value := Entry(t[e.fd.value].file, on)])
    case SetFd(on) => if e.fd.value !in t then k else Put(k, tid, t[e.fd.value := Entry(t[e.fd.value].file, on)])
    case CloseRange(bounds, unshare, on) => Settle(k, tid, Swept(t, bounds.value.0, bounds.value.1, on), unshare)
    case Clone(_, files) =>
      if files then k.(task := k.task[e.ret.value := k.task[tid]]) else Detached(k, e.ret.value, t)
    case Unshare(files) => if files then Detached(k, tid, t) else k
    case Exec => Detached(k, tid, Survivors(t))
    case Close => Put(k, tid, t - {e.fd.value})
    case _ => k
  }

  function KernelStep(k: Kernel, event: Event): (r: Kernel)
    requires Rooted(k) && Possible(k, event)
    ensures Rooted(r)
  {
    match event
    case Happens(e, u) => KernelAct(k, e, u)
    case Shifts(tid, after) => Put(k, tid, after)
    case Begins(tid, table) => Detached(k, tid, table)
    case Joins(tid, partner) => k.(task := k.task[tid := k.task[partner]])
    case Ends(tid) => k.(task := k.task - {tid})
  }

  /** The attributor sees only the calls. */
  function FlatStep(f: FdState, event: Event): FdState { if event.Happens? then Step(f, event.e).fds else f }

  /** No living task has the file open, and the trace has not named it. */
  ghost predicate Unused(k: Kernel, file: File)
    requires Rooted(k)
  {
    file !in k.names && forall tid, fd :: tid in k.task && fd in Own(k, tid) ==> Own(k, tid)[fd].file != file
  }

  /** What a kernel guarantees: living tasks call, a creating call opens a new socket, duplication
      returns only for an open descriptor, and a new task has an identity no living task has. */
  ghost predicate Possible(k: Kernel, event: Event)
    requires Rooted(k)
  {
    match event
    case Happens(e, u) =>
      && e.stamp.tid in k.task
      && ((e.call.Socket? || e.call.Accept?) && Told(e) ==> u.born.socket && Unused(k, u.born))
      && ((e.call.Dup? || e.call.DupFd?) && Told(e) ==> e.fd.value in Own(k, e.stamp.tid))
      && (e.call.Clone? && Told(e) ==> e.ret.value !in k.task)
    case Shifts(tid, _) => tid in k.task
    case Begins(tid, _) => tid !in k.task
    case Joins(tid, partner) => tid !in k.task && partner in k.task
    case Ends(tid) => true
  }

  // ----- the simulation -----------------------------------------------------------

  /** What of a descriptor the trace can know: its connection, if identified, and its flag. */
  function Held(t: Table, fd: nat, names: Names): Option<Binding> {
    if fd in t && t[fd].file in names then Some(Binding(names[t[fd].file], t[fd].cloexec)) else None
  }

  ghost predicate Shows(f: FdState, table: nat, t: Table, names: Names) {
    forall fd: nat :: Show(f, Key(table, fd)) == Held(t, fd, names)
  }

  predicate Together(f: FdState, a: Tid, b: Tid) { a in f.tables && b in f.tables && f.tables[a] == f.tables[b] }

  /** Every living task is shown exactly the identified descriptors it has, with their flags, and
      the attributor takes living tasks to share a table exactly if they do. */
  ghost predicate Agrees(f: FdState, k: Kernel)
    requires Rooted(k)
  {
    && (forall tid, fd: nat :: tid in k.task ==> Seen(f, tid, fd) == Held(Own(k, tid), fd, k.names))
    && (forall a, b :: a in k.task && b in k.task && a != b ==> (Together(f, a, b) <==> k.task[a] == k.task[b]))
  }

  /** Agreement, with the attributor's own bookkeeping. */
  ghost predicate Sim(f: FdState, k: Kernel)
    requires Rooted(k)
  {
    Allocated(f) && f.generation == k.generation && Agrees(f, k)
  }

  // ----- where they part -------------------------------------------------------------

  /** Another descriptor, of any living task, refers to the same open file. */
  ghost predicate Shared(k: Kernel, tid: Tid, fd: nat)
    requires Rooted(k) && tid in k.task && fd in Own(k, tid)
  {
    exists other, n ::
      && other in k.task && n in Own(k, other) && (k.task[other] != k.task[tid] || n != fd)
      && Own(k, other)[n].file == Own(k, tid)[fd].file
  }

  /** A connect on a number the attributor does not hold misleads it if the number is not open, is
      not a socket, has a flag unlike the one remembered, or is open under another descriptor too. */
  ghost predicate Misleads(f: FdState, k: Kernel, tid: Tid, fd: nat)
    requires Rooted(k) && tid in k.task && tid in f.tables
  {
    var t := Own(k, tid);
    || fd !in t
    || !t[fd].file.socket
    || t[fd].cloexec != (Key(f.tables[tid], fd) in f.cloexec)
    || Shared(k, tid, fd)
  }

  /** Somewhere an identified descriptor is closed, replaced, brought in, or has its flag changed. */
  ghost predicate Alters(names: Names, t: Table, after: Table) {
    exists fd: nat :: Held(t, fd, names) != Held(after, fd, names)
  }

  ghost predicate Accompanied(k: Kernel, tid: Tid)
    requires tid in k.task
  {
    exists other :: other in k.task && other != tid && k.task[other] == k.task[tid]
  }

  /** The call, seen from the states before it, takes the attributor away from the kernel: it is a
      misleading connect, or a call not told that touches what is identified or leaves a shared table. */
  ghost predicate Parts(f: FdState, k: Kernel, e: Syscall, u: Unseen)
    requires Rooted(k) && e.stamp.tid in k.task && e.stamp.tid in f.tables
  {
    var tid := e.stamp.tid;
    if Told(e) then
      e.call.Connect? && e.fd.Some? && Key(f.tables[tid], e.fd.value) !in f.sockets && Misleads(f, k, tid, e.fd.value)
    else
      Alters(k.names, Own(k, tid), u.after) || (u.split && !Detaches(e) && Accompanied(k, tid))
  }

  /** Besides such calls: a change by no call that touches what is identified, and a task that begins
      unannounced while the attributor shows its identity anything but the identified descriptors it
      has, or the wrong company. */
  ghost predicate Diverges(f: FdState, k: Kernel, event: Event)
    requires Rooted(k) && Possible(k, event)
  {
    match event
    case Happens(e, u) => Parts(WithTable(f, e.stamp.tid), k, e, u)
    case Shifts(tid, after) => Alters(k.names, Own(k, tid), after)
    case Begins(tid, table) =>
      || (exists fd: nat :: Seen(f, tid, fd) != Held(table, fd, k.names))
      || (exists other :: other in k.task && Together(f, tid, other))
    case Joins(tid, partner) => !Together(f, tid, partner)
    case Ends(tid) => false
  }

  // ----- parts of a state ----------------------------------------------------------

  lemma SimStarted(f: FdState, k: Kernel, tid: Tid)
    requires Rooted(k) && Allocated(f)
    ensures Agrees(WithTable(f, tid), k) <==> Agrees(f, k)
    ensures Sim(WithTable(f, tid), k) <==> Sim(f, k)
  {
    HandedOut(f, tid);
    var g := WithTable(f, tid);
    forall a, b | a != b ensures Together(g, a, b) <==> Together(f, a, b) {}
  }

  lemma SimShows(f: FdState, k: Kernel, tid: Tid)
    requires Rooted(k) && Sim(f, k) && tid in k.task && tid in f.tables
    ensures Allocated(f) && f.generation == k.generation && Shows(f, f.tables[tid], Own(k, tid), k.names)
  {
    forall fd: nat ensures Show(f, Key(f.tables[tid], fd)) == Held(Own(k, tid), fd, k.names) {
      assert Seen(f, tid, fd) == Held(Own(k, tid), fd, k.names);
    }
  }

  /** Only the table of `tid` changes, on both sides. */
  lemma SimPut(f: FdState, g: FdState, k: Kernel, tid: Tid, contents: Table)
    requires Rooted(k) && Sim(f, k) && tid in k.task && tid in f.tables
    requires Allocated(g) && g.tables == f.tables && g.generation == f.generation
    requires forall id :: id != f.tables[tid] ==> Untouched(f, g, id)
    ensures Shows(g, f.tables[tid], contents, k.names) ==> Sim(g, Put(k, tid, contents))
    ensures Agrees(g, Put(k, tid, contents)) ==> Shows(g, f.tables[tid], contents, k.names)
  {
    hide Allocated, Show, Held;
    var h := Put(k, tid, contents);
    var table := f.tables[tid];
    if Agrees(g, h) {
      forall fd: nat ensures Show(g, Key(table, fd)) == Held(contents, fd, k.names) {
        assert Seen(g, tid, fd) == Held(Own(h, tid), fd, h.names);
      }
    }
    if Shows(g, table, contents, k.names) {
      forall other, fd: nat | other in h.task ensures Seen(g, other, fd) == Held(Own(h, other), fd, h.names) {
        assert Seen(f, other, fd) == Held(Own(k, other), fd, k.names);
        assert other != tid ==> (Together(f, other, tid) <==> k.task[other] == k.task[tid]);
        if other in f.tables && f.tables[other] != table { assert Untouched(f, g, f.tables[other]); }
      }
      forall a, b | a in h.task && b in h.task && a != b ensures Together(g, a, b) <==> h.task[a] == h.task[b] {
        assert Together(f, a, b) <==> k.task[a] == k.task[b];
      }
    }
  }

  /** `tid` gets a new table on both sides, under the next identifier. */
  lemma SimDetach(f: FdState, g: FdState, k: Kernel, tid: Tid, contents: Table)
    requires Rooted(k) && Sim(f, k)
    requires Allocated(g) && g.tables == f.tables[tid := f.serial + 1] && g.generation == f.generation
    requires forall id :: id != f.serial + 1 ==> Untouched(f, g, id)
    ensures Shows(g, f.serial + 1, contents, k.names) ==> Sim(g, Detached(k, tid, contents))
    ensures Agrees(g, Detached(k, tid, contents)) ==> Shows(g, f.serial + 1, contents, k.names)
  {
    hide Show, Held;
    var h := Detached(k, tid, contents);
    if Agrees(g, h) {
      forall fd: nat ensures Show(g, Key(f.serial + 1, fd)) == Held(contents, fd, k.names) {
        assert Seen(g, tid, fd) == Held(Own(h, tid), fd, h.names);
      }
    }
    if Shows(g, f.serial + 1, contents, k.names) {
      forall other, fd: nat | other in h.task ensures Seen(g, other, fd) == Held(Own(h, other), fd, h.names) {
        if other != tid {
          assert Seen(f, other, fd) == Held(Own(k, other), fd, k.names);
          if other in f.tables { assert Untouched(f, g, f.tables[other]); }
        }
      }
      forall a, b | a in h.task && b in h.task && a != b ensures Together(g, a, b) <==> h.task[a] == h.task[b] {
        if a != tid && b != tid { assert Together(f, a, b) <==> k.task[a] == k.task[b]; }
      }
    }
  }

  /** `tid` leaves for a table of its own without the attributor noticing. */
  lemma SimSplit(f: FdState, k: Kernel, tid: Tid, contents: Table)
    requires Rooted(k) && Sim(f, k) && tid in k.task && tid in f.tables
    ensures Shows(f, f.tables[tid], contents, k.names) && !Accompanied(k, tid) ==> Sim(f, Detached(k, tid, contents))
    ensures Agrees(f, Detached(k, tid, contents)) ==> Shows(f, f.tables[tid], contents, k.names) && !Accompanied(k, tid)
  {
    hide Show, Held, Allocated;
    var h := Detached(k, tid, contents);
    if Agrees(f, h) {
      forall fd: nat ensures Show(f, Key(f.tables[tid], fd)) == Held(contents, fd, k.names) {
        assert Seen(f, tid, fd) == Held(Own(h, tid), fd, h.names);
      }
      forall other | other in k.task && other != tid ensures k.task[other] != k.task[tid] {
        assert Together(f, other, tid) <==> h.task[other] == h.task[tid];
        assert Together(f, other, tid) <==> k.task[other] == k.task[tid];
      }
    }
    if Shows(f, f.tables[tid], contents, k.names) && !Accompanied(k, tid) {
      forall other, fd: nat | other in h.task ensures Seen(f, other, fd) == Held(Own(h, other), fd, h.names) {
        if other != tid { assert Seen(f, other, fd) == Held(Own(k, other), fd, k.names); }
      }
      forall a, b | a in h.task && b in h.task && a != b ensures Together(f, a, b) <==> h.task[a] == h.task[b] {
        assert Together(f, a, b) <==> k.task[a] == k.task[b];
      }
    }
  }

  /** `child` starts to share the table of `tid` on both sides. */
  lemma SimShare(f: FdState, k: Kernel, child: Tid, tid: Tid)
    requires Rooted(k) && Sim(f, k) && tid in k.task && tid in f.tables && child !in k.task
    ensures Sim(f.(tables := f.tables[child := f.tables[tid]]), k.(task := k.task[child := k.task[tid]]))
  {
    hide Show, Held;
    var g, h := f.(tables := f.tables[child := f.tables[tid]]), k.(task := k.task[child := k.task[tid]]);
    forall other, fd: nat | other in h.task ensures Seen(g, other, fd) == Held(Own(h, other), fd, h.names) {
      assert Seen(f, if other == child then tid else other, fd) == Held(Own(h, other), fd, k.names);
      SameShow(f, g, fd);
    }
    forall a, b | a in h.task && b in h.task && a != b ensures Together(g, a, b) <==> h.task[a] == h.task[b] {
      var c, d := if a == child then tid else a, if b == child then tid else b;
      assert c != d ==> (Together(f, c, d) <==> k.task[c] == k.task[d]);
    }
  }

  lemma SameShow(f: FdState, g: FdState, fd: nat)
    requires g.sockets == f.sockets && g.cloexec == f.cloexec
    ensures forall table :: Show(f, Key(table, fd)) == Show(g, Key(table, fd))
  {
  }

  /** Naming a file no living task has is invisible. */
  lemma SimName(f: FdState, k: Kernel, file: File, pid: Pid, fd: nat)
    requires Rooted(k) && Sim(f, k) && Unused(k, file)
    ensures Sim(f.(generation := f.generation + 1), Name(k, file, pid, fd))
  {
    var g, h := f.(generation := f.generation + 1), Name(k, file, pid, fd);
    forall tid, n: nat | tid in h.task ensures Seen(g, tid, n) == Held(Own(h, tid), n, h.names) {
      assert Seen(f, tid, n) == Held(Own(k, tid), n, k.names);
    }
    forall a, b | a in h.task && b in h.task && a != b ensures Together(g, a, b) <==> h.task[a] == h.task[b] {
      assert Together(f, a, b) <==> k.task[a] == k.task[b];
    }
  }

  // ----- calls that are told ---------------------------------------------------------

  /** The event is harmless, or it parts them visibly. */
  ghost predicate Decided(f: FdState, k: Kernel, parts: bool)
    requires Rooted(k)
  {
    if parts then !Agrees(f, k) else Sim(f, k)
  }

  lemma SimBind(f: FdState, k: Kernel, tid: Tid, fd: nat, file: File, on: bool)
    requires Rooted(k) && Sim(f, k) && tid in k.task && tid in f.tables && file in k.names
    ensures Sim(Bind(f, Key(f.tables[tid], fd), k.names[file], on), Put(k, tid, Own(k, tid)[fd := Entry(file, on)]))
  {
    SimShows(f, k, tid);
    hide Sim, Show, Agrees;
    var key := Key(f.tables[tid], fd);
    var g := Bind(f, key, k.names[file], on);
    BindShows(f, key, k.names[file], on);
    SimPut(f, g, k, tid, Own(k, tid)[fd := Entry(file, on)]);
  }

  lemma SimUnbind(f: FdState, k: Kernel, tid: Tid, keys: set<Key>, contents: Table)
    requires Rooted(k) && Sim(f, k) && tid in k.task && tid in f.tables
    requires forall key :: key in keys ==> key.table == f.tables[tid]
    requires forall fd: nat :: Held(contents, fd, k.names) ==
                               if Key(f.tables[tid], fd) in keys then None else Held(Own(k, tid), fd, k.names)
    ensures Sim(Unbind(f, keys), Put(k, tid, contents))
  {
    SimShows(f, k, tid);
    hide Sim, Show, Agrees, Held;
    UnbindShows(f, keys);
    SimPut(f, Unbind(f, keys), k, tid, contents);
  }

  lemma SimCreate(f: FdState, k: Kernel, e: Syscall, u: Unseen)
    requires Rooted(k) && Sim(f, k) && Possible(k, Happens(e, u)) && e.stamp.tid in f.tables
    requires Told(e) && (e.call.Socket? || e.call.Accept?)
    ensures Sim(Act(f, e, f.tables[e.stamp.tid]).fds, KernelAct(k, e, u))
  {
    var on := if e.call.Socket? then e.call.cloexec else e.call.accept4 && e.call.cloexec;
    SimBorn(f, k, e.stamp.tid, e.stamp.pid, e.ret.value, u.born, on);
    hide Sim, Unused, CopyTable, ExecStep, CloseRangeStep, CloneStep, Swept, Survivors;
  }

  lemma SimBorn(f: FdState, k: Kernel, tid: Tid, pid: Pid, fd: nat, born: File, on: bool)
    requires Rooted(k) && Sim(f, k) && Unused(k, born) && tid in k.task && tid in f.tables
    ensures var h := Name(k, born, pid, fd);
            && Sim(Bind(f.(generation := f.generation + 1), Key(f.tables[tid], fd),
                        ConnId(pid, fd, f.generation + 1), on),
                   Put(h, tid, Own(h, tid)[fd := Entry(born, on)]))
            && Own(h, tid) == Own(k, tid)
  {
    SimShows(f, k, tid);
    hide Sim, Unused, Bind, Shows, Allocated;
    SimName(f, k, born, pid, fd);
    SimBind(f.(generation := f.generation + 1), Name(k, born, pid, fd), tid, fd, born, on);
  }

  lemma SimDuplicate(f: FdState, k: Kernel, tid: Tid, from: nat, fd: nat, on: bool)
    requires Rooted(k) && Sim(f, k) && tid in k.task && tid in f.tables && from in Own(k, tid)
    ensures Sim(Redirect(f, Key(f.tables[tid], fd), Lookup(f, Key(f.tables[tid], from)), on),
                Put(k, tid, Own(k, tid)[fd := Entry(Own(k, tid)[from].file, on)]))
  {
    SimShows(f, k, tid);
    hide Sim, Allocated;
    assert Show(f, Key(f.tables[tid], from)) == Held(Own(k, tid), from, k.names);
    if Key(f.tables[tid], from) in f.sockets {
      SimBind(f, k, tid, fd, Own(k, tid)[from].file, on);
    } else {
      SimUnbind(f, k, tid, {Key(f.tables[tid], fd)}, Own(k, tid)[fd := Entry(Own(k, tid)[from].file, on)]);
    }
  }

  lemma SimSetFd(f: FdState, k: Kernel, tid: Tid, fd: nat, on: bool)
    requires Rooted(k) && Sim(f, k) && tid in k.task && tid in f.tables
    ensures var t := Own(k, tid);
            Sim(Flag(f, Key(f.tables[tid], fd), on), if fd in t then Put(k, tid, t[fd := Entry(t[fd].file, on)]) else k)
  {
    SimShows(f, k, tid);
    hide Sim, Agrees;
    var t := Own(k, tid);
    var contents := if fd in t then t[fd := Entry(t[fd].file, on)] else t;
    FlagShows(f, Key(f.tables[tid], fd), on);
    var g := Flag(f, Key(f.tables[tid], fd), on);
    assert Show(f, Key(f.tables[tid], fd)) == Held(t, fd, k.names);
    assert Shows(g, f.tables[tid], contents, k.names);
    SimPut(f, g, k, tid, contents);
    assert fd !in t ==> Put(k, tid, contents).tables == k.tables;
  }

  lemma SimMove(f: FdState, k: Kernel, e: Syscall, u: Unseen)
    requires Rooted(k) && Sim(f, k) && Possible(k, Happens(e, u)) && e.stamp.tid in f.tables
    requires Told(e) && (e.call.Dup? || e.call.DupFd? || e.call.SetFd?)
    ensures Sim(Act(f, e, f.tables[e.stamp.tid]).fds, KernelAct(k, e, u))
  {
    hide Sim, CopyTable, ExecStep, CloseRangeStep, CloneStep, Swept, Survivors, Redirect, Flag;
    var tid := e.stamp.tid;
    match e.call
    case Dup(kind, on) => SimDuplicate(f, k, tid, e.fd.value, e.ret.value, kind.Dup3? && on);
    case DupFd(on) => SimDuplicate(f, k, tid, e.fd.value, e.ret.value, on);
    case SetFd(on) => SimSetFd(f, k, tid, e.fd.value, on);
  }

  lemma SimClose(f: FdState, k: Kernel, e: Syscall, u: Unseen)
    requires Rooted(k) && Sim(f, k) && e.stamp.tid in k.task && e.stamp.tid in f.tables && Told(e) && e.call.Close?
    ensures Sim(Act(f, e, f.tables[e.stamp.tid]).fds, KernelAct(k, e, u))
  {
    SimShows(f, k, e.stamp.tid);
    hide Sim;
    var tid, fd := e.stamp.tid, e.fd.value;
    var key := Key(f.tables[tid], fd);
    assert Show(f, key) == Held(Own(k, tid), fd, k.names);
    if key in f.sockets {
      SimUnbind(f, k, tid, {key}, Own(k, tid) - {fd});
    } else {
      assert Shows(f, f.tables[tid], Own(k, tid) - {fd}, k.names);
      SimPut(f, f, k, tid, Own(k, tid) - {fd});
    }
  }

  lemma SimCopy(f: FdState, k: Kernel, tid: Tid, to: Tid)
    requires Rooted(k) && Sim(f, k) && tid in k.task && tid in f.tables
    ensures Sim(CopyTable(f, f.tables[tid]).(tables := f.tables[to := f.serial + 1]), Detached(k, to, Own(k, tid)))
  {
    SimShows(f, k, tid);
    hide Sim, Agrees, CopyTable, Allocated, Show, Held;
    Copied(f, f.tables[tid], to);
    SimDetach(f, CopyTable(f, f.tables[tid]).(tables := f.tables[to := f.serial + 1]), k, to, Own(k, tid));
  }

  lemma SimExec(f: FdState, k: Kernel, tid: Tid)
    requires Rooted(k) && Sim(f, k) && tid in k.task && tid in f.tables
    ensures Sim(ExecStep(f, tid, f.tables[tid]), Detached(k, tid, Survivors(Own(k, tid))))
  {
    SimShows(f, k, tid);
    hide Sim, Agrees, ExecStep, Allocated, Show, Held, Survivors;
    var g := ExecStep(f, tid, f.tables[tid]);
    ExecShows(f, tid, f.tables[tid]);
    SurvivorsHeld(Own(k, tid), k.names);
    SimDetach(f, g, k, tid, Survivors(Own(k, tid)));
  }

  lemma SurvivorsHeld(t: Table, names: Names)
    ensures forall fd: nat :: var before := Held(t, fd, names);
              Held(Survivors(t), fd, names) == if before.Some? && before.value.cloexec then None else before
  {
  }

  lemma SimSweep(f: FdState, k: Kernel, tid: Tid, low: nat, high: nat, cloexec: bool)
    requires Rooted(k) && Sim(f, k) && tid in k.task && tid in f.tables
    ensures var keys := InRange(f, f.tables[tid], Some((low, high)));
            Sim(if cloexec then f.(cloexec := f.cloexec + keys) else Unbind(f, keys),
                Put(k, tid, Swept(Own(k, tid), low, high, cloexec)))
  {
    SimShows(f, k, tid);
    hide Sim, Agrees;
    var t, table := Own(k, tid), f.tables[tid];
    var keys := InRange(f, table, Some((low, high)));
    var g := if cloexec then f.(cloexec := f.cloexec + keys) else Unbind(f, keys);
    forall fd: nat ensures Show(g, Key(table, fd)) == Held(Swept(t, low, high, cloexec), fd, k.names) {
      assert Show(f, Key(table, fd)) == Held(t, fd, k.names);
    }
    SimPut(f, g, k, tid, Swept(t, low, high, cloexec));
  }

  lemma SimCloseRange(f: FdState, k: Kernel, e: Syscall, u: Unseen)
    requires Rooted(k) && Sim(f, k) && e.stamp.tid in k.task && e.stamp.tid in f.tables && Told(e) && e.call.CloseRange?
    ensures Sim(CloseRangeStep(f, e, f.tables[e.stamp.tid]), KernelAct(k, e, u))
  {
    hide Sim, CopyTable, InRange, Swept, Unbind;
    var tid := e.stamp.tid;
    var low, high := e.call.bounds.value.0, e.call.bounds.value.1;
    if e.call.unshare {
      SimCopy(f, k, tid, tid);
      SimSweep(CopyTable(f, f.tables[tid]).(tables := f.tables[tid := f.serial + 1]), Detached(k, tid, Own(k, tid)),
               tid, low, high, e.call.cloexec);
      PutDetached(k, tid, Own(k, tid), Swept(Own(k, tid), low, high, e.call.cloexec));
    } else {
      SimSweep(f, k, tid, low, high, e.call.cloexec);
    }
  }

  lemma PutDetached(k: Kernel, tid: Tid, first: Table, second: Table)
    requires Rooted(k)
    ensures Put(Detached(k, tid, first), tid, second) == Detached(k, tid, second)
  {
  }

  lemma SimWhole(f: FdState, k: Kernel, e: Syscall, u: Unseen)
    requires Rooted(k) && Sim(f, k) && Possible(k, Happens(e, u)) && e.stamp.tid in f.tables
    requires Told(e) && (e.call.CloseRange? || e.call.Clone? || e.call.Unshare? || e.call.Exec?)
    ensures Sim(Act(f, e, f.tables[e.stamp.tid]).fds, KernelAct(k, e, u))
  {
    hide Sim, CopyTable, ExecStep, CloseRangeStep, Swept, Survivors;
    var tid := e.stamp.tid;
    match e.call
    case CloseRange(_, _, _) => SimCloseRange(f, k, e, u);
    case Clone(_, files) => SimCopy(f, k, tid, e.ret.value); SimShare(f, k, e.ret.value, tid);
    case Unshare(_) => SimCopy(f, k, tid, tid);
    case Exec => SimExec(f, k, tid);
  }

  // ----- identifying files -----------------------------------------------------------

  /** Binding the one descriptor of an unidentified socket, under the flag it really has, identifies
      it for every task that has it. */
  lemma SimReveal(f: FdState, k: Kernel, tid: Tid, fd: nat, pid: Pid)
    requires Rooted(k) && Sim(f, k) && tid in k.task && tid in f.tables
    requires Key(f.tables[tid], fd) !in f.sockets && !Misleads(f, k, tid, fd)
    ensures var conn := ConnId(pid, fd, f.generation + 1);
            var g := f.(generation := f.generation + 1, sockets := f.sockets[Key(f.tables[tid], fd) := conn]);
            Sim(g, Name(k, Own(k, tid)[fd].file, pid, fd)) && Seen(g, tid, fd).Some?
  {
    var file, key, conn := Own(k, tid)[fd].file, Key(f.tables[tid], fd), ConnId(pid, fd, f.generation + 1);
    var g := f.(generation := f.generation + 1, sockets := f.sockets[key := conn]);
    var h := Name(k, file, pid, fd);
    RevealShows(f, key, conn, f.generation + 1);
    assert Allocated(g);
    hide Allocated, Show, Misleads;
    forall other, n: nat | other in h.task ensures Seen(g, other, n) == Held(Own(h, other), n, h.names) {
      assert Seen(f, other, n) == Held(Own(k, other), n, k.names);
      assert other != tid ==> (Together(f, other, tid) <==> k.task[other] == k.task[tid]);
      RevealedOnce(f, k, tid, fd, other, n);
    }
    forall a, b | a in h.task && b in h.task && a != b ensures Together(g, a, b) <==> h.task[a] == h.task[b] {
      assert Together(f, a, b) <==> k.task[a] == k.task[b];
    }
  }

  lemma RevealedOnce(f: FdState, k: Kernel, tid: Tid, fd: nat, other: Tid, n: nat)
    requires Rooted(k) && tid in k.task && tid in f.tables && other in k.task && !Misleads(f, k, tid, fd)
    ensures fd in Own(k, tid) && Own(k, tid)[fd].cloexec == (Key(f.tables[tid], fd) in f.cloexec)
    ensures n in Own(k, other) && Own(k, other)[n].file == Own(k, tid)[fd].file ==>
            k.task[other] == k.task[tid] && n == fd
  {
  }

  /** What a misleading connect leaves behind. */
  lemma ConnectParts(f: FdState, k: Kernel, e: Syscall, u: Unseen)
    requires Rooted(k) && Sim(f, k) && e.stamp.tid in k.task && e.stamp.tid in f.tables && e.call.Connect? && e.fd.Some?
    requires Key(f.tables[e.stamp.tid], e.fd.value) !in f.sockets && Misleads(f, k, e.stamp.tid, e.fd.value)
    ensures !Agrees(Act(f, e, f.tables[e.stamp.tid]).fds, KernelAct(k, e, u))
  {
    var tid, fd := e.stamp.tid, e.fd.value;
    var key, t := Key(f.tables[tid], fd), Own(k, tid);
    var g, h := Act(f, e, f.tables[tid]).fds, KernelAct(k, e, u);
    assert h.tables == k.tables && h.task == k.task && g.tables == f.tables;
    assert Seen(f, tid, fd) == Held(t, fd, k.names);
    RevealShows(f, key, ConnId(e.stamp.pid, fd, f.generation + 1), f.generation + 1);
    if fd !in t || !t[fd].file.socket || t[fd].cloexec != (key in f.cloexec) {
      assert Seen(g, tid, fd) != Held(Own(h, tid), fd, h.names);
    } else {
      var other, n :| && other in k.task && n in Own(k, other) && (k.task[other] != k.task[tid] || n != fd)
                      && Own(k, other)[n].file == t[fd].file;
      assert Seen(f, other, n) == Held(Own(k, other), n, k.names);
      assert other != tid ==> (Together(f, other, tid) <==> k.task[other] == k.task[tid]);
      assert Seen(g, other, n) != Held(Own(h, other), n, h.names);
    }
  }

  lemma SimConnect(f: FdState, k: Kernel, e: Syscall, u: Unseen)
    requires Rooted(k) && Sim(f, k) && e.stamp.tid in k.task && e.stamp.tid in f.tables && e.call.Connect?
    ensures Decided(Act(f, e, f.tables[e.stamp.tid]).fds, KernelAct(k, e, u), Parts(f, k, e, u))
  {
    var tid := e.stamp.tid;
    SimShows(f, k, tid);
    hide Sim, Misleads, Agrees, Allocated;
    if e.fd.Some? {
      var fd := e.fd.value;
      assert Show(f, Key(f.tables[tid], fd)) == Held(Own(k, tid), fd, k.names);
      if Key(f.tables[tid], fd) !in f.sockets {
        if Misleads(f, k, tid, fd) {
          ConnectParts(f, k, e, u);
        } else {
          Revealed(f, k, tid, fd);
          SimReveal(f, k, tid, fd, e.stamp.pid);
        }
      }
    }
  }

  lemma Revealed(f: FdState, k: Kernel, tid: Tid, fd: nat)
    requires Rooted(k) && tid in k.task && tid in f.tables && !Misleads(f, k, tid, fd)
    ensures fd in Own(k, tid) && Own(k, tid)[fd].file.socket
  {
  }

  // ----- calls that are not ----------------------------------------------------------

  /** Two tables are shown alike exactly if nothing identified differs. */
  lemma ShownAlike(f: FdState, table: nat, t: Table, after: Table, names: Names)
    requires Shows(f, table, t, names)
    ensures Shows(f, table, after, names) <==> !Alters(names, t, after)
  {
    hide Show, Held;
    forall fd: nat ensures Show(f, Key(table, fd)) == Held(t, fd, names) {}
  }

  lemma Unmoved(f: FdState, e: Syscall, table: nat)
    requires !Told(e) && !Detaches(e)
    ensures Act(f, e, table).fds == f
  {
    hide CopyTable, ExecStep, Redirect, Create;
    assert e.call.CloseRange? && e.call.bounds.None? ==> InRange(f, table, None) == {};
    assert f.sockets - {} == f.sockets && f.cloexec - {} == f.cloexec && f.cloexec + {} == f.cloexec;
  }

  /** A close_range with an unread range gives its caller a copy of the table, at most. */
  lemma UnreadCopies(f: FdState, e: Syscall, table: nat)
    requires !Told(e) && Detaches(e)
    ensures Act(f, e, table).fds == CopyTable(f, table).(tables := f.tables[e.stamp.tid := f.serial + 1])
  {
    hide CopyTable;
    var g := CopyTable(f, table).(tables := f.tables[e.stamp.tid := f.serial + 1]);
    assert InRange(g, f.serial + 1, None) == {};
    assert g.sockets - {} == g.sockets && g.cloexec - {} == g.cloexec && g.cloexec + {} == g.cloexec;
  }

  lemma UntoldIs(k: Kernel, e: Syscall, u: Unseen)
    requires Rooted(k) && e.stamp.tid in k.task && !Told(e)
    ensures KernelAct(k, e, u) == Settle(k, e.stamp.tid, u.after, u.split || Detaches(e))
  {
    hide Settle, Told, Detaches;
  }

  lemma CopyShows(f: FdState, table: nat, tid: Tid, t: Table, names: Names)
    requires Allocated(f) && Shows(f, table, t, names)
    ensures Shows(CopyTable(f, table).(tables := f.tables[tid := f.serial + 1]), f.serial + 1, t, names)
  {
    hide Allocated, Show, Held, CopyTable, Untouched;
    Copied(f, table, tid);
    forall fd: nat ensures Show(f, Key(table, fd)) == Held(t, fd, names) {}
  }

  lemma SimDetachUnseen(f: FdState, g: FdState, k: Kernel, tid: Tid, after: Table)
    requires Rooted(k) && Sim(f, k) && tid in k.task
    requires Allocated(g) && g.tables == f.tables[tid := f.serial + 1] && g.generation == f.generation
    requires (forall id :: id != f.serial + 1 ==> Untouched(f, g, id)) && Shows(g, f.serial + 1, Own(k, tid), k.names)
    ensures Decided(g, Detached(k, tid, after), Alters(k.names, Own(k, tid), after))
  {
    hide Sim, Agrees, Allocated, Show, Shows, Held, Alters, Detached, Own, Untouched;
    SimDetach(f, g, k, tid, after);
    ShownAlike(g, f.serial + 1, Own(k, tid), after, k.names);
  }

  lemma SimUnread(f: FdState, k: Kernel, e: Syscall, after: Table)
    requires Rooted(k) && Sim(f, k) && e.stamp.tid in k.task && e.stamp.tid in f.tables && !Told(e) && Detaches(e)
    ensures Decided(Act(f, e, f.tables[e.stamp.tid]).fds, Detached(k, e.stamp.tid, after),
                    Alters(k.names, Own(k, e.stamp.tid), after))
  {
    var tid := e.stamp.tid;
    SimShows(f, k, tid);
    hide Sim, Agrees, Decided, Allocated, Show, Shows, Held, Act, Told, Alters, CopyTable, Detached, Own, Detaches,
      Untouched;
    UnreadCopies(f, e, f.tables[tid]);
    Copied(f, f.tables[tid], tid);
    CopyShows(f, f.tables[tid], tid, Own(k, tid), k.names);
    SimDetachUnseen(f, CopyTable(f, f.tables[tid]).(tables := f.tables[tid := f.serial + 1]), k, tid, after);
  }

  lemma SimUnseen(f: FdState, k: Kernel, tid: Tid, after: Table, split: bool)
    requires Rooted(k) && Sim(f, k) && tid in k.task && tid in f.tables
    ensures Decided(f, Settle(k, tid, after, split),
                    Alters(k.names, Own(k, tid), after) || (split && Accompanied(k, tid)))
  {
    SimShows(f, k, tid);
    Quiet(f);
    hide Sim, Agrees, Allocated, Show, Held, Alters, Detached, Put, Accompanied, Own;
    ShownAlike(f, f.tables[tid], Own(k, tid), after, k.names);
    if split { SimSplit(f, k, tid, after); } else { SimPut(f, f, k, tid, after); }
  }

  lemma Quiet(f: FdState)
    ensures forall id :: Untouched(f, f, id)
  {
  }

  lemma SimUntold(f: FdState, k: Kernel, e: Syscall, u: Unseen)
    requires Rooted(k) && Sim(f, k) && e.stamp.tid in k.task && e.stamp.tid in f.tables && !Told(e)
    ensures Decided(Act(f, e, f.tables[e.stamp.tid]).fds, KernelAct(k, e, u), Parts(f, k, e, u))
  {
    var tid := e.stamp.tid;
    UntoldIs(k, e, u);
    hide Sim, Agrees, Act, Told, Alters, KernelAct, Accompanied, Detaches, Decided, Detached, Put;
    if Detaches(e) {
      SimUnread(f, k, e, u.after);
    } else {
      Unmoved(f, e, f.tables[tid]);
      SimUnseen(f, k, tid, u.after, u.split);
    }
  }

  // ----- one event -------------------------------------------------------------------

  lemma SimAct(f: FdState, k: Kernel, e: Syscall, u: Unseen)
    requires Rooted(k) && Sim(f, k) && Possible(k, Happens(e, u)) && e.stamp.tid in f.tables
    ensures Decided(Act(f, e, f.tables[e.stamp.tid]).fds, KernelAct(k, e, u), Parts(f, k, e, u))
  {
    hide Sim, Agrees, Act, KernelAct, Misleads, Alters, Unused, Accompanied;
    if !Told(e) {
      SimUntold(f, k, e, u);
    } else {
      match e.call
      case Socket(_) => SimCreate(f, k, e, u);
      case Accept(_, _) => SimCreate(f, k, e, u);
      case Connect => SimConnect(f, k, e, u);
      case Dup(_, _) => SimMove(f, k, e, u);
      case DupFd(_) => SimMove(f, k, e, u);
      case SetFd(_) => SimMove(f, k, e, u);
      case Close => SimClose(f, k, e, u);
      case _ => SimWhole(f, k, e, u);
    }
  }

  lemma SimShifts(f: FdState, k: Kernel, tid: Tid, after: Table)
    requires Rooted(k) && Sim(f, k) && tid in k.task
    ensures Decided(f, Put(k, tid, after), Alters(k.names, Own(k, tid), after))
  {
    SimStarted(f, k, tid);
    SimStarted(f, Put(k, tid, after), tid);
    SimUnseen(WithTable(f, tid), k, tid, after, false);
    hide Agrees, Alters, WithTable;
  }

  lemma SimBegins(f: FdState, k: Kernel, tid: Tid, table: Table)
    requires Rooted(k) && Sim(f, k) && tid !in k.task
    ensures Decided(f, Detached(k, tid, table), Diverges(f, k, Begins(tid, table)))
  {
    hide Show, Held, Allocated;
    var h := Detached(k, tid, table);
    if fd: nat :| Seen(f, tid, fd) != Held(table, fd, k.names) {
      assert Seen(f, tid, fd) != Held(Own(h, tid), fd, h.names);
    } else if other :| other in k.task && Together(f, tid, other) {
      assert Together(f, tid, other) && h.task[tid] != h.task[other];
    } else {
      forall other, fd: nat | other in h.task ensures Seen(f, other, fd) == Held(Own(h, other), fd, h.names) {
        if other != tid { assert Seen(f, other, fd) == Held(Own(k, other), fd, k.names); }
      }
      forall a, b | a in h.task && b in h.task && a != b ensures Together(f, a, b) <==> h.task[a] == h.task[b] {
        if a != tid && b != tid { assert Together(f, a, b) <==> k.task[a] == k.task[b]; }
        assert Together(f, a, b) <==> Together(f, b, a);
      }
    }
  }

  lemma SimJoins(f: FdState, k: Kernel, tid: Tid, partner: Tid)
    requires Rooted(k) && Sim(f, k) && tid !in k.task && partner in k.task
    ensures var h := k.(task := k.task[tid := k.task[partner]]);
            Rooted(h) && Decided(f, h, !Together(f, tid, partner))
  {
    var h := k.(task := k.task[tid := k.task[partner]]);
    if Together(f, tid, partner) {
      SimShare(f, k, tid, partner);
      assert f.tables[tid := f.tables[partner]] == f.tables;
    }
  }

  lemma SimEnds(f: FdState, k: Kernel, tid: Tid)
    requires Rooted(k) && Sim(f, k)
    ensures var h := k.(task := k.task - {tid}); Rooted(h) && Sim(f, h)
  {
    hide Allocated;
    var h := k.(task := k.task - {tid});
    forall other, fd: nat | other in h.task ensures Seen(f, other, fd) == Held(Own(h, other), fd, h.names) {
      assert Seen(f, other, fd) == Held(Own(k, other), fd, k.names);
    }
    forall a, b | a in h.task && b in h.task && a != b ensures Together(f, a, b) <==> h.task[a] == h.task[b] {
      assert Together(f, a, b) <==> k.task[a] == k.task[b];
    }
  }

  /** One event keeps attributor and kernel in agreement if and only if it is none of those that
      part them, all recognisable from the states before it. */
  lemma StepSimulates(f: FdState, k: Kernel, event: Event)
    requires Rooted(k) && Sim(f, k) && Possible(k, event)
    ensures Agrees(FlatStep(f, event), KernelStep(k, event)) <==> !Diverges(f, k, event)
    ensures !Diverges(f, k, event) ==> Sim(FlatStep(f, event), KernelStep(k, event))
  {
    match event
    case Happens(e, u) =>
      SimStarted(f, k, e.stamp.tid);
      SimAct(WithTable(f, e.stamp.tid), k, e, u);
    case Shifts(tid, after) => SimShifts(f, k, tid, after);
    case Begins(tid, table) => SimBegins(f, k, tid, table);
    case Joins(tid, partner) => SimJoins(f, k, tid, partner);
    case Ends(tid) => SimEnds(f, k, tid);
  }

  // ----- whole runs ---------------------------------------------------------------

  function FlatRun(f: FdState, run: seq<Event>): FdState
    decreases run
  {
    if run == [] then f else FlatRun(FlatStep(f, run[0]), run[1..])
  }

  ghost predicate PossibleRun(k: Kernel, run: seq<Event>)
    requires Rooted(k)
    decreases run
  {
    run == [] || (Possible(k, run[0]) && PossibleRun(KernelStep(k, run[0]), run[1..]))
  }

  ghost function KernelRun(k: Kernel, run: seq<Event>): (r: Kernel)
    requires Rooted(k) && PossibleRun(k, run)
    ensures Rooted(r)
    decreases run
  {
    if run == [] then k else KernelRun(KernelStep(k, run[0]), run[1..])
  }

  ghost predicate NeverDiverges(f: FdState, k: Kernel, run: seq<Event>)
    requires Rooted(k) && PossibleRun(k, run)
    decreases run
  {
    run == [] || (!Diverges(f, k, run[0]) && NeverDiverges(FlatStep(f, run[0]), KernelStep(k, run[0]), run[1..]))
  }

  /** The maps and the kernel agree before and after every event of the run. */
  ghost predicate AgreeThroughout(f: FdState, k: Kernel, run: seq<Event>)
    requires Rooted(k) && PossibleRun(k, run)
    decreases run
  {
    Agrees(f, k) && (run == [] || AgreeThroughout(FlatStep(f, run[0]), KernelStep(k, run[0]), run[1..]))
  }

  /** Over any sequence of events, by any number of tasks, the flat maps and the kernel's tables
      agree all along if and only if no event parts them. */
  lemma {:induction false} RunSimulates(f: FdState, k: Kernel, run: seq<Event>)
    requires Rooted(k) && Sim(f, k) && PossibleRun(k, run)
    ensures AgreeThroughout(f, k, run) <==> NeverDiverges(f, k, run)
    decreases run
  {
    SimIsAgreement(f, k);
    hide Sim, Agrees, FlatStep, KernelStep, Diverges, Possible;
    if run != [] {
      StepSimulates(f, k, run[0]);
      var g, h := FlatStep(f, run[0]), KernelStep(k, run[0]);
      if !Diverges(f, k, run[0]) { RunSimulates(g, h, run[1..]); }
    }
  }

  lemma SimIsAgreement(f: FdState, k: Kernel)
    requires Rooted(k) && Sim(f, k)
    ensures Agrees(f, k)
  {
  }

  lemma {:induction false} EndSimulates(f: FdState, k: Kernel, run: seq<Event>)
    requires Rooted(k) && PossibleRun(k, run) && AgreeThroughout(f, k, run)
    ensures Agrees(FlatRun(f, run), KernelRun(k, run))
    decreases run
  {
    hide Agrees, FlatStep, KernelStep, Possible;
    if run != [] { EndSimulates(FlatStep(f, run[0]), KernelStep(k, run[0]), run[1..]); }
  }

  lemma StartSimulates()
    ensures Sim(Empty(), Boot())
  {
  }

  // ----- particular events ----------------------------------------------------------

  /** Whatever came before: a connect on a number that is not open, which the kernel refuses, makes
      the attributor show a connection there. */
  lemma PhantomConnection(f: FdState, k: Kernel, e: Syscall, u: Unseen)
    requires Rooted(k) && Sim(f, k) && Possible(k, Happens(e, u))
    requires e.call.Connect? && e.fd.Some? && e.fd.value !in Own(k, e.stamp.tid)
    ensures Diverges(f, k, Happens(e, u)) && KernelStep(k, Happens(e, u)) == k
    ensures Seen(Step(f, e).fds, e.stamp.tid, e.fd.value).Some?
  {
    var tid := e.stamp.tid;
    SimStarted(f, k, tid);
    SimShows(WithTable(f, tid), k, tid);
    hide Sim, Allocated;
    assert Show(WithTable(f, tid), Key(WithTable(f, tid).tables[tid], e.fd.value)) == None;
  }

  /** The identified descriptors a sweep of the range touches: any it closes, or those it newly marks. */
  predicate Touched(t: Table, names: Names, low: nat, high: nat, cloexec: bool, fd: nat) {
    low <= fd <= high && fd in t && t[fd].file in names && !(cloexec && t[fd].cloexec)
  }

  /** Whatever came before: a successful close_range whose range was not read parts them if and only
      if an identified descriptor lies in its true range, unless it only marks and that one is marked;
      the attributor goes on showing it as it was. */
  lemma UnreadRange(f: FdState, k: Kernel, e: Syscall, u: Unseen, low: nat, high: nat)
    requires Rooted(k) && Sim(f, k) && Possible(k, Happens(e, u))
    requires e.call.CloseRange? && e.Zero() && e.call.bounds.None? && !u.split
    requires u.after == Swept(Own(k, e.stamp.tid), low, high, e.call.cloexec)
    ensures Diverges(f, k, Happens(e, u)) <==>
            exists fd: nat :: Touched(Own(k, e.stamp.tid), k.names, low, high, e.call.cloexec, fd)
    ensures forall fd: nat :: Seen(Step(f, e).fds, e.stamp.tid, fd) == Held(Own(k, e.stamp.tid), fd, k.names)
    ensures forall fd: nat ::
            Held(Own(KernelStep(k, Happens(e, u)), e.stamp.tid), fd, k.names) == Held(u.after, fd, k.names)
  {
    UnreadShown(f, k, e);
    SweptHeld(Own(k, e.stamp.tid), k.names, low, high, e.call.cloexec);
    hide Sim, Held, Touched, Swept, Seen, Step, WithTable;
    if fd: nat :| Touched(Own(k, e.stamp.tid), k.names, low, high, e.call.cloexec, fd) {
      assert Held(Own(k, e.stamp.tid), fd, k.names) != Held(u.after, fd, k.names);
    }
  }

  lemma SweptHeld(t: Table, names: Names, low: nat, high: nat, cloexec: bool)
    ensures forall fd: nat ::
              Held(t, fd, names) != Held(Swept(t, low, high, cloexec), fd, names) <==>
                Touched(t, names, low, high, cloexec, fd)
  {
  }

  lemma UnreadShown(f: FdState, k: Kernel, e: Syscall)
    requires Rooted(k) && Sim(f, k) && e.stamp.tid in k.task && e.call.CloseRange? && e.Zero() && e.call.bounds.None?
    ensures forall fd: nat :: Seen(Step(f, e).fds, e.stamp.tid, fd) == Held(Own(k, e.stamp.tid), fd, k.names)
  {
    var tid := e.stamp.tid;
    SimStarted(f, k, tid);
    var g := WithTable(f, tid);
    SimShows(g, k, tid);
    hide Sim, Agrees, Allocated, Show, Held, CopyTable, Act;
    forall fd: nat ensures Show(g, Key(g.tables[tid], fd)) == Held(Own(k, tid), fd, k.names) {}
    if e.call.unshare {
      UnreadCopies(g, e, g.tables[tid]);
      Copied(g, g.tables[tid], tid);
    } else {
      Unmoved(g, e, g.tables[tid]);
    }
  }

  /** Whatever came before: after an exec, a connect on a number not yet identified is rightly taken
      if and only if it is an open socket that no other living descriptor refers to.  The table the
      task left behind does not count, and no flag misleads. */
  lemma ConnectAfterExec(f: FdState, k: Kernel, exec: Syscall, u: Unseen, connect: Syscall, v: Unseen)
    requires Rooted(k) && Sim(f, k) && Possible(k, Happens(exec, u)) && exec.call.Exec? && exec.Zero()
    requires connect.stamp.tid == exec.stamp.tid && connect.call.Connect? && connect.fd.Some?
    ensures var g := FlatStep(f, Happens(exec, u));
            var h := KernelStep(k, Happens(exec, u));
            var fd := connect.fd.value;
            && Sim(g, h) && exec.stamp.tid in h.task && Own(h, exec.stamp.tid) == Survivors(Own(k, exec.stamp.tid))
            && Possible(h, Happens(connect, v))
            && (fd !in Own(h, exec.stamp.tid) || Own(h, exec.stamp.tid)[fd].file !in h.names ==>
                  (!Diverges(g, h, Happens(connect, v)) <==>
                   fd in Own(h, exec.stamp.tid) && Own(h, exec.stamp.tid)[fd].file.socket
                     && !Shared(h, exec.stamp.tid, fd)))
  {
    Executed(f, k, exec, u, connect.fd.value);
    Unflagged(FlatStep(f, Happens(exec, u)), KernelStep(k, Happens(exec, u)), connect, v);
    hide *;
  }

  /** So a program that inherits a socket and connects it is followed all along. */
  lemma InheritedSocket(f: FdState, k: Kernel, exec: Syscall, u: Unseen, connect: Syscall, v: Unseen)
    requires Rooted(k) && Sim(f, k) && Possible(k, Happens(exec, u)) && exec.call.Exec? && exec.Zero()
    requires connect.stamp.tid == exec.stamp.tid && connect.call.Connect? && connect.fd.Some?
    requires var h := KernelStep(k, Happens(exec, u));
             var t := Survivors(Own(k, exec.stamp.tid));
             && connect.fd.value in t && t[connect.fd.value].file.socket && t[connect.fd.value].file !in h.names
             && exec.stamp.tid in h.task && Own(h, exec.stamp.tid) == t && !Shared(h, exec.stamp.tid, connect.fd.value)
    ensures var run := [Happens(exec, u), Happens(connect, v)];
            PossibleRun(k, run) && AgreeThroughout(f, k, run)
  {
    ConnectAfterExec(f, k, exec, u, connect, v);
    ExecAgrees(f, k, exec, u);
    hide Sim, FlatStep, KernelStep, Diverges, Possible, Shared, Survivors;
    BothAgree(f, k, Happens(exec, u), Happens(connect, v));
  }

  lemma ExecAgrees(f: FdState, k: Kernel, exec: Syscall, u: Unseen)
    requires Rooted(k) && Sim(f, k) && Possible(k, Happens(exec, u)) && exec.call.Exec? && exec.Zero()
    ensures !Diverges(f, k, Happens(exec, u))
  {
  }

  lemma BothAgree(f: FdState, k: Kernel, first: Event, second: Event)
    requires Rooted(k) && Sim(f, k) && Possible(k, first) && !Diverges(f, k, first)
    requires Possible(KernelStep(k, first), second)
    requires !Diverges(FlatStep(f, first), KernelStep(k, first), second)
    ensures PossibleRun(k, [first, second]) && AgreeThroughout(f, k, [first, second])
  {
    hide Sim, FlatStep, KernelStep, Diverges, Possible;
    var run, g, h := [first, second], FlatStep(f, first), KernelStep(k, first);
    var rest := run[1..];
    assert rest == [second] && rest[1..] == [];
    assert PossibleRun(h, rest) && NeverDiverges(g, h, rest);
    assert PossibleRun(k, run) && NeverDiverges(f, k, run);
    RunSimulates(f, k, run);
  }

  lemma Executed(f: FdState, k: Kernel, exec: Syscall, u: Unseen, fd: nat)
    requires Rooted(k) && Sim(f, k) && Possible(k, Happens(exec, u)) && exec.call.Exec? && exec.Zero()
    ensures var g := FlatStep(f, Happens(exec, u));
            var h := KernelStep(k, Happens(exec, u));
            var tid := exec.stamp.tid;
            && Sim(g, h) && tid in h.task && Own(h, tid) == Survivors(Own(k, tid))
            && tid in g.tables && Key(g.tables[tid], fd) !in g.cloexec
  {
    StepSimulates(f, k, Happens(exec, u));
    SimStarted(f, k, exec.stamp.tid);
    ExecUnflagged(WithTable(f, exec.stamp.tid), exec, fd);
    hide Sim, Agrees, Act, Allocated, Survivors;
  }

  lemma ExecUnflagged(f: FdState, exec: Syscall, fd: nat)
    requires Allocated(f) && exec.stamp.tid in f.tables && exec.call.Exec? && exec.Zero()
    ensures var g := Step(f, exec).fds;
            exec.stamp.tid in g.tables && Key(g.tables[exec.stamp.tid], fd) !in g.cloexec
  {
    var tid := exec.stamp.tid;
    ExecIs(f, exec);
    ExecForgets(f, tid, f.tables[tid], fd);
    ExecShows(f, tid, f.tables[tid]);
    hide ExecStep, Step, Allocated, Untouched, Show;
  }

  lemma Unflagged(f: FdState, k: Kernel, e: Syscall, u: Unseen)
    requires Rooted(k) && Sim(f, k) && e.stamp.tid in k.task && e.stamp.tid in f.tables
    requires e.call.Connect? && e.fd.Some? && Key(f.tables[e.stamp.tid], e.fd.value) !in f.cloexec
    ensures Possible(k, Happens(e, u))
    ensures var t := Own(k, e.stamp.tid);
            var fd := e.fd.value;
            fd !in t || t[fd].file !in k.names ==>
            (!Diverges(f, k, Happens(e, u)) <==>
             fd in t && t[fd].file.socket && !t[fd].cloexec && !Shared(k, e.stamp.tid, fd))
  {
    SimShows(f, k, e.stamp.tid);
    assert Show(f, Key(f.tables[e.stamp.tid], e.fd.value)) == Held(Own(k, e.stamp.tid), e.fd.value, k.names);
    hide Sim, Shared, Shows;
  }

  // ----- a lost flag ------------------------------------------------------------------

  function Calls(tid: Tid, call: Call, fd: Option<nat>, ret: int): Event {
    Happens(Syscall(Stamp(tid, tid, Source(tid, 0)), call, fd, Some(ret), false), Unseen(File(0, false), map[], false))
  }

  /** Task 1 begins with an unidentified socket at 5, marks it close-on-exec, forks task 2 and ends;
      the child connects the socket and executes a program. */
  function LostFlag(): seq<Event> {
    [Begins(1, map[5 := Entry(File(1, true), false)]),
     Calls(1, SetFd(true), Some(5), 0),
     Calls(1, Clone(false, false), None, 2),
     Ends(1),
     Calls(2, Connect, Some(5), 0),
     Calls(2, Exec, None, 0)]
  }

  /** Flags of descriptors without a socket are not copied. */
  lemma NothingCopied(f: FdState, table: nat)
    requires forall key :: key in f.sockets ==> key.table != table
    ensures CopyTable(f, table) == f.(serial := f.serial + 1)
  {
    hide CopiedSockets, CopiedFlags;
    var sockets, flags := CopiedSockets(f, table, f.serial + 1), CopiedFlags(f, table, f.serial + 1);
    forall key: Key ensures key !in sockets && key !in flags { CopiedAt(f, table, key); }
    assert sockets == map[] && flags == {};
  }

  /** The attributor after n events. */
  function LostFlagFlat(n: nat): FdState {
    if n <= 1 then Empty()
    else if n == 2 then FdState(map[], {Key(1, 5)}, map[1 := 1], 1, 0)
    else if n <= 4 then FdState(map[], {Key(1, 5)}, map[1 := 1, 2 := 2], 2, 0)
    else FdState(map[Key(2, 5) := ConnId(2, 5, 1)], {Key(1, 5)}, map[1 := 1, 2 := 2], 2, 1)
  }

  lemma FlatSteps(n: nat)
    requires n < 5
    ensures FlatStep(LostFlagFlat(n), LostFlag()[n]) == LostFlagFlat(n + 1)
  {
    if n == 1 { MarkStep(); }
    if n == 2 { ForkStep(); }
    if n == 4 { ConnectStep(); }
    hide Step;
  }

  lemma MarkStep()
    ensures Step(LostFlagFlat(1), LostFlag()[1].e).fds == LostFlagFlat(2)
  {
    hide CopyTable, ExecStep, CloseRangeStep, InRange;
  }

  lemma ForkStep()
    ensures Step(LostFlagFlat(2), LostFlag()[2].e).fds == LostFlagFlat(3)
  {
    ForkCopies();
    hide CopyTable, ExecStep, CloseRangeStep, InRange;
  }

  lemma ForkCopies()
    ensures CopyTable(LostFlagFlat(2), 1) == LostFlagFlat(2).(serial := 2)
  {
    NothingCopied(LostFlagFlat(2), 1);
    hide CopyTable;
  }

  lemma ConnectStep()
    ensures Step(LostFlagFlat(4), LostFlag()[4].e).fds == LostFlagFlat(5)
  {
    hide CopyTable, ExecStep, CloseRangeStep, InRange;
  }

  /** The kernel after n events. */
  function LostFlagKernel(n: nat): Kernel {
    var five := map[5 := Entry(File(1, true), true)];
    if n == 0 then Boot()
    else if n == 1 then Kernel(map[1 := 1], map[1 := map[5 := Entry(File(1, true), false)]], 1, map[], 0)
    else if n == 2 then Kernel(map[1 := 1], map[1 := five], 1, map[], 0)
    else if n == 3 then Kernel(map[1 := 1, 2 := 2], map[1 := five, 2 := five], 2, map[], 0)
    else if n == 4 then Kernel(map[2 := 2], map[1 := five, 2 := five], 2, map[], 0)
    else if n == 5 then Kernel(map[2 := 2], map[1 := five, 2 := five], 2, map[File(1, true) := ConnId(2, 5, 1)], 1)
    else Kernel(map[2 := 3], map[1 := five, 2 := five, 3 := map[]], 3, map[File(1, true) := ConnId(2, 5, 1)], 1)
  }

  lemma KernelSteps(n: nat)
    requires n < 6
    ensures Rooted(LostFlagKernel(n)) && Possible(LostFlagKernel(n), LostFlag()[n])
    ensures KernelStep(LostFlagKernel(n), LostFlag()[n]) == LostFlagKernel(n + 1)
  {
    KernelAllows(n);
    KernelMoves(n);
    hide *;
  }

  lemma KernelAllows(n: nat)
    requires n < 6
    ensures Rooted(LostFlagKernel(n)) && Possible(LostFlagKernel(n), LostFlag()[n])
  {
    hide KernelAct;
  }

  lemma KernelMoves(n: nat)
    requires n < 6 && Rooted(LostFlagKernel(n)) && Possible(LostFlagKernel(n), LostFlag()[n])
    ensures KernelStep(LostFlagKernel(n), LostFlag()[n]) == LostFlagKernel(n + 1)
  {
    if n == 5 {
      ChildExecs();
    } else {
      hide Swept, Survivors, Possible;
      var k := LostFlagKernel(n);
      var after := LostFlagKernel(n + 1);
      if n == 1 { assert k.tables[1][5 := Entry(File(1, true), true)] == after.tables[1]; }
      if n == 3 { assert k.task - {1} == after.task; }
      assert n != 4 ==> KernelStep(k, LostFlag()[n]).tables == after.tables;
    }
  }

  lemma ChildExecs()
    requires Rooted(LostFlagKernel(5)) && Possible(LostFlagKernel(5), LostFlag()[5])
    ensures KernelStep(LostFlagKernel(5), LostFlag()[5]) == LostFlagKernel(6)
  {
    hide Swept, Possible;
    var k := LostFlagKernel(5);
    assert Survivors(k.tables[2]) == map[];
    assert KernelStep(k, LostFlag()[5]).tables == LostFlagKernel(6).tables;
  }

  lemma {:induction false} LostFlagRun(n: nat)
    requires n <= 6
    ensures Rooted(LostFlagKernel(n)) && PossibleRun(LostFlagKernel(n), LostFlag()[n..])
    ensures KernelRun(LostFlagKernel(n), LostFlag()[n..]) == LostFlagKernel(6)
    decreases 6 - n
  {
    hide LostFlagKernel, Possible, KernelStep;
    if n < 6 {
      KernelSteps(n);
      LostFlagRun(n + 1);
      assert LostFlag()[n..][1..] == LostFlag()[n + 1..];
    } else {
      assert LostFlag()[6..] == [];
      LostFlagEnd();
    }
  }

  lemma LostFlagEnd()
    ensures Rooted(LostFlagKernel(6))
  {
  }

  lemma {:induction false} FlatRuns(n: nat)
    requires n <= 5
    ensures FlatRun(LostFlagFlat(n), LostFlag()[n..]) == FlatRun(LostFlagFlat(5), LostFlag()[5..])
    decreases 5 - n
  {
    hide LostFlagFlat, FlatStep;
    if n < 5 {
      FlatSteps(n);
      FlatRuns(n + 1);
      assert LostFlag()[n..][1..] == LostFlag()[n + 1..];
    }
  }

  /** The fork drops the flag of the unidentified descriptor.  At the connect it is an open socket
      with no other descriptor, so only the flag misleads; after the exec the attributor still
      shows a connection that the kernel has closed. */
  lemma LostFlagDiverges()
    ensures PossibleRun(Boot(), LostFlag())
    ensures var k := LostFlagKernel(4);
            && Rooted(k) && Possible(k, LostFlag()[4]) && Diverges(LostFlagFlat(4), k, LostFlag()[4])
            && 2 in k.task && Own(k, 2) == map[5 := Entry(File(1, true), true)]
            && Key(2, 5) !in LostFlagFlat(4).cloexec && !Shared(k, 2, 5)
    ensures var f, k := FlatRun(Empty(), LostFlag()), KernelRun(Boot(), LostFlag());
            Seen(f, 2, 5).Some? && 2 in k.task && 5 !in Own(k, 2)
  {
    LostFlagRun(0);
    FlatRuns(0);
    assert LostFlag()[0..] == LostFlag();
    LostFlagSeen();
    OnlyTheFlag();
    hide *;
    LostFlagClosed();
  }

  lemma LostFlagClosed()
    ensures var k := LostFlagKernel(6); Rooted(k) && 2 in k.task && 5 !in Own(k, 2)
    ensures LostFlagKernel(0) == Boot() && LostFlagFlat(0) == Empty()
  {
  }

  lemma OnlyTheFlag()
    ensures var k := LostFlagKernel(4);
            && Rooted(k) && Possible(k, LostFlag()[4]) && Diverges(LostFlagFlat(4), k, LostFlag()[4])
            && 2 in k.task && Own(k, 2) == map[5 := Entry(File(1, true), true)]
            && Key(2, 5) !in LostFlagFlat(4).cloexec && !Shared(k, 2, 5)
  {
    KernelAllows(4);
  }

  lemma LostFlagSeen()
    ensures Seen(FlatRun(LostFlagFlat(5), LostFlag()[5..]), 2, 5).Some?
  {
    hide CopyTable, ExecStep, Step;
    var last := LostFlag()[5..];
    assert last[1..] == [];
    assert FlatRun(LostFlagFlat(5), last) == FlatRun(FlatStep(LostFlagFlat(5), last[0]), []) ==
           Step(LostFlagFlat(5), last[0].e).fds;
    ExecSurvivors(LostFlagFlat(5), last[0].e, 5);
  }
}
