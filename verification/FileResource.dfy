/** The conservative projection from a descriptor to the open that bound it, proved sound
    against every descriptor table the observed calls allow. */
module FileResource {
  import opened Trace

  type Fd = int

  /** Calls by what they may do to a descriptor table.  `Open` binds its result to a file,
      `Maker` to something else; `Installer` may bind descriptors its result does not name. */
  datatype Name = Close | Open | Maker | Fcntl | CloseRange | Exec | Unshare | Installer | OtherName

  /** `first` is the leading descriptor argument, None if it is not a number; `duplicates` is
      an `fcntl` of the duplicating kind; `bounds` is None if the range cannot be read. */
  datatype Event = Event(pid: Pid, start: int, completion: Option<int>, name: Name, result: Option<int>, about: Details)
  datatype Details = Details(first: Option<Fd>, duplicates: bool, bounds: Option<(int, int)>, paths: seq<string>,
                             source: nat)

  datatype Status = InvalidDescriptor | Unresolved | Observed(opening: Event)

  // ----- the projection ------------------------------------------------------------------------------

  predicate Relevant(e: Event, pid: Pid, before: int) { e.pid == pid && e.start < before }

  predicate ClosesFd(e: Event, fd: Fd) { e.name.Close? && e.about.first == Some(fd) }

  /** Without a result these may have replaced any descriptor. */
  predicate MayReplace(name: Name) {
    name.Open? || name.Maker? || name.Fcntl? || name.CloseRange? || name.Exec? || name.Unshare? || name.Installer?
  }

  predicate Succeeded(e: Event) { e.result.Some? && e.result.value >= 0 }

  predicate Replaces(e: Event, fd: Fd) {
    e.result == Some(fd) && (e.name.Open? || e.name.Maker? || (e.name.Fcntl? && e.about.duplicates))
  }

  predicate AbsoluteOpen(e: Event, before: int) {
    && e.name.Open? && |e.about.paths| == 1 && e.about.paths[0] != "" && e.about.paths[0][0] == '/'
    && e.completion.Some? && e.completion.value <= before
  }

  predicate ClosesRange(e: Event, fd: Fd) {
    e.name.CloseRange? && (e.about.bounds.None? || e.about.bounds.value.0 <= fd <= e.about.bounds.value.1)
  }

  /** Does the event end what was known about `fd`? */
  predicate Disturbs(e: Event, fd: Fd) {
    || ClosesFd(e, fd)
    || (e.result.None? && MayReplace(e.name))
    || (Succeeded(e) && (Replaces(e, fd) || ClosesRange(e, fd) || e.name.Exec? || e.name.Unshare? || e.name.Installer?))
  }

  /** An event that binds `fd` to a path the projection may report. */
  predicate Eligible(e: Event, fd: Fd, before: int) { Succeeded(e) && Replaces(e, fd) && AbsoluteOpen(e, before) }

  method ObservedFileResource(events: seq<Event>, pid: Pid, fd: Fd, before: int) returns (status: Status)
    ensures fd < 0 <==> status.InvalidDescriptor?
    ensures fd >= 0 ==> (status.Observed? <==> exists i: nat :: Last(events, pid, fd, before, i))
    ensures status.Observed? ==> exists i: nat :: Last(events, pid, fd, before, i) && status.opening == events[i]
  {
    if fd < 0 { return InvalidDescriptor; }
    var current: Option<Event> := None;
    ghost var at: nat := 0;
    var i := 0;
    while i < |events|
      invariant 0 <= i <= |events|
      invariant current.Some? ==> at < i && Holder(events, i, pid, fd, before, at) && current.value == events[at]
      invariant current.None? ==> NoHolder(events, i, pid, fd, before)
    {
      var e := events[i];
      ghost var previous := current;
      if Relevant(e, pid, before) {
        var first := e.about.first;
        if e.name.Close? && first == Some(fd) { current := None; }
        if e.result.None? && MayReplace(e.name) { current := None; }
        if e.result.Some? && e.result.value >= 0 {
          if Replaces(e, fd) {
            current := None;
            if AbsoluteOpen(e, before) {
              current := Some(e);
              at := i;
            }
          }
          if e.name.Close? && first == Some(fd) { current := None; }
          if ClosesRange(e, fd) { current := None; }
          if e.name.Exec? || e.name.Unshare? { current := None; }
          if e.name.Installer? { current := None; }
        }
      }
      ghost var relevant := Relevant(e, pid, before);
      assert current == if relevant && Eligible(e, fd, before) then Some(e)
                        else if relevant && Disturbs(e, fd) then None else previous;
      if current.None? { NoHolderStep(events, i, pid, fd, before, previous); }
      i := i + 1;
    }
    match current {
      case None => return Unresolved;
      case Some(e) =>
        assert Last(events, pid, fd, before, at);
        return Observed(e);
    }
  }

  /** Among the first n events, the i-th is an eligible open no later one disturbs. */
  ghost predicate Holder(events: seq<Event>, n: nat, pid: Pid, fd: Fd, before: int, i: nat)
    requires n <= |events|
  {
    && i < n && Relevant(events[i], pid, before) && Eligible(events[i], fd, before)
    && forall k :: i < k < n && Relevant(events[k], pid, before) ==> !Disturbs(events[k], fd)
  }

  lemma HolderStep(events: seq<Event>, n: nat, pid: Pid, fd: Fd, before: int, i: nat)
    requires n < |events|
    ensures Holder(events, n + 1, pid, fd, before, i) <==>
            || (i == n && Relevant(events[n], pid, before) && Eligible(events[n], fd, before))
            || (Holder(events, n, pid, fd, before, i) && !(Relevant(events[n], pid, before) && Disturbs(events[n], fd)))
  {
  }

  ghost predicate NoHolder(events: seq<Event>, n: nat, pid: Pid, fd: Fd, before: int)
    requires n <= |events|
  {
    forall i: nat :: !Holder(events, n, pid, fd, before, i)
  }

  lemma NoHolderStep(events: seq<Event>, n: nat, pid: Pid, fd: Fd, before: int, previous: Option<Event>)
    requires n < |events|
    requires previous.None? ==> NoHolder(events, n, pid, fd, before)
    requires !(Relevant(events[n], pid, before) && Eligible(events[n], fd, before))
    requires previous.None? || (Relevant(events[n], pid, before) && Disturbs(events[n], fd))
    ensures NoHolder(events, n + 1, pid, fd, before)
  {
    var m := n + 1;
    forall i: nat ensures !Holder(events, m, pid, fd, before, i) {
      HolderStep(events, n, pid, fd, before, i);
    }
  }

  /** The last event to disturb the descriptor is an eligible open. */
  ghost predicate Last(events: seq<Event>, pid: Pid, fd: Fd, before: int, i: nat) {
    Holder(events, |events|, pid, fd, before, i)
  }

  // ----- what the kernel may have done ------------------------------------------------------------------

  /** What a descriptor refers to: the file an observed open created, or anything else. */
  datatype Binding = Opened(opening: Event) | Elsewhere(what: nat)

  type Table = map<Fd, Binding>

  /** The possible effects of a call that returned `r`.  A failing close may still release its
      descriptor; exec, unshare and the installers may do anything; a call not known here may
      bind free descriptors. */
  ghost predicate Effect(e: Event, r: int, t: Table, u: Table) {
    match e.name
    case Close =>
      (r < 0 && u == t) || (e.about.first.Some? && u == t - {e.about.first.value}) || (e.about.first.None? && u == t)
    case Open => u == if r >= 0 then t[r := Opened(e)] else t
    case Maker => if r >= 0 then Rebinds(t, u, r) else u == t
    case Fcntl => if r >= 0 && e.about.duplicates then Rebinds(t, u, r) else u == t
    case CloseRange =>
      if r >= 0 && e.about.bounds.Some? then
        forall fd :: !(e.about.bounds.value.0 <= fd <= e.about.bounds.value.1) ==> SameAt(t, u, fd)
      else r >= 0 || u == t
    case Exec => r >= 0 || u == t
    case Unshare => r >= 0 || u == t
    case Installer => r >= 0 || u == t
    case OtherName => forall fd :: fd in t ==> SameAt(t, u, fd)
  }

  ghost predicate Rebinds(t: Table, u: Table, r: Fd) { r in u && forall fd :: fd != r ==> SameAt(t, u, fd) }

  ghost predicate SameAt(t: Table, u: Table, fd: Fd) { (fd in t <==> fd in u) && (fd in t ==> t[fd] == u[fd]) }

  /** A call that had completed by `before` took effect with its result, or with any result if
      that is unknown; one still in flight may or may not have. */
  ghost predicate Happens(e: Event, before: int, t: Table, u: Table) {
    || (exists r :: (e.result.Some? ==> r == e.result.value) && Effect(e, r, t, u))
    || ((e.completion.None? || e.completion.value > before) && u == t)
  }

  /** The tables of a process whose relevant calls happened in the order observed. */
  ghost predicate Execution(events: seq<Event>, pid: Pid, before: int, tables: seq<Table>) {
    && |tables| == |events| + 1
    && forall i :: 0 <= i < |events| ==>
         if Relevant(events[i], pid, before) then Happens(events[i], before, tables[i], tables[i + 1])
         else tables[i + 1] == tables[i]
  }

  lemma UndisturbedKeeps(e: Event, fd: Fd, before: int, t: Table, u: Table)
    requires fd in t && fd >= 0 && Happens(e, before, t, u) && !Disturbs(e, fd)
    ensures SameAt(t, u, fd)
  {
    if exists r :: (e.result.Some? ==> r == e.result.value) && Effect(e, r, t, u) {
      var r :| (e.result.Some? ==> r == e.result.value) && Effect(e, r, t, u);
      assert e.result.None? ==> !MayReplace(e.name);
    }
  }

  lemma EligibleBinds(e: Event, fd: Fd, before: int, t: Table, u: Table)
    requires Happens(e, before, t, u) && Eligible(e, fd, before)
    ensures fd in u && u[fd] == Opened(e)
  {
  }

  lemma {:induction false} HolderBinds(events: seq<Event>, n: nat, pid: Pid, fd: Fd, before: int, i: nat,
                                       tables: seq<Table>)
    requires fd >= 0 && n <= |events| && Holder(events, n, pid, fd, before, i) && Execution(events, pid, before, tables)
    ensures fd in tables[n] && tables[n][fd] == Opened(events[i])
    decreases n
  {
    if i == n - 1 {
      EligibleBinds(events[i], fd, before, tables[i], tables[n]);
    } else {
      HolderBinds(events, n - 1, pid, fd, before, i, tables);
      if Relevant(events[n - 1], pid, before) {
        UndisturbedKeeps(events[n - 1], fd, before, tables[n - 1], tables[n]);
      }
    }
  }

  /** Soundness: if the projection names an open, the descriptor refers to that very open at the
      cut-off in every execution consistent with what was observed. */
  lemma ObservedIsBound(events: seq<Event>, pid: Pid, fd: Fd, before: int, i: nat, tables: seq<Table>)
    requires fd >= 0 && Last(events, pid, fd, before, i) && Execution(events, pid, before, tables)
    ensures fd in tables[|events|] && tables[|events|][fd] == Opened(events[i])
  {
    HolderBinds(events, |events|, pid, fd, before, i, tables);
  }

  /** At most one event can be named. */
  lemma OneHolder(events: seq<Event>, pid: Pid, fd: Fd, before: int, i: nat, j: nat)
    requires Last(events, pid, fd, before, i) && Last(events, pid, fd, before, j)
    ensures i == j
  {
  }

  // ----- how conservative it is ---------------------------------------------------------------------------

  /** An event that cannot have touched `fd`, but is disregarded for want of a result. */
  predicate Needless(e: Event, fd: Fd) {
    && e.result.None?
    && ((e.name.Fcntl? && !e.about.duplicates)
        || (e.name.CloseRange? && e.about.bounds.Some?
            && !(e.about.bounds.value.0 <= fd <= e.about.bounds.value.1)))
  }

  /** Whatever happened, `fd` refers to what event i opened. */
  ghost predicate Certain(events: seq<Event>, pid: Pid, fd: Fd, before: int, i: nat)
    requires i < |events|
  {
    forall tables :: Execution(events, pid, before, tables) ==> Bound(tables[|events|], fd, events[i])
  }

  ghost predicate Bound(t: Table, fd: Fd, e: Event) { fd in t && t[fd] == Opened(e) }

  /** An outcome that takes `fd` away where the event can, and touches as little as it must elsewhere. */
  function Worst(e: Event, fd: Fd, t: Table): Table {
    if e.result.None? && (e.name.Open? || e.name.Maker? || (e.name.Fcntl? && e.about.duplicates)) then
      t[fd := if e.name.Open? then Opened(e) else Elsewhere(0)]
    else if Disturbs(e, fd) && (e.name.Exec? || e.name.Unshare? || e.name.Installer?) then t - {fd}
    else if e.name.CloseRange? && (e.result.None? || e.result.value >= 0)
            && (e.about.bounds.None? || e.about.bounds.value.0 <= fd <= e.about.bounds.value.1) then t - {fd}
    else if e.name.Close? && e.about.first.Some? then t - {e.about.first.value}
    else if !Succeeded(e) then t
    else if e.name.Open? then t[e.result.value := Opened(e)]
    else if e.name.Maker? || (e.name.Fcntl? && e.about.duplicates) then t[e.result.value := Elsewhere(0)]
    else t
  }

  lemma WorstHappens(e: Event, fd: Fd, before: int, t: Table)
    requires fd >= 0
    ensures Happens(e, before, t, Worst(e, fd, t))
  {
    var r := if e.result.Some? then e.result.value
      else if e.name.Open? || e.name.Maker? || e.name.Fcntl? then fd else 0;
    assert Effect(e, r, t, Worst(e, fd, t));
  }

  lemma WorstUnbinds(e: Event, fd: Fd, t: Table, opening: Event)
    requires e != opening
    ensures !Bound(t, fd, opening) || (Disturbs(e, fd) && !Needless(e, fd)) ==> !Bound(Worst(e, fd, t), fd, opening)
  {
  }

  /** The tables when everything goes as badly as it can. */
  function WorstTables(events: seq<Event>, n: nat, pid: Pid, fd: Fd, before: int): (tables: seq<Table>)
    requires n <= |events|
    ensures |tables| == n + 1
  {
    if n == 0 then [map[]]
    else
      var front := WorstTables(events, n - 1, pid, fd, before);
      front + [if Relevant(events[n - 1], pid, before) then Worst(events[n - 1], fd, front[n - 1]) else front[n - 1]]
  }

  lemma {:induction false} WorstIsExecution(events: seq<Event>, n: nat, pid: Pid, fd: Fd, before: int)
    requires fd >= 0 && n <= |events|
    ensures Execution(events[..n], pid, before, WorstTables(events, n, pid, fd, before))
  {
    hide Happens, Worst;
    if n > 0 {
      WorstIsExecution(events, n - 1, pid, fd, before);
      WorstHappens(events[n - 1], fd, before, WorstTables(events, n - 1, pid, fd, before)[n - 1]);
      assert events[..n][..n - 1] == events[..n - 1];
    }
  }

  lemma {:induction false} WorstLoses(events: seq<Event>, n: nat, pid: Pid, fd: Fd, before: int, i: nat, k: nat)
    requires i < k < n <= |events| && forall j :: i < j < |events| ==> events[j] != events[i]
    requires Relevant(events[k], pid, before) && Disturbs(events[k], fd) && !Needless(events[k], fd)
    ensures !Bound(WorstTables(events, n, pid, fd, before)[n], fd, events[i])
    decreases n
  {
    hide Disturbs, Needless, Worst, Bound;
    if k < n - 1 { WorstLoses(events, n - 1, pid, fd, before, i, k); }
    WorstUnbinds(events[n - 1], fd, WorstTables(events, n - 1, pid, fd, before)[n - 1], events[i]);
  }

  lemma LastIsCertain(events: seq<Event>, pid: Pid, fd: Fd, before: int, i: nat)
    requires fd >= 0 && i < |events| && Last(events, pid, fd, before, i)
    ensures Certain(events, pid, fd, before, i)
  {
    forall tables | Execution(events, pid, before, tables) ensures Bound(tables[|events|], fd, events[i]) {
      ObservedIsBound(events, pid, fd, before, i, tables);
    }
  }

  /** The projection names an open exactly if it is an observed absolute open that certainly still
      holds the descriptor, and no event without a result was disregarded since for nothing. */
  lemma NamedIffCertain(events: seq<Event>, pid: Pid, fd: Fd, before: int, i: nat)
    requires fd >= 0 && i < |events| && forall j, k :: 0 <= j < k < |events| ==> events[j] != events[k]
    ensures Last(events, pid, fd, before, i) <==>
            && events[i].pid == pid && events[i].start < before && events[i].name.Open? && events[i].result == Some(fd)
            && (exists path :: events[i].about.paths == [path] && path != "" && path[0] == '/')
            && events[i].completion.Some? && events[i].completion.value <= before
            && Certain(events, pid, fd, before, i)
            && forall k :: i < k < |events| && events[k].pid == pid && events[k].start < before ==>
                 !Needless(events[k], fd)
  {
    hide Execution, Bound;
    OpenIsEligible(events[i], fd, before);
    if Last(events, pid, fd, before, i) {
      LastIsCertain(events, pid, fd, before, i);
      forall k | i < k < |events| && Relevant(events[k], pid, before) ensures !Needless(events[k], fd) {
        NeedlessDisturbs(events[k], fd);
      }
    } else if Relevant(events[i], pid, before) && Eligible(events[i], fd, before) {
      var k :| i < k < |events| && Relevant(events[k], pid, before) && Disturbs(events[k], fd);
      if !Needless(events[k], fd) {
        var n := |events|;
        WorstIsExecution(events, n, pid, fd, before);
        assert events[..n] == events;
        WorstLoses(events, n, pid, fd, before, i, k);
      }
    }
  }

  lemma NeedlessDisturbs(e: Event, fd: Fd)
    ensures Needless(e, fd) ==> Disturbs(e, fd)
  {
  }

  lemma OpenIsEligible(e: Event, fd: Fd, before: int)
    requires fd >= 0
    ensures Eligible(e, fd, before) <==>
            && e.name.Open? && e.result == Some(fd)
            && (exists path :: e.about.paths == [path] && path != "" && path[0] == '/')
            && e.completion.Some? && e.completion.value <= before
  {
    if |e.about.paths| == 1 { assert e.about.paths == [e.about.paths[0]]; }
  }
}
