/** Matching observed watcher insertions with removals. */
module WatcherQueue {
  import opened Trace

  /** A watcher of a loop. */
  datatype Key = Key(loop: int, watcher: int)

  datatype Action = Enqueue | Dequeue | Update | Cancel

  /** A queue line, or another debugger line; `complete` if all five fields were read. */
  datatype Line = Queue(action: Action, key: Key, fd: int, complete: bool) | Thread(tid: int) | OtherLine

  /** What is concluded, by line index.  Episodes carry the updates seen inside them. */
  datatype Outcome =
    | Matched(insertion: nat, removal: nat, updates: seq<nat>)
    | Canceled(insertion: nat, removal: nat, updates: seq<nat>)
    | Replaced(insertion: nat, replacement: nat)
    | NoInsertion(removal: nat)
    | DescriptorChanged(insertion: nat, removal: nat)
    | CancelDescriptorChanged(insertion: nat, removal: nat)
    | NoRemoval(insertion: nat)
    | IdleStop(removal: nat)
    | OutsideUpdate(update: nat)

  datatype Report = Report(matches: seq<Outcome>, unmatched: seq<Outcome>, canceled: seq<Outcome>, idle: seq<Outcome>,
                           outside: seq<Outcome>)

  // ----- the specification -------------------------------------------------------------------------

  predicate Does(lines: seq<Line>, i: nat, action: Action) {
    i < |lines| && lines[i].Queue? && lines[i].action == action
  }

  /** Lines that begin or end an episode. */
  predicate Boundary(lines: seq<Line>, i: nat) { i < |lines| && lines[i].Queue? && !lines[i].action.Update? }

  predicate About(lines: seq<Line>, i: nat, key: Key) { i < |lines| && lines[i].Queue? && lines[i].key == key }

  /** No episode boundary of `key` among lines lo..hi. */
  predicate Undisturbed(lines: seq<Line>, lo: nat, hi: nat, key: Key) {
    forall k: nat :: lo <= k < hi ==> !(Boundary(lines, k) && About(lines, k, key))
  }

  /** i inserts and j is the next boundary of the same watcher. */
  predicate Consecutive(lines: seq<Line>, i: nat, j: nat) {
    i < j && Does(lines, i, Enqueue) && Boundary(lines, j) && About(lines, j, lines[i].key)
      && Undisturbed(lines, i + 1, j, lines[i].key)
  }

  /** i inserts `key` and nothing has ended that episode before line n. */
  predicate Open(lines: seq<Line>, n: nat, key: Key, i: nat) {
    i < n && Does(lines, i, Enqueue) && About(lines, i, key) && Undisturbed(lines, i + 1, n, key)
  }

  ghost predicate Idle(lines: seq<Line>, n: nat, key: Key) { forall i: nat :: !Open(lines, n, key, i) }

  /** The updates of `key` among lines lo..hi, in order. */
  function UpdatesBetween(lines: seq<Line>, lo: nat, hi: nat, key: Key): seq<nat>
    requires hi <= |lines|
    decreases hi
  {
    if hi <= lo then []
    else
      UpdatesBetween(lines, lo, hi - 1, key)
      + if Does(lines, hi - 1, Update) && About(lines, hi - 1, key) then [hi - 1] else []
  }

  predicate SameFd(lines: seq<Line>, i: nat, j: nat) {
    i < |lines| && j < |lines| && lines[i].Queue? && lines[j].Queue? && lines[i].fd == lines[j].fd
  }

  /** The outcome follows from the first n lines. */
  ghost predicate Established(lines: seq<Line>, n: nat, o: Outcome)
    requires n <= |lines|
  {
    match o
    case Matched(i, j, updates) =>
      && j < n && Consecutive(lines, i, j) && Does(lines, j, Dequeue) && SameFd(lines, i, j)
      && updates == UpdatesBetween(lines, i + 1, j, lines[i].key)
    case Canceled(i, j, updates) =>
      && j < n && Consecutive(lines, i, j) && Does(lines, j, Cancel) && SameFd(lines, i, j)
      && updates == UpdatesBetween(lines, i + 1, j, lines[i].key)
    case Replaced(i, j) => j < n && Consecutive(lines, i, j) && Does(lines, j, Enqueue)
    case NoInsertion(j) => j < n && Does(lines, j, Dequeue) && Idle(lines, j, lines[j].key)
    case DescriptorChanged(i, j) => j < n && Consecutive(lines, i, j) && Does(lines, j, Dequeue) && !SameFd(lines, i, j)
    case CancelDescriptorChanged(i, j) =>
      j < n && Consecutive(lines, i, j) && Does(lines, j, Cancel) && !SameFd(lines, i, j)
    case NoRemoval(i) => n == |lines| && Does(lines, i, Enqueue) && Open(lines, n, lines[i].key, i)
    case IdleStop(j) => j < n && Does(lines, j, Cancel) && Idle(lines, j, lines[j].key)
    case OutsideUpdate(j) => j < n && Does(lines, j, Update) && Idle(lines, j, lines[j].key)
  }

  /** Lines before n establish it; what stays open is only known at the end. */
  ghost predicate Settled(lines: seq<Line>, n: nat, o: Outcome)
    requires n <= |lines|
  {
    !o.NoRemoval? && Established(lines, n, o)
  }

  function Everything(r: Report): seq<Outcome> { r.matches + r.unmatched + r.canceled + r.idle + r.outside }

  predicate Sorted(r: Report) {
    && (forall o :: o in r.matches ==> o.Matched?)
    && (forall o :: o in r.canceled ==> o.Canceled?)
    && (forall o :: o in r.idle ==> o.IdleStop?)
    && (forall o :: o in r.outside ==> o.OutsideUpdate?)
    && (forall o :: o in r.unmatched ==>
          o.Replaced? || o.NoInsertion? || o.DescriptorChanged? || o.CancelDescriptorChanged? || o.NoRemoval?)
  }

  /** The line that settles an outcome; what is left over follows all lines, by insertion. */
  function Position(total: nat, o: Outcome): nat {
    match o
    case Matched(_, j, _) => j
    case Canceled(_, j, _) => j
    case Replaced(_, j) => j
    case NoInsertion(j) => j
    case DescriptorChanged(_, j) => j
    case CancelDescriptorChanged(_, j) => j
    case NoRemoval(i) => total + i
    case IdleStop(j) => j
    case OutsideUpdate(j) => j
  }

  /** Settled in this order, all before position n: nothing is listed twice. */
  predicate Ascending(total: nat, n: nat, s: seq<Outcome>) {
    && (forall i :: 0 <= i < |s| ==> Position(total, s[i]) < n)
    && (forall i, j :: 0 <= i < j < |s| ==> Position(total, s[i]) < Position(total, s[j]))
  }

  predicate InOrder(total: nat, n: nat, r: Report) {
    && Ascending(total, n, r.matches) && Ascending(total, n, r.unmatched) && Ascending(total, n, r.canceled)
    && Ascending(total, n, r.idle) && Ascending(total, n, r.outside)
  }

  lemma AscendingMore(total: nat, n: nat, s: seq<Outcome>, o: Outcome)
    requires Ascending(total, n, s) && n <= Position(total, o)
    ensures Ascending(total, Position(total, o) + 1, s) && Ascending(total, Position(total, o) + 1, s + [o])
  {
  }

  lemma LaterOrder(total: nat, n: nat, m: nat, r: Report)
    requires InOrder(total, n, r) && n <= m
    ensures InOrder(total, m, r)
  {
  }

  /** Every queue line is complete and says which thread it ran on. */
  predicate Readable(lines: seq<Line>) { ReadableUpTo(lines, |lines|) }

  /** Some line before n says which thread runs. */
  predicate Known(lines: seq<Line>, n: nat) { exists t: nat :: t < n && t < |lines| && lines[t].Thread? }

  predicate ReadableUpTo(lines: seq<Line>, n: nat)
    requires n <= |lines|
  {
    forall i: nat :: i < n && lines[i].Queue? ==> lines[i].complete && Known(lines, i)
  }

  lemma KnownMore(lines: seq<Line>, n: nat)
    requires n < |lines|
    ensures Known(lines, n + 1) <==> Known(lines, n) || lines[n].Thread?
  {
    if Known(lines, n) {
      var t: nat :| t < n && t < |lines| && lines[t].Thread?;
      assert t < n + 1;
    }
    if lines[n].Thread? { assert n < n + 1; }
  }

  // ----- the matcher -----------------------------------------------------------------------------------

  ghost predicate Tracks(lines: seq<Line>, n: nat, pending: map<Key, nat>, updates: map<Key, seq<nat>>)
    requires n <= |lines|
  {
    && (forall key :: key in pending ==>
          Open(lines, n, key, pending[key]) && key in updates
            && updates[key] == UpdatesBetween(lines, pending[key] + 1, n, key))
    && (forall key: Key, i: nat :: Open(lines, n, key, i) ==> key in pending)
  }

  lemma OneOpen(lines: seq<Line>, n: nat, key: Key, i: nat, j: nat)
    requires Open(lines, n, key, i) && Open(lines, n, key, j)
    ensures i == j
  {
    assert Boundary(lines, i) && Boundary(lines, j);
  }

  lemma OpenStep(lines: seq<Line>, n: nat, key: Key, i: nat)
    requires n < |lines|
    ensures Open(lines, n + 1, key, i) <==>
            if Boundary(lines, n) && About(lines, n, key) then i == n && Does(lines, n, Enqueue)
              else Open(lines, n, key, i)
  {
    if Open(lines, n, key, i) && !(Boundary(lines, n) && About(lines, n, key)) {
      assert Undisturbed(lines, i + 1, n + 1, key);
    }
    if Open(lines, n + 1, key, i) {
      assert i < n ==> !(Boundary(lines, n) && About(lines, n, key));
      assert Undisturbed(lines, i + 1, n, key);
    }
  }

  lemma NextBoundary(lines: seq<Line>, n: nat, i: nat)
    requires Boundary(lines, n)
    ensures Consecutive(lines, i, n) <==> Open(lines, n, lines[n].key, i)
  {
  }

  /** What line n adds. */
  function Adds(lines: seq<Line>, n: nat, pending: map<Key, nat>, updates: map<Key, seq<nat>>): seq<Outcome>
    requires n < |lines| && lines[n].Queue?
  {
    var key := lines[n].key;
    var seen := if key in updates then updates[key] else [];
    match lines[n].action
    case Update => if key in pending then [] else [OutsideUpdate(n)]
    case Enqueue => if key in pending then [Replaced(pending[key], n)] else []
    case Dequeue =>
      if key !in pending then [NoInsertion(n)]
      else if SameFd(lines, pending[key], n) then [Matched(pending[key], n, seen)]
      else [DescriptorChanged(pending[key], n)]
    case Cancel =>
      if key !in pending then [IdleStop(n)]
      else if SameFd(lines, pending[key], n) then [Canceled(pending[key], n, seen)]
      else [CancelDescriptorChanged(pending[key], n)]
  }

  lemma IdleIsAbsent(lines: seq<Line>, n: nat, pending: map<Key, nat>, updates: map<Key, seq<nat>>, key: Key)
    requires n <= |lines| && Tracks(lines, n, pending, updates)
    ensures Idle(lines, n, key) <==> key !in pending
  {
  }

  lemma AddsRight(lines: seq<Line>, n: nat, pending: map<Key, nat>, updates: map<Key, seq<nat>>, o: Outcome)
    requires n < |lines| && lines[n].Queue? && Tracks(lines, n, pending, updates)
    ensures Settled(lines, n + 1, o) <==> Settled(lines, n, o) || o in Adds(lines, n, pending, updates)
  {
    hide Idle, Undisturbed, UpdatesBetween;
    var key := lines[n].key;
    IdleIsAbsent(lines, n, pending, updates, key);
    if key in pending { assert Open(lines, n, key, pending[key]); }
    if Boundary(lines, n) {
      if key in pending { NextBoundary(lines, n, pending[key]); }
      var i := if o.Matched? || o.Canceled? || o.Replaced? || o.DescriptorChanged? || o.CancelDescriptorChanged?
        then o.insertion else 0;
      NextBoundary(lines, n, i);
      if key in pending && Open(lines, n, key, i) { OneOpen(lines, n, key, i, pending[key]); }
    }
  }

  /** The maps after line n. */
  function PendingAfter(lines: seq<Line>, n: nat, pending: map<Key, nat>): map<Key, nat>
    requires n < |lines| && lines[n].Queue?
  {
    var key := lines[n].key;
    match lines[n].action
    case Update => pending
    case Enqueue => pending[key := n]
    case Dequeue => pending - {key}
    case Cancel => pending - {key}
  }

  function UpdatesAfter(lines: seq<Line>, n: nat, pending: map<Key, nat>, updates: map<Key, seq<nat>>)
    : map<Key, seq<nat>>
    requires n < |lines| && lines[n].Queue?
  {
    var key := lines[n].key;
    match lines[n].action
    case Update =>
      if key in pending then updates[key := (if key in updates then updates[key] else []) + [n]] else updates
    case Enqueue => updates[key := []]
    case Dequeue => updates - {key}
    case Cancel => updates - {key}
  }

  lemma TracksStep(lines: seq<Line>, n: nat, pending: map<Key, nat>, updates: map<Key, seq<nat>>)
    requires n < |lines| && lines[n].Queue? && Tracks(lines, n, pending, updates)
    ensures Tracks(lines, n + 1, PendingAfter(lines, n, pending), UpdatesAfter(lines, n, pending, updates))
  {
    hide Open;
    var m := n + 1;
    var p, u := PendingAfter(lines, n, pending), UpdatesAfter(lines, n, pending, updates);
    forall key: Key, i: nat | Open(lines, m, key, i) ensures key in p {
      OpenStep(lines, n, key, i);
    }
    forall key: Key | key in p
      ensures Open(lines, m, key, p[key]) && key in u && u[key] == UpdatesBetween(lines, p[key] + 1, m, key) {
      OpenStep(lines, n, key, p[key]);
      if key in pending { OpenBefore(lines, n, key, pending[key]); }
    }
  }

  lemma OpenBefore(lines: seq<Line>, n: nat, key: Key, i: nat)
    requires Open(lines, n, key, i)
    ensures i < n
  {
  }

  lemma OtherStep(lines: seq<Line>, n: nat, pending: map<Key, nat>, updates: map<Key, seq<nat>>, o: Outcome)
    requires n < |lines| && !lines[n].Queue? && Tracks(lines, n, pending, updates)
    ensures Tracks(lines, n + 1, pending, updates)
    ensures Settled(lines, n + 1, o) <==> Settled(lines, n, o)
  {
    var m := n + 1;
    forall key: Key, i: nat | Open(lines, m, key, i) ensures key in pending { OpenStep(lines, n, key, i); }
    hide Open;
    forall key: Key | key in pending
      ensures Open(lines, m, key, pending[key]) && updates[key] == UpdatesBetween(lines, pending[key] + 1, m, key) {
      OpenStep(lines, n, key, pending[key]);
      OpenBefore(lines, n, key, pending[key]);
    }
  }

  ghost predicate Reports(lines: seq<Line>, n: nat, r: Report)
    requires n <= |lines|
  {
    Sorted(r) && InOrder(|lines|, n, r) && forall o :: o in Everything(r) <==> Settled(lines, n, o)
  }

  /** File an outcome in the list for its kind. */
  function File(r: Report, o: Outcome): Report {
    match o
    case Matched(_, _, _) => r.(matches := r.matches + [o])
    case Canceled(_, _, _) => r.(canceled := r.canceled + [o])
    case IdleStop(_) => r.(idle := r.idle + [o])
    case OutsideUpdate(_) => r.(outside := r.outside + [o])
    case _ => r.(unmatched := r.unmatched + [o])
  }

  lemma FileKeeps(r: Report, o: Outcome)
    requires Sorted(r)
    ensures Sorted(File(r, o)) && forall x :: x in Everything(File(r, o)) <==> x in Everything(r) || x == o
  {
    hide Everything;
    EverythingIs(r);
    EverythingIs(File(r, o));
  }

  lemma FileInOrder(total: nat, n: nat, r: Report, o: Outcome)
    requires InOrder(total, n, r) && n <= Position(total, o)
    ensures InOrder(total, Position(total, o) + 1, File(r, o))
  {
    hide Ascending, Position;
    AscendingMore(total, n, r.matches, o);
    AscendingMore(total, n, r.unmatched, o);
    AscendingMore(total, n, r.canceled, o);
    AscendingMore(total, n, r.idle, o);
    AscendingMore(total, n, r.outside, o);
  }

  lemma EverythingIs(r: Report)
    ensures forall x ::
            x in Everything(r) <==>
              x in r.matches || x in r.unmatched || x in r.canceled || x in r.idle || x in r.outside
  {
  }

  /** The matcher: None if a queue line is malformed or its thread is unknown. */
  method Join(lines: seq<Line>) returns (answer: Option<Report>)
    ensures answer.Some? <==> Readable(lines)
    ensures answer.Some? ==> forall o :: o in Everything(answer.value) <==> Established(lines, |lines|, o)
    ensures answer.Some? ==> Sorted(answer.value) && InOrder(|lines|, 2 * |lines|, answer.value)
  {
    hide Tracks, Settled, Everything, Sorted, InOrder, Adds, PendingAfter, UpdatesAfter, Known;
    var tid: Option<int> := None;
    var pending: map<Key, nat> := map[];
    var updates: map<Key, seq<nat>> := map[];
    var r := Report([], [], [], [], []);
    var n := 0;
    Nothing(lines);
    while n < |lines|
      invariant 0 <= n <= |lines|
      invariant tid.Some? <==> Known(lines, n)
      invariant ReadableUpTo(lines, n) && Tracks(lines, n, pending, updates) && Reports(lines, n, r)
    {
      var line := lines[n];
      KnownMore(lines, n);
      match line {
        case OtherLine => Quiet(lines, n, pending, updates, r);
        case Thread(t) =>
          tid := Some(t);
          Quiet(lines, n, pending, updates, r);
        case Queue(action, key, fd, complete) =>
          if !complete || tid.None? { return None; }
          r, pending, updates := Observe(lines, n, pending, updates, r);
      }
      n := n + 1;
    }
    r := Leftovers(lines, pending, updates, r);
    return Some(r);
  }

  lemma Nothing(lines: seq<Line>)
    ensures Tracks(lines, 0, map[], map[]) && Reports(lines, 0, Report([], [], [], [], [])) && !Known(lines, 0)
  {
  }

  lemma Quiet(lines: seq<Line>, n: nat, pending: map<Key, nat>, updates: map<Key, seq<nat>>, r: Report)
    requires n < |lines| && !lines[n].Queue? && Tracks(lines, n, pending, updates) && Reports(lines, n, r)
    ensures Tracks(lines, n + 1, pending, updates) && Reports(lines, n + 1, r)
  {
    hide Tracks, Settled, Everything, Sorted, InOrder;
    OtherStep(lines, n, pending, updates, NoRemoval(0));
    forall o ensures Settled(lines, n + 1, o) <==> Settled(lines, n, o) { OtherStep(lines, n, pending, updates, o); }
    LaterOrder(|lines|, n, n + 1, r);
  }

  lemma Inserted(lines: seq<Line>, n: nat, pending: map<Key, nat>, updates: map<Key, seq<nat>>)
    requires n <= |lines| && Tracks(lines, n, pending, updates)
    ensures forall key :: key in pending ==> pending[key] < n && lines[pending[key]].Queue?
  {
    forall key | key in pending ensures pending[key] < n && lines[pending[key]].Queue? {
      assert Open(lines, n, key, pending[key]);
    }
  }

  /** One queue line. */
  method Observe(lines: seq<Line>, n: nat, pending: map<Key, nat>, updates: map<Key, seq<nat>>, r: Report)
    returns (r': Report, p: map<Key, nat>, u: map<Key, seq<nat>>)
    requires n < |lines| && lines[n].Queue? && Tracks(lines, n, pending, updates) && Reports(lines, n, r)
    ensures Tracks(lines, n + 1, p, u) && Reports(lines, n + 1, r')
  {
    hide Tracks, Settled, Everything, Sorted, InOrder, File;
    TracksStep(lines, n, pending, updates);
    Inserted(lines, n, pending, updates);
    var key := lines[n].key;
    var added: Option<Outcome> := None;
    p, u := pending, updates;
    var seen := if key in updates then updates[key] else [];
    match lines[n].action {
      case Cancel =>
        if key !in pending { added := Some(IdleStop(n)); }
        else if lines[pending[key]].fd == lines[n].fd { added := Some(Canceled(pending[key], n, seen)); }
        else { added := Some(CancelDescriptorChanged(pending[key], n)); }
        p, u := pending - {key}, updates - {key};
      case Update =>
        if key in pending { u := updates[key := seen + [n]]; } else { added := Some(OutsideUpdate(n)); }
      case Enqueue =>
        if key in pending { added := Some(Replaced(pending[key], n)); }
        p, u := pending[key := n], updates[key := []];
      case Dequeue =>
        if key !in pending { added := Some(NoInsertion(n)); }
        else if lines[pending[key]].fd == lines[n].fd { added := Some(Matched(pending[key], n, seen)); }
        else { added := Some(DescriptorChanged(pending[key], n)); }
        p, u := pending - {key}, updates - {key};
    }
    assert Adds(lines, n, pending, updates) == if added.Some? then [added.value] else [];
    r' := if added.Some? then File(r, added.value) else r;
    LaterOrder(|lines|, n, n + 1, r);
    if added.Some? {
      FileKeeps(r, added.value);
      FileInOrder(|lines|, n, r, added.value);
    }
    forall o ensures Settled(lines, n + 1, o) <==> o in Everything(r') { AddsRight(lines, n, pending, updates, o); }
  }

  /** Line i inserted and nothing has been seen to end that episode. */
  predicate LeftOver(lines: seq<Line>, pending: map<Key, nat>, i: nat) {
    Does(lines, i, Enqueue) && lines[i].key in pending && pending[lines[i].key] == i
  }

  lemma LeftOverIsOpen(lines: seq<Line>, pending: map<Key, nat>, updates: map<Key, seq<nat>>, i: nat)
    requires Tracks(lines, |lines|, pending, updates)
    ensures LeftOver(lines, pending, i) <==> Established(lines, |lines|, NoRemoval(i))
  {
    if Established(lines, |lines|, NoRemoval(i)) {
      var key := lines[i].key;
      OneOpen(lines, |lines|, key, i, pending[key]);
    }
  }

  /** Insertions still open at the end were never removed; they are listed as inserted. */
  method Leftovers(lines: seq<Line>, pending: map<Key, nat>, ghost updates: map<Key, seq<nat>>, r: Report)
    returns (r': Report)
    requires Tracks(lines, |lines|, pending, updates) && Reports(lines, |lines|, r)
    ensures Sorted(r') && InOrder(|lines|, 2 * |lines|, r')
            && forall o :: o in Everything(r') <==> Established(lines, |lines|, o)
  {
    hide Tracks, Everything, Sorted, InOrder, LeftOver, File, Established;
    r' := r;
    var i := 0;
    while i < |lines|
      invariant 0 <= i <= |lines| && Sorted(r') && InOrder(|lines|, |lines| + i, r')
      invariant forall o :: o in Everything(r') <==>
                  o in Everything(r) || (o.NoRemoval? && o.insertion < i && LeftOver(lines, pending, o.insertion))
    {
      LaterOrder(|lines|, |lines| + i, |lines| + i + 1, r');
      if LeftOver(lines, pending, i) {
        FileKeeps(r', NoRemoval(i));
        FileInOrder(|lines|, |lines| + i, r', NoRemoval(i));
        r' := File(r', NoRemoval(i));
      }
      i := i + 1;
    }
    forall o ensures o in Everything(r') <==> Established(lines, |lines|, o) {
      if o.NoRemoval? {
        LeftOverIsOpen(lines, pending, updates, o.insertion);
        InLines(lines, o.insertion);
      }
    }
  }

  lemma InLines(lines: seq<Line>, i: nat)
    ensures Established(lines, |lines|, NoRemoval(i)) ==> i < |lines|
  {
  }

  // ----- what happens to an insertion --------------------------------------------------------------------

  predicate Concerns(o: Outcome, i: nat) {
    (o.Matched? || o.Canceled? || o.Replaced? || o.DescriptorChanged? || o.CancelDescriptorChanged? || o.NoRemoval?)
      && o.insertion == i
  }

  lemma OneNext(lines: seq<Line>, i: nat, j: nat, k: nat)
    requires Consecutive(lines, i, j) && Consecutive(lines, i, k)
    ensures j == k
  {
  }

  /** An insertion has at most one outcome. */
  lemma AtMostOneOutcome(lines: seq<Line>, i: nat, o: Outcome, p: Outcome)
    requires Established(lines, |lines|, o) && Established(lines, |lines|, p) && Concerns(o, i) && Concerns(p, i)
    ensures o == p
  {
    hide UpdatesBetween, Undisturbed;
    forall j: nat, k: nat | Consecutive(lines, i, j) && Consecutive(lines, i, k) ensures j == k {
      OneNext(lines, i, j, k);
    }
    forall j: nat | j < |lines| && Consecutive(lines, i, j) ensures !Open(lines, |lines|, lines[i].key, i) {
      ClosedBy(lines, i, j);
    }
  }

  lemma ClosedBy(lines: seq<Line>, i: nat, j: nat)
    requires j < |lines| && Consecutive(lines, i, j)
    ensures !Open(lines, |lines|, lines[i].key, i)
  {
  }

  lemma FirstBoundary(lines: seq<Line>, i: nat, n: nat) returns (j: Option<nat>)
    requires i < n <= |lines| && Does(lines, i, Enqueue)
    ensures match j
            case None => Undisturbed(lines, i + 1, n, lines[i].key)
            case Some(k) => k < n && Consecutive(lines, i, k)
    decreases n
  {
    if n == i + 1 {
      j := None;
    } else {
      j := FirstBoundary(lines, i, n - 1);
      if j.None? && Boundary(lines, n - 1) && About(lines, n - 1, lines[i].key) { j := Some(n - 1); }
    }
  }

  /** Every insertion has an outcome: matched, canceled, or one of the unmatched kinds. */
  lemma EveryInsertionHasOne(lines: seq<Line>, i: nat)
    requires Does(lines, i, Enqueue)
    ensures exists o :: Concerns(o, i) && Established(lines, |lines|, o)
  {
    var j := FirstBoundary(lines, i, |lines|);
    var key := lines[i].key;
    match j {
      case None =>
        assert Concerns(NoRemoval(i), i) && Established(lines, |lines|, NoRemoval(i));
      case Some(k) =>
        var o := match lines[k].action
          case Enqueue => Replaced(i, k)
          case Dequeue =>
            if SameFd(lines, i, k) then Matched(i, k, UpdatesBetween(lines, i + 1, k, key)) else DescriptorChanged(i, k)
          case Cancel =>
            if SameFd(lines, i, k) then Canceled(i, k, UpdatesBetween(lines, i + 1, k, key))
              else CancelDescriptorChanged(i, k)
          case Update => NoRemoval(i);
        assert Concerns(o, i) && Established(lines, |lines|, o);
    }
  }
}
