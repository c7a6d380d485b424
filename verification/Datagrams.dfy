/** Pairing observed Unix datagrams: what makes a channel acceptable, and why acceptance
    means the pairing is the kernel's own. */
module Datagrams {
  import opened Trace

  type Inode = nat

  /** A channel: its two endpoint inodes in order. */
  datatype Key = Key(lo: Inode, hi: Inode)
  /** One direction of a channel. */
  datatype Flow = Flow(sender: Inode, receiver: Inode)

  datatype Op = SocketPair | Send | Receive | Unsupported | RingSetup | RingOther | OtherOp

  /** A descriptor mentioned in the arguments: leading or not, its inode, its peer if shown. */
  datatype Ref = Ref(leading: bool, inode: Inode, peer: Option<Inode>)

  datatype Rights = Rights(decoded: bool, succeeded: bool, truncated: bool, fds: seq<int>)

  /** What was said about the call: creation of a plain datagram pair, every descriptor
      mentioned, the leading endpoint, and whether flags are the supported ones. */
  datatype Details = Details(
    created: Option<Flow>, refs: seq<Ref>, endpoint: Option<Flow>, plainFlags: bool, partialRead: bool,
      rights: Option<Rights>)

  datatype Event = Event(source: nat, pid: Pid, op: Op, result: Option<int>, start: int, completion: Option<int>,
                         about: Details)

  datatype Reason =
    | EndpointReused | InodeShared | UnsupportedOperation | SecondaryDescriptor | PeerUnresolved | RingActivity
    | UnknownOutcome | UnsupportedFlags | NoCompletion | PartialMessage | PredatesChannel
    | Unbalanced | Overlapping | ReceiveBeforeSend | LengthMismatch | IncompleteRights | RightsCount

  /** One descriptor, at one end: the message's place in the trace, its process, and the number there. */
  datatype End = End(message: nat, pid: Pid, fd: int)
  datatype Pair = Pair(send: End, receive: End, creation: nat, flow: Flow)

  function KeyOf(f: Flow): Key {
    if f.sender <= f.receiver then Key(f.sender, f.receiver) else Key(f.receiver, f.sender)
  }

  function Reverse(f: Flow): Flow { Flow(f.receiver, f.sender) }

  // ----- reasons to abstain -----------------------------------------------------------------------

  predicate Creates(e: Event, key: Key) {
    e.op.SocketPair? && e.result == Some(0) && e.about.created.Some? && KeyOf(e.about.created.value) == key
  }

  function Created(events: seq<Event>): set<Key> {
    set e | e in events && e.op.SocketPair? && e.result == Some(0) && e.about.created.Some? ::
      KeyOf(e.about.created.value)
  }

  function Creations(events: seq<Event>, key: Key): seq<Event> {
    if events == [] then []
    else
      Creations(events[..|events| - 1], key)
      + if Creates(events[|events| - 1], key) then [events[|events| - 1]] else []
  }

  predicate Mentions(key: Key, inode: Inode) { inode == key.lo || inode == key.hi }

  predicate Touches(key: Key, ref: Ref) {
    Mentions(key, ref.inode) || (ref.peer.Some? && Mentions(key, ref.peer.value))
  }

  predicate Transfers(op: Op) { op.Send? || op.Receive? }

  function RefReasons(op: Op, ref: Ref, key: Key): set<Reason> {
    if !Touches(key, ref) then {}
    else
      (if op.Unsupported? then {UnsupportedOperation} else {})
      + if !Transfers(op) then {}
        else if !ref.leading then {SecondaryDescriptor}
        else if ref.peer.None? || KeyOf(Flow(ref.inode, ref.peer.value)) != key then {PeerUnresolved}
        else {}
  }

  function RefsReasons(op: Op, refs: seq<Ref>, key: Key): set<Reason> {
    if refs == [] then {} else RefsReasons(op, refs[..|refs| - 1], key) + RefReasons(op, refs[|refs| - 1], key)
  }

  predicate RingActive(e: Event) { e.op.RingOther? || (e.op.RingSetup? && !(e.result.Some? && e.result.value < 0)) }

  function ActivityReasons(e: Event, key: Key): set<Reason> {
    RefsReasons(e.op, e.about.refs, key) + if RingActive(e) then {RingActivity} else {}
  }

  predicate OnChannel(e: Event, key: Key) {
    Transfers(e.op) && e.about.endpoint.Some? && KeyOf(e.about.endpoint.value) == key
  }

  /** A successful message on the channel. */
  predicate Delivered(e: Event, key: Key) { OnChannel(e, key) && e.result.Some? && e.result.value >= 0 }

  function MessageReasons(e: Event, key: Key, born: int): set<Reason> {
    if !OnChannel(e, key) then {}
    else if e.result.None? then {UnknownOutcome}
    else if e.result.value < 0 then {}
    else
      (if e.about.plainFlags then {} else {UnsupportedFlags})
      + (if e.completion.None? then {NoCompletion} else {})
      + (if e.about.partialRead then {PartialMessage} else {})
      + (if e.start < born then {PredatesChannel} else {})
  }

  /** Which direction a message travels. */
  function FlowOf(e: Event): Flow
    requires e.about.endpoint.Some?
  {
    if e.op.Send? then e.about.endpoint.value else Reverse(e.about.endpoint.value)
  }

  function Sends(events: seq<Event>, key: Key, flow: Flow): seq<Event> {
    if events == [] then []
    else
      var e := events[|events| - 1];
      Sends(events[..|events| - 1], key, flow)
        + if Delivered(e, key) && e.op.Send? && FlowOf(e) == flow then [e] else []
  }

  function Receives(events: seq<Event>, key: Key, flow: Flow): seq<Event> {
    if events == [] then []
    else
      var e := events[|events| - 1];
      Receives(events[..|events| - 1], key, flow)
        + if Delivered(e, key) && !e.op.Send? && FlowOf(e) == flow then [e] else []
  }

  /** The directions a channel was used in, by first message. */
  function Flows(events: seq<Event>, key: Key): seq<Flow> {
    if events == [] then []
    else
      var e := events[|events| - 1];
      var front := Flows(events[..|events| - 1], key);
      if Delivered(e, key) && FlowOf(e) !in front then front + [FlowOf(e)] else front
  }

  /** The channels, by creation. */
  function Keys(events: seq<Event>): seq<Key> {
    if events == [] then []
    else
      var e := events[|events| - 1];
      var front := Keys(events[..|events| - 1]);
      if e.op.SocketPair? && e.result == Some(0) && e.about.created.Some? && KeyOf(e.about.created.value) !in front
      then front + [KeyOf(e.about.created.value)] else front
  }

  lemma {:induction false} KeysAreCreated(events: seq<Event>)
    ensures forall key :: key in Keys(events) <==> Creations(events, key) != []
    ensures forall i, j :: 0 <= i < j < |Keys(events)| ==> Keys(events)[i] != Keys(events)[j]
  {
    if events != [] { KeysAreCreated(events[..|events| - 1]); }
  }

  /** Every message travels one of the listed directions, none listed twice. */
  lemma {:induction false} FlowsCover(events: seq<Event>, key: Key, flow: Flow)
    ensures flow in Flows(events, key) <==> Sends(events, key, flow) != [] || Receives(events, key, flow) != []
    ensures flow in Flows(events, key) ==> KeyOf(flow) == key
    ensures forall i, j :: 0 <= i < j < |Flows(events, key)| ==> Flows(events, key)[i] != Flows(events, key)[j]
  {
    if events != [] { FlowsCover(events[..|events| - 1], key, flow); }
  }

  // ----- sorting -------------------------------------------------------------------------------------

  /** Stable insertion by start time. */
  function Insert(e: Event, sorted: seq<Event>): seq<Event> {
    if sorted == [] then [e]
    else
      var n := |sorted| - 1;
      if sorted[n].start <= e.start then sorted + [e] else Insert(e, sorted[..n]) + [sorted[n]]
  }

  function ByStart(events: seq<Event>): seq<Event> {
    if events == [] then [] else Insert(events[|events| - 1], ByStart(events[..|events| - 1]))
  }

  predicate InOrder(s: seq<Event>) { forall i, j :: 0 <= i < j < |s| ==> s[i].start <= s[j].start }

  lemma {:induction false} InsertHolds(e: Event, sorted: seq<Event>)
    ensures multiset(Insert(e, sorted)) == multiset(sorted) + multiset{e}
    ensures forall x :: x in Insert(e, sorted) ==> x == e || x in sorted
  {
    if sorted != [] {
      var n := |sorted| - 1;
      assert sorted == sorted[..n] + [sorted[n]];
      if sorted[n].start > e.start { InsertHolds(e, sorted[..n]); }
    }
  }

  lemma {:induction false} InsertOrders(e: Event, sorted: seq<Event>)
    requires InOrder(sorted)
    ensures InOrder(Insert(e, sorted))
  {
    if sorted != [] {
      var n := |sorted| - 1;
      if sorted[n].start > e.start {
        InsertOrders(e, sorted[..n]);
        InsertHolds(e, sorted[..n]);
        var r := Insert(e, sorted[..n]);
        forall i | 0 <= i < |r| ensures r[i].start <= sorted[n].start { assert r[i] in r; }
      }
    }
  }

  lemma {:induction false} ByStartSorts(events: seq<Event>)
    ensures multiset(ByStart(events)) == multiset(events) && InOrder(ByStart(events))
  {
    if events != [] {
      var n := |events| - 1;
      assert events == events[..n] + [events[n]];
      ByStartSorts(events[..n]);
      InsertHolds(events[n], ByStart(events[..n]));
      InsertOrders(events[n], ByStart(events[..n]));
    }
  }

  // ----- one direction --------------------------------------------------------------------------------

  predicate Overlaps(first: Event, second: Event) { first.completion.None? || first.completion.value >= second.start }

  predicate Serial(s: seq<Event>) { forall i :: 0 <= i < |s| - 1 ==> !Overlaps(s[i], s[i + 1]) }

  predicate Usable(r: Option<Rights>) { r.Some? && r.value.decoded && r.value.succeeded && !r.value.truncated }

  function RightsReasons(left: Option<Rights>, right: Option<Rights>): set<Reason> {
    if left.None? && right.None? then {}
    else if !Usable(left) || !Usable(right) then {IncompleteRights}
    else if |left.value.fds| != |right.value.fds| then {RightsCount}
    else {}
  }

  function MatchReasons(s: Event, r: Event): set<Reason> {
    (if r.completion.None? || s.start > r.completion.value then {ReceiveBeforeSend} else {})
    + (if s.result != r.result then {LengthMismatch} else {})
    + RightsReasons(s.about.rights, r.about.rights)
  }

  function Min(a: nat, b: nat): nat { if a <= b then a else b }

  function MatchesReasons(s: seq<Event>, r: seq<Event>, n: nat): set<Reason>
    requires n <= |s| && n <= |r|
  {
    if n == 0 then {} else MatchesReasons(s, r, n - 1) + MatchReasons(s[n - 1], r[n - 1])
  }

  /** Why one direction, sorted, is not a serialized balanced sequence. */
  function FlowReasons(s: seq<Event>, r: seq<Event>): set<Reason> {
    (if |s| != |r| then {Unbalanced} else {})
    + (if Serial(s) && Serial(r) then {} else {Overlapping})
    + MatchesReasons(s, r, Min(|s|, |r|))
  }

  function PairsAt(s: Event, r: Event, creation: nat, flow: Flow): seq<Pair> {
    var left, right := s.about.rights, r.about.rights;
    if !Usable(left) || !Usable(right) || |left.value.fds| != |right.value.fds| then []
    else seq(|left.value.fds|, i requires 0 <= i < |left.value.fds| =>
           Pair(End(s.source, s.pid, left.value.fds[i]), End(r.source, r.pid, right.value.fds[i]), creation, flow))
  }

  function FlowPairs(s: seq<Event>, r: seq<Event>, n: nat, creation: nat, flow: Flow): seq<Pair>
    requires n <= |s| && n <= |r|
  {
    if n == 0 then [] else FlowPairs(s, r, n - 1, creation, flow) + PairsAt(s[n - 1], r[n - 1], creation, flow)
  }

  // ----- a channel --------------------------------------------------------------------------------------

  function SharesInode(key: Key, other: Key): bool {
    other != key && (Mentions(key, other.lo) || Mentions(key, other.hi))
  }

  function ActivitySum(events: seq<Event>, key: Key): set<Reason> {
    if events == [] then {}
    else ActivitySum(events[..|events| - 1], key) + ActivityReasons(events[|events| - 1], key)
  }

  function MessageSum(events: seq<Event>, key: Key, born: int): set<Reason> {
    if events == [] then {}
    else MessageSum(events[..|events| - 1], key, born) + MessageReasons(events[|events| - 1], key, born)
  }

  function ChannelFlowReasons(events: seq<Event>, key: Key, flows: seq<Flow>): set<Reason> {
    if flows == [] then {}
    else
      var f := flows[|flows| - 1];
      ChannelFlowReasons(events, key, flows[..|flows| - 1])
      + FlowReasons(ByStart(Sends(events, key, f)), ByStart(Receives(events, key, f)))
  }

  function ChannelPairs(events: seq<Event>, key: Key, flows: seq<Flow>, creation: nat): seq<Pair> {
    if flows == [] then []
    else
      var f := flows[|flows| - 1];
      var s, r := ByStart(Sends(events, key, f)), ByStart(Receives(events, key, f));
      ChannelPairs(events, key, flows[..|flows| - 1], creation) + FlowPairs(s, r, Min(|s|, |r|), creation, f)
  }

  /** What speaks against a channel before its messages are paired. */
  function BaseReasons(events: seq<Event>, key: Key): set<Reason>
    requires Creations(events, key) != []
  {
    (if |Creations(events, key)| > 1 then {EndpointReused} else {})
    + (if exists other :: other in Created(events) && SharesInode(key, other) then {InodeShared} else {})
    + ActivitySum(events, key) + MessageSum(events, key, Creations(events, key)[0].start)
  }

  /** Everything that speaks against a channel. */
  function Reasons(events: seq<Event>, key: Key): set<Reason>
    requires Creations(events, key) != []
  {
    BaseReasons(events, key) + ChannelFlowReasons(events, key, Flows(events, key))
  }

  lemma {:induction false} CreatedOnce(events: seq<Event>, key: Key)
    ensures key in Created(events) <==> Creations(events, key) != []
  {
    if events != [] {
      var n := |events| - 1;
      CreatedOnce(events[..n], key);
      assert events == events[..n] + [events[n]];
      assert Created(events) == Created(events[..n]) + Created([events[n]]);
      assert key in Created([events[n]]) <==> Creates(events[n], key) by { assert events[n] in [events[n]]; }
    }
  }

  // ----- the kernel's queue -------------------------------------------------------------------------------

  /** A message is enqueued or dequeued, at an instant. */
  datatype Step = Put(e: Event, at: int) | Take(e: Event, at: int)

  predicate During(e: Event, at: int) { e.completion.Some? && e.start <= at <= e.completion.value }

  function Puts(run: seq<Step>): seq<Step> {
    if run == [] then [] else (if run[0].Put? then [run[0]] else []) + Puts(run[1..])
  }

  function Takes(run: seq<Step>): seq<Step> {
    if run == [] then [] else (if run[0].Take? then [run[0]] else []) + Takes(run[1..])
  }

  function Events(steps: seq<Step>): (r: seq<Event>)
    ensures |r| == |steps| && forall i :: 0 <= i < |steps| ==> r[i] == steps[i].e
  {
    seq(|steps|, i requires 0 <= i < |steps| => steps[i].e)
  }

  /** In order of time, each step inside its call. */
  ghost predicate Timed(steps: seq<Step>) {
    && (forall i :: 0 <= i < |steps| ==> During(steps[i].e, steps[i].at))
    && (forall i, j :: 0 <= i < j < |steps| ==> steps[i].at <= steps[j].at)
  }

  /** What each dequeue obtains; None if one finds the queue empty. */
  function Received(run: seq<Step>, queue: seq<Event>): Option<seq<(Event, Event)>>
    decreases |run|
  {
    if run == [] then Some([])
    else if run[0].Put? then Received(run[1..], queue + [run[0].e])
    else if queue == [] then None
    else
      match Received(run[1..], queue[1..])
      case None => None
      case Some(rest) => Some([(queue[0], run[0].e)] + rest)
  }

  /** A run of the queue that explains the observed sends and receives of one direction. */
  ghost predicate Explains(run: seq<Step>, sends: seq<Event>, receives: seq<Event>) {
    && Timed(run)
    && multiset(Events(Puts(run))) == multiset(sends)
    && multiset(Events(Takes(run))) == multiset(receives)
    && Received(run, []).Some?
  }

  ghost predicate Fifo(got: seq<(Event, Event)>, sent: seq<Event>, taken: seq<Step>) {
    |got| == |taken| <= |sent| && forall k :: 0 <= k < |got| ==> got[k] == (sent[k], taken[k].e)
  }

  lemma FifoTake(got: seq<(Event, Event)>, sent: seq<Event>, taken: seq<Step>, first: Event, taker: Step)
    requires Fifo(got, sent, taken)
    ensures Fifo([(first, taker.e)] + got, [first] + sent, [taker] + taken)
  {
  }

  /** First in, first out: the k-th dequeue obtains the k-th enqueued message. */
  lemma {:induction false} FirstInFirstOut(run: seq<Step>, queue: seq<Event>)
    requires Received(run, queue).Some?
    ensures Fifo(Received(run, queue).value, queue + Events(Puts(run)), Takes(run))
    decreases |run|
  {
    hide Fifo;
    if run == [] {
      NoneReceived(queue);
    } else if run[0].Put? {
      FirstInFirstOut(run[1..], queue + [run[0].e]);
      assert Takes(run) == Takes(run[1..]);
      assert queue + Events(Puts(run)) == (queue + [run[0].e]) + Events(Puts(run[1..]));
    } else {
      FirstInFirstOut(run[1..], queue[1..]);
      FifoTake(Received(run[1..], queue[1..]).value, queue[1..] + Events(Puts(run[1..])), Takes(run[1..]), queue[0],
               run[0]);
      assert queue + Events(Puts(run)) == [queue[0]] + (queue[1..] + Events(Puts(run[1..])));
    }
  }

  lemma NoneReceived(queue: seq<Event>)
    ensures Fifo([], queue + Events(Puts([])), Takes([]))
  {
  }

  lemma {:induction false} PutsTimed(run: seq<Step>)
    requires Timed(run)
    ensures Timed(Puts(run)) && Timed(Takes(run))
    ensures forall s :: s in Puts(run) || s in Takes(run) ==> s in run
  {
    if run != [] {
      assert Timed(run[1..]);
      PutsTimed(run[1..]);
      assert run == [run[0]] + run[1..];
      forall s | s in run[1..] ensures run[0].at <= s.at {
        var i :| 0 <= i < |run[1..]| && run[1..][i] == s;
        assert s == run[i + 1];
      }
      Prepended(run[0], Puts(run[1..]));
      Prepended(run[0], Takes(run[1..]));
    }
  }

  lemma Prepended(first: Step, rest: seq<Step>)
    requires Timed(rest) && During(first.e, first.at) && forall s :: s in rest ==> first.at <= s.at
    ensures Timed([first] + rest)
  {
  }

  lemma HeadFirst(steps: seq<Step>, s: seq<Event>)
    requires Timed(steps) && multiset(Events(steps)) == multiset(s) && Apart(s) && s != []
    ensures steps != [] && steps[0].e == s[0]
  {
    var events := Events(steps);
    assert s[0] in multiset(events);
    var p :| 0 <= p < |events| && events[p] == s[0];
    assert events[0] in multiset(s);
    var j :| 0 <= j < |s| && s[j] == events[0];
    assert During(steps[p].e, steps[p].at) && During(steps[0].e, steps[0].at);
    assert p == 0 || steps[0].at <= steps[p].at;
  }

  lemma Tails(steps: seq<Step>, s: seq<Event>)
    requires Timed(steps) && Apart(s) && steps != [] && s != []
    ensures Timed(steps[1..]) && Apart(s[1..]) && Events(steps[1..]) == Events(steps)[1..]
  {
    ApartTail(s, s[1..]);
  }

  lemma ApartTail(s: seq<Event>, t: seq<Event>)
    requires Apart(s) && s != [] && t == s[1..]
    ensures Apart(t)
  {
    forall i, j | 0 <= i < j < |t| ensures t[i].completion.Some? && t[i].completion.value < t[j].start {
      var a, b := i + 1, j + 1;
      assert t[i] == s[a] && t[j] == s[b];
    }
  }

  lemma SameTail(a: seq<Event>, b: seq<Event>)
    requires a != [] && b != [] && a[0] == b[0] && multiset(a) == multiset(b)
    ensures multiset(a[1..]) == multiset(b[1..])
  {
    assert a == [a[0]] + a[1..] && b == [b[0]] + b[1..];
    assert multiset(a[1..]) == multiset(a) - multiset{a[0]};
    assert multiset(b[1..]) == multiset(b) - multiset{b[0]};
  }

  /** Serialized calls can only have taken effect in their order. */
  lemma {:induction false} SerialOrder(steps: seq<Step>, s: seq<Event>)
    requires Timed(steps) && multiset(Events(steps)) == multiset(s) && Apart(s)
    ensures Events(steps) == s
    decreases |s|
  {
    hide Timed, Apart;
    if s == [] {
      assert |multiset(Events(steps))| == |Events(steps)| == 0;
    } else {
      HeadFirst(steps, s);
      Tails(steps, s);
      SameTail(Events(steps), s);
      SerialOrder(steps[1..], s[1..]);
      assert Events(steps) == [s[0]] + Events(steps)[1..] && s == [s[0]] + s[1..];
    }
  }

  /** Every call ends before every later one starts. */
  ghost predicate Apart(s: seq<Event>) {
    forall i, j :: 0 <= i < j < |s| ==> s[i].completion.Some? && s[i].completion.value < s[j].start
  }

  lemma SerialApart(s: seq<Event>)
    requires Serial(s) && InOrder(s)
    ensures Apart(s)
  {
    forall i, j | 0 <= i < j < |s| ensures s[i].completion.Some? && s[i].completion.value < s[j].start {
      assert !Overlaps(s[i], s[i + 1]);
      assert s[i + 1].start <= s[j].start;
    }
  }

  /** In every run that explains a serialized balanced direction, the k-th receive obtained
      the k-th send. */
  lemma PairingIsTrue(run: seq<Step>, sends: seq<Event>, receives: seq<Event>)
    requires FlowReasons(ByStart(sends), ByStart(receives)) == {} && Explains(run, sends, receives)
    ensures var got := Received(run, []).value;
            && |got| == |sends| == |receives| == |ByStart(sends)| == |ByStart(receives)|
            && forall k :: 0 <= k < |got| ==> got[k] == (ByStart(sends)[k], ByStart(receives)[k])
  {
    var s, r := ByStart(sends), ByStart(receives);
    ByStartSorts(sends);
    ByStartSorts(receives);
    NoFlowReason(s, r);
    SerialApart(s);
    SerialApart(r);
    PutsTimed(run);
    SerialOrder(Puts(run), s);
    SerialOrder(Takes(run), r);
    FirstInFirstOut(run, []);
    assert [] + Events(Puts(run)) == s;
    assert |sends| == |multiset(sends)| && |s| == |multiset(s)| && |receives| == |multiset(receives)|;
  }

  lemma NoFlowReason(s: seq<Event>, r: seq<Event>)
    requires FlowReasons(s, r) == {}
    ensures |s| == |r| && Serial(s) && Serial(r)
  {
    assert Unbalanced !in FlowReasons(s, r) && Overlapping !in FlowReasons(s, r);
  }

  // ----- which directions can be explained at all ---------------------------------------------------------

  /** Calls that end when or after they start. */
  predicate Proper(s: seq<Event>) {
    forall i :: 0 <= i < |s| ==> s[i].completion.Some? && s[i].start <= s[i].completion.value
  }

  /** Enqueue every send when it starts and dequeue every receive when it ends, in time order. */
  function Merge(s: seq<Event>, r: seq<Event>): seq<Step>
    requires Proper(r)
    decreases |s| + |r|
  {
    if s != [] && (r == [] || s[0].start <= r[0].completion.value) then [Put(s[0], s[0].start)] + Merge(s[1..], r)
    else if r != [] then [Take(r[0], r[0].completion.value)] + Merge(s, r[1..])
    else []
  }

  ghost predicate NotBefore(steps: seq<Step>, t: int) { forall x :: x in steps ==> t <= x.at }

  lemma MergeKeeps(s: seq<Event>, r: seq<Event>)
    requires Proper(r)
    ensures Events(Puts(Merge(s, r))) == s && Events(Takes(Merge(s, r))) == r
    decreases |s| + |r|
  {
    if s != [] && (r == [] || s[0].start <= r[0].completion.value) {
      MergeKeeps(s[1..], r);
    } else if r != [] {
      MergeKeeps(s, r[1..]);
    }
  }

  /** Ends of later calls are later still. */
  predicate Later(s: seq<Event>) {
    && (forall i, j :: 0 <= i < j < |s| ==> s[i].start <= s[j].start)
    && (forall i,
        j :: 0 <= i < j < |s| ==>
          s[i].completion.Some? && s[j].completion.Some? && s[i].completion.value <= s[j].completion.value)
  }

  lemma MergeNotBefore(s: seq<Event>, r: seq<Event>, t: int)
    requires Proper(r) && Later(s) && Later(r)
    requires s != [] ==> t <= s[0].start
    requires r != [] ==> t <= r[0].completion.value
    ensures NotBefore(Merge(s, r), t)
    decreases |s| + |r|
  {
    if s != [] && (r == [] || s[0].start <= r[0].completion.value) {
      MergeNotBefore(s[1..], r, t);
    } else if r != [] {
      MergeNotBefore(s, r[1..], t);
    }
  }

  lemma MergeTimed(s: seq<Event>, r: seq<Event>)
    requires Proper(s) && Proper(r) && Later(s) && Later(r)
    ensures Timed(Merge(s, r))
    decreases |s| + |r|
  {
    if s != [] && (r == [] || s[0].start <= r[0].completion.value) {
      MergeTimed(s[1..], r);
      MergeNotBefore(s[1..], r, s[0].start);
      Prepended(Put(s[0], s[0].start), Merge(s[1..], r));
    } else if r != [] {
      MergeTimed(s, r[1..]);
      MergeNotBefore(s, r[1..], r[0].completion.value);
      Prepended(Take(r[0], r[0].completion.value), Merge(s, r[1..]));
    }
  }

  /** The send that a receive obtains starts before the receive ends. */
  predicate SentBefore(s: seq<Event>, r: seq<Event>) {
    |s| == |r| && forall k :: 0 <= k < |r| ==> r[k].completion.Some? && s[k].start <= r[k].completion.value
  }

  lemma MergeReceives(s: seq<Event>, r: seq<Event>, queue: seq<Event>)
    requires Proper(r) && Later(s) && Later(r) && SentBefore(queue + s, r)
    ensures Received(Merge(s, r), queue).Some?
    decreases |s| + |r|
  {
    if s != [] && (r == [] || s[0].start <= r[0].completion.value) {
      assert queue + s == (queue + [s[0]]) + s[1..];
      MergeReceives(s[1..], r, queue + [s[0]]);
    } else if r != [] {
      assert queue == [] ==> queue + s == s;
      assert queue + s == [queue[0]] + (queue[1..] + s);
      SentBeforeTail(queue + s, r);
      assert (queue + s)[1..] == queue[1..] + s;
      MergeReceives(s, r[1..], queue[1..]);
    }
  }

  lemma SentBeforeTail(s: seq<Event>, r: seq<Event>)
    requires SentBefore(s, r) && s != []
    ensures SentBefore(s[1..], r[1..])
  {
  }

  lemma ApartLater(s: seq<Event>)
    requires Apart(s) && Proper(s)
    ensures Later(s)
  {
  }

  /** The check on each pair is exact: a serialized balanced direction has a run that explains it
      if and only if no receive ended before its send began. */
  lemma ExplainableIff(s: seq<Event>, r: seq<Event>)
    requires Apart(s) && Apart(r) && Proper(s) && Proper(r) && |s| == |r|
    ensures (exists run :: Explains(run, s, r)) <==> SentBefore(s, r)
  {
    if SentBefore(s, r) {
      ApartLater(s);
      ApartLater(r);
      MergeKeeps(s, r);
      MergeTimed(s, r);
      assert [] + s == s;
      MergeReceives(s, r, []);
      assert Explains(Merge(s, r), s, r);
    }
    if run :| Explains(run, s, r) { ExplainedSentBefore(s, r, run); }
  }

  lemma ExplainedSentBefore(s: seq<Event>, r: seq<Event>, run: seq<Step>)
    requires Apart(s) && Apart(r) && |s| == |r| && Explains(run, s, r)
    ensures SentBefore(s, r)
  {
    PutsTimed(run);
    SerialOrder(Puts(run), s);
    SerialOrder(Takes(run), r);
    forall k | 0 <= k < |r| ensures r[k].completion.Some? && s[k].start <= r[k].completion.value {
      TakenAt(run, r, k);
      PutBeforeTake(run, [], k);
      var put, take := Puts(run)[k], Takes(run)[k];
      assert During(put.e, put.at) && During(take.e, take.at);
    }
  }

  lemma TakenAt(run: seq<Step>, r: seq<Event>, k: nat)
    requires Events(Takes(run)) == r && k < |r|
    ensures k < |Takes(run)| && Takes(run)[k].e == r[k]
  {
  }

  lemma TimedTail(run: seq<Step>)
    requires Timed(run) && run != []
    ensures Timed(run[1..]) && forall x :: x in run ==> run[0].at <= x.at
  {
    forall x | x in run ensures run[0].at <= x.at {
      var i :| 0 <= i < |run| && run[i] == x;
      if i > 0 { assert run[0].at <= run[i].at; }
    }
  }

  lemma {:induction false} TakesInRun(run: seq<Step>, k: nat)
    requires k < |Takes(run)|
    ensures Takes(run)[k] in run
  {
    if run[0].Take? && k == 0 {} else { TakesInRun(run[1..], if run[0].Take? then k - 1 else k); }
  }

  lemma Unfold(run: seq<Step>, queue: seq<Event>)
    requires run != []
    ensures Puts(run) == (if run[0].Put? then [run[0]] else []) + Puts(run[1..])
    ensures Takes(run) == (if run[0].Take? then [run[0]] else []) + Takes(run[1..])
    ensures Received(run, queue).Some? ==>
              if run[0].Put? then Received(run[1..], queue + [run[0].e]).Some?
              else queue != [] && Received(run[1..], queue[1..]).Some?
  {
  }

  /** A message put after `queue` is enqueued before its dequeue. */
  lemma {:induction false} PutBeforeTake(run: seq<Step>, queue: seq<Event>, k: nat)
    requires Timed(run) && Received(run, queue).Some? && |queue| + k < |Takes(run)|
    ensures k < |Puts(run)| && Puts(run)[k].at <= Takes(run)[|queue| + k].at
    decreases |run|
  {
    TimedTail(run);
    Unfold(run, queue);
    TakesInRun(run, |queue| + k);
    var rest := run[1..];
    hide Timed, Takes, Puts, Received;
    if run[0].Take? {
      PutBeforeTake(rest, queue[1..], k);
    } else if k > 0 {
      PutBeforeTake(rest, queue + [run[0].e], k - 1);
    }
  }
}
