/** What the pairing pass answers, said of the observed calls alone: which messages make a
    direction, when a channel is accepted, and that every descriptor of an accepted channel is
    named exactly once, at both of its ends. */
module TransferMeaning {
  import opened Trace
  import opened Datagrams
  import opened DatagramPairing

  // ----- calls ---------------------------------------------------------------------------------

  /** The two endpoints are those of the channel, in either order. */
  predicate Joins(a: Inode, b: Inode, key: Key) { (a == key.lo && b == key.hi) || (a == key.hi && b == key.lo) }

  /** A socketpair call that made the channel. */
  predicate Makes(e: Event, key: Key) {
    && e.op.SocketPair? && e.result == Some(0) && e.about.created.Some?
    && Joins(e.about.created.value.sender, e.about.created.value.receiver, key)
  }

  /** A message call on one of the channel's endpoints, whatever came of it. */
  predicate Messages(e: Event, key: Key) {
    && (e.op.Send? || e.op.Receive?) && e.about.endpoint.Some?
    && Joins(e.about.endpoint.value.sender, e.about.endpoint.value.receiver, key)
  }

  /** A message that was sent in this direction. */
  predicate SentIn(e: Event, flow: Flow) {
    e.op.Send? && e.about.endpoint == Some(flow) && e.result.Some? && e.result.value >= 0
  }

  /** A message that was received in this direction: the receiving endpoint is shown first. */
  predicate ReceivedIn(e: Event, flow: Flow) {
    && e.op.Receive? && e.about.endpoint == Some(Flow(flow.receiver, flow.sender))
    && e.result.Some? && e.result.value >= 0
  }

  lemma KeysJoin(f: Flow, key: Key)
    requires key.lo <= key.hi
    ensures KeyOf(f) == key <==> Joins(f.sender, f.receiver, key)
  {
  }

  lemma {:induction false} SendsMean(events: seq<Event>, flow: Flow)
    ensures forall e :: e in Sends(events, KeyOf(flow), flow) <==> e in events && SentIn(e, flow)
    ensures forall e :: e in Receives(events, KeyOf(flow), flow) <==> e in events && ReceivedIn(e, flow)
  {
    if events != [] {
      var n := |events| - 1;
      SendsMean(events[..n], flow);
      assert events == events[..n] + [events[n]];
    }
  }

  lemma SortedMean(events: seq<Event>, flow: Flow)
    ensures var s := ByStart(Sends(events, KeyOf(flow), flow));
            InOrder(s) && |s| == |Sends(events, KeyOf(flow), flow)|
              && forall e :: e in s <==> e in events && SentIn(e, flow)
    ensures var r := ByStart(Receives(events, KeyOf(flow), flow));
            InOrder(r) && |r| == |Receives(events, KeyOf(flow), flow)|
            && forall e :: e in r <==> e in events && ReceivedIn(e, flow)
  {
    SendsMean(events, flow);
    SortedSame(Sends(events, KeyOf(flow), flow));
    SortedSame(Receives(events, KeyOf(flow), flow));
  }

  lemma SortedSame(s: seq<Event>)
    ensures InOrder(ByStart(s)) && |ByStart(s)| == |s| && multiset(ByStart(s)) == multiset(s)
    ensures forall e :: e in ByStart(s) <==> e in s
  {
    ByStartSorts(s);
    assert |multiset(ByStart(s))| == |multiset(s)|;
    forall e ensures e in ByStart(s) <==> e in s { assert e in multiset(ByStart(s)) <==> e in multiset(s); }
  }

  lemma {:induction false} CreationsMean(events: seq<Event>, key: Key)
    requires key.lo <= key.hi
    ensures forall e :: e in Creations(events, key) <==> e in events && Makes(e, key)
  {
    if events != [] {
      var n := |events| - 1;
      CreationsMean(events[..n], key);
      assert events == events[..n] + [events[n]];
    }
  }

  ghost predicate FirstMaker(events: seq<Event>, key: Key, i: nat) {
    i < |events| && Makes(events[i], key) && forall j :: 0 <= j < i ==> !Makes(events[j], key)
  }

  /** The channel's creation is the first call that made it. */
  lemma {:induction false} FirstCreation(events: seq<Event>, key: Key)
    requires key.lo <= key.hi && Creations(events, key) != []
    ensures exists i: nat :: FirstMaker(events, key, i) && events[i] == Creations(events, key)[0]
  {
    var n := |events| - 1;
    var front := events[..n];
    hide Makes, Creates;
    if Creations(front, key) != [] {
      FirstCreation(front, key);
      var i: nat :| FirstMaker(front, key, i) && front[i] == Creations(front, key)[0];
      assert FirstMaker(events, key, i);
    } else {
      CreationsMean(front, key);
      CreationsMean(events, key);
      forall j | 0 <= j < n ensures !Makes(events[j], key) { assert front[j] in front; }
      assert FirstMaker(events, key, n);
    }
  }

  ghost predicate MadeTwice(events: seq<Event>, key: Key) {
    exists i, j :: 0 <= i < j < |events| && Makes(events[i], key) && Makes(events[j], key)
  }

  lemma {:induction false} ReusedMeans(events: seq<Event>, key: Key)
    requires key.lo <= key.hi
    ensures |Creations(events, key)| > 1 <==> MadeTwice(events, key)
  {
    if events != [] {
      var n := |events| - 1;
      var front := events[..n];
      ReusedMeans(front, key);
      CreationsMean(front, key);
      MadeMore(events, key);
      assert Creations(front, key) != [] ==> Creations(front, key)[0] in Creations(front, key);
      hide Makes, MadeTwice, Creates;
    }
  }

  lemma MadeMore(events: seq<Event>, key: Key)
    requires events != [] && key.lo <= key.hi
    ensures var n := |events| - 1;
            && (MadeTwice(events, key) <==>
                MadeTwice(events[..n], key) || (Makes(events[n], key) && exists e :: e in events[..n] && Makes(e, key)))
            && (Creates(events[n], key) <==> Makes(events[n], key))
  {
    var n := |events| - 1;
    var front := events[..n];
    if MadeTwice(events, key) {
      var i, j :| 0 <= i < j < |events| && Makes(events[i], key) && Makes(events[j], key);
      assert front[i] in front;
      if j < n { assert Makes(front[i], key) && Makes(front[j], key); }
    }
    if MadeTwice(front, key) {
      var i, j :| 0 <= i < j < |front| && Makes(front[i], key) && Makes(front[j], key);
      assert Makes(events[i], key) && Makes(events[j], key);
    }
  }

  // ----- every descriptor once -----------------------------------------------------------------------

  /** Every observation has its own place in the trace. */
  predicate Placed(events: seq<Event>) { forall i, j :: 0 <= i < j < |events| ==> events[i].source != events[j].source }

  /** The pairs whose descriptor was sent by this message. */
  function SentBy(pairs: seq<Pair>, message: nat): seq<Pair> {
    if pairs == [] then []
    else
      var last := pairs[|pairs| - 1];
      SentBy(pairs[..|pairs| - 1], message) + if last.send.message == message then [last] else []
  }

  lemma {:induction false} SentByJoins(p: seq<Pair>, q: seq<Pair>, message: nat)
    ensures SentBy(p + q, message) == SentBy(p, message) + SentBy(q, message)
  {
    if q == [] {
      assert p + q == p;
    } else {
      var n := |q| - 1;
      assert (p + q)[..|p + q| - 1] == p + q[..n];
      SentByJoins(p, q[..n], message);
    }
  }

  lemma {:induction false} SentByAll(pairs: seq<Pair>, message: nat)
    ensures (forall p :: p in pairs ==> p.send.message == message) ==> SentBy(pairs, message) == pairs
    ensures (forall p :: p in pairs ==> p.send.message != message) ==> SentBy(pairs, message) == []
  {
    if pairs != [] {
      assert pairs == pairs[..|pairs| - 1] + [pairs[|pairs| - 1]];
      SentByAll(pairs[..|pairs| - 1], message);
    }
  }

  /** The descriptors carried by a matched message, in order, each with its number at both ends. */
  function Carried(sent: Event, received: Event, creation: nat, flow: Flow): seq<Pair> {
    if sent.about.rights.None? || received.about.rights.None?
       || |received.about.rights.value.fds| != |sent.about.rights.value.fds| then []
    else seq(|sent.about.rights.value.fds|, n requires 0 <= n < |sent.about.rights.value.fds| =>
           Pair(End(sent.source, sent.pid, sent.about.rights.value.fds[n]),
                End(received.source, received.pid, received.about.rights.value.fds[n]), creation, flow))
  }

  lemma CarriedIs(sent: Event, received: Event, creation: nat, flow: Flow)
    requires RightsReasons(sent.about.rights, received.about.rights) == {}
    ensures PairsAt(sent, received, creation, flow) == Carried(sent, received, creation, flow)
  {
  }

  lemma PairsFromSend(sent: Event, received: Event, creation: nat, flow: Flow)
    ensures forall p :: p in PairsAt(sent, received, creation, flow) ==> p.send.message == sent.source
  {
  }

  lemma {:induction false} FlowSentBy(s: seq<Event>, r: seq<Event>, n: nat, creation: nat, flow: Flow, message: nat)
    requires n <= |s| && n <= |r| && forall i, j :: 0 <= i < j < |s| ==> s[i].source != s[j].source
    ensures forall k :: 0 <= k < n && s[k].source == message ==>
              SentBy(FlowPairs(s, r, n, creation, flow), message) == PairsAt(s[k], r[k], creation, flow)
    ensures (forall k :: 0 <= k < n ==> s[k].source != message) ==>
            SentBy(FlowPairs(s, r, n, creation, flow), message) == []
  {
    hide PairsAt;
    if n > 0 {
      FlowSentBy(s, r, n - 1, creation, flow, message);
      SentByJoins(FlowPairs(s, r, n - 1, creation, flow), PairsAt(s[n - 1], r[n - 1], creation, flow), message);
      PairsFromSend(s[n - 1], r[n - 1], creation, flow);
      SentByAll(PairsAt(s[n - 1], r[n - 1], creation, flow), message);
    }
  }

  lemma {:induction false} SendsDistinct(events: seq<Event>, flow: Flow)
    requires Placed(events)
    ensures forall i, j :: 0 <= i < j < |Sends(events, KeyOf(flow), flow)| ==>
              Sends(events, KeyOf(flow), flow)[i].source != Sends(events, KeyOf(flow), flow)[j].source
  {
    if events != [] {
      var n := |events| - 1;
      SendsDistinct(events[..n], flow);
      SendsMean(events[..n], flow);
      forall e | e in events[..n] ensures e.source != events[n].source {}
    }
  }

  lemma SortedDistinct(s: seq<Event>)
    requires forall i, j :: 0 <= i < j < |s| ==> s[i].source != s[j].source
    ensures forall i, j :: 0 <= i < j < |ByStart(s)| ==> ByStart(s)[i].source != ByStart(s)[j].source
  {
    SortedSame(s);
    var t := ByStart(s);
    forall i, j | 0 <= i < j < |t| ensures t[i].source != t[j].source {
      if t[i].source == t[j].source {
        assert t[i] in t && t[j] in t;
        var a :| 0 <= a < |s| && s[a] == t[i];
        var b :| 0 <= b < |s| && s[b] == t[j];
        assert a == b;
        Twice(t, i, j);
        Once(s, t[i]);
        assert false;
      }
    }
  }

  lemma Twice(t: seq<Event>, i: nat, j: nat)
    requires i < j < |t| && t[i] == t[j]
    ensures multiset(t)[t[i]] >= 2
  {
    assert t == t[..i] + [t[i]] + t[i + 1..j] + [t[j]] + t[j + 1..];
  }

  lemma {:induction false} Once(s: seq<Event>, e: Event)
    requires forall i, j :: 0 <= i < j < |s| ==> s[i].source != s[j].source
    ensures multiset(s)[e] <= 1
  {
    if s != [] {
      var n := |s| - 1;
      assert s == s[..n] + [s[n]];
      Once(s[..n], e);
      assert s[n] !in s[..n];
    }
  }

  lemma {:induction false} ChannelSentBy(events: seq<Event>, key: Key, flows: seq<Flow>, creation: nat,
                                         flow: Flow, k: nat)
    requires Placed(events) && flow in flows && forall f :: f in flows ==> KeyOf(f) == key
    requires forall i, j :: 0 <= i < j < |flows| ==> flows[i] != flows[j]
    requires var s := ByStart(Sends(events, key, flow)); k < |s| && k < |ByStart(Receives(events, key, flow))|
    ensures var s, r := ByStart(Sends(events, key, flow)), ByStart(Receives(events, key, flow));
            SentBy(ChannelPairs(events, key, flows, creation), s[k].source) == PairsAt(s[k], r[k], creation, flow)
  {
    hide PairsAt, ByStart, Sends, Receives, FlowPairs, SentBy;
    var n := |flows| - 1;
    var s, r := ByStart(Sends(events, key, flow)), ByStart(Receives(events, key, flow));
    var f := flows[n];
    assert f in flows;
    SortedMean(events, flow);
    assert s[k] in s;
    var t, u := ByStart(Sends(events, key, f)), ByStart(Receives(events, key, f));
    var block := FlowPairs(t, u, Min(|t|, |u|), creation, f);
    SendsDistinct(events, f);
    SortedDistinct(Sends(events, key, f));
    FlowSentBy(t, u, Min(|t|, |u|), creation, f, s[k].source);
    SentByJoins(ChannelPairs(events, key, flows[..n], creation), block, s[k].source);
    if f == flow {
      OtherFlows(events, key, flows[..n], creation, flow, s[k]);
    } else {
      assert flow in flows[..n];
      ChannelSentBy(events, key, flows[..n], creation, flow, k);
      SortedMean(events, f);
      SameEvent(events, s[k], t);
    }
  }

  /** A message in one list only: nothing in another list of messages has its place. */
  lemma SameEvent(events: seq<Event>, e: Event, others: seq<Event>)
    requires Placed(events) && e in events && e !in others && forall x :: x in others ==> x in events
    ensures forall i :: 0 <= i < |others| ==> others[i].source != e.source
  {
    forall i | 0 <= i < |others| ensures others[i].source != e.source {
      assert others[i] in others;
      var a :| 0 <= a < |events| && events[a] == others[i];
      var b :| 0 <= b < |events| && events[b] == e;
    }
  }

  lemma {:induction false} OtherFlows(events: seq<Event>, key: Key, flows: seq<Flow>, creation: nat, flow: Flow,
                                      sent: Event)
    requires Placed(events) && flow !in flows && sent in events && SentIn(sent, flow)
             && forall f :: f in flows ==> KeyOf(f) == key
    ensures SentBy(ChannelPairs(events, key, flows, creation), sent.source) == []
  {
    hide PairsAt, ByStart, Sends, Receives, FlowPairs;
    if flows != [] {
      var n := |flows| - 1;
      var f := flows[n];
      assert f in flows;
      var t, u := ByStart(Sends(events, key, f)), ByStart(Receives(events, key, f));
      SendsDistinct(events, f);
      SortedDistinct(Sends(events, key, f));
      SortedMean(events, f);
      SameEvent(events, sent, t);
      FlowSentBy(t, u, Min(|t|, |u|), creation, f, sent.source);
      SentByJoins(ChannelPairs(events, key, flows[..n], creation), FlowPairs(t, u, Min(|t|, |u|), creation, f),
                  sent.source);
      OtherFlows(events, key, flows[..n], creation, flow, sent);
    }
  }

  lemma {:induction false} OtherKeys(events: seq<Event>, keys: seq<Key>, flow: Flow, sent: Event)
    requires Placed(events) && KeyOf(flow) !in keys && sent in events && SentIn(sent, flow)
    ensures SentBy(PairsOf(events, keys), sent.source) == []
  {
    hide ChannelPairs, Reasons, Flows, Creations;
    if keys != [] {
      var n := |keys| - 1;
      OtherKeys(events, keys[..n], flow, sent);
      var key := keys[n];
      FlowsBelong(events, key, flow);
      if Accepted(events, key) {
        OtherFlows(events, key, Flows(events, key), Creations(events, key)[0].source, flow, sent);
        SentByJoins(PairsOf(events, keys[..n]),
                    ChannelPairs(events, key, Flows(events, key), Creations(events, key)[0].source), sent.source);
      } else {
        assert PairsOf(events, keys) == PairsOf(events, keys[..n]);
      }
    }
  }

  lemma FlowsBelong(events: seq<Event>, key: Key, flow: Flow)
    ensures forall f :: f in Flows(events, key) ==> KeyOf(f) == key
    ensures forall i, j :: 0 <= i < j < |Flows(events, key)| ==> Flows(events, key)[i] != Flows(events, key)[j]
    ensures flow in Flows(events, key) <==> Sends(events, key, flow) != [] || Receives(events, key, flow) != []
  {
    forall f | f in Flows(events, key) ensures KeyOf(f) == key { FlowsCover(events, key, f); }
    FlowsCover(events, key, flow);
  }

  /** Of an accepted channel, the descriptors sent by the k-th message of a direction are named by exactly
      these pairs, each once and in order: the numbers in the k-th send and in the k-th receive. */
  lemma {:induction false} DescriptorsOnce(events: seq<Event>, keys: seq<Key>, flow: Flow, k: nat)
    requires Placed(events) && KeyOf(flow) in keys && Accepted(events, KeyOf(flow))
    requires forall i, j :: 0 <= i < j < |keys| ==> keys[i] != keys[j]
    requires k < |ByStart(Sends(events, KeyOf(flow), flow))| && k < |ByStart(Receives(events, KeyOf(flow), flow))|
    ensures var s, r := ByStart(Sends(events, KeyOf(flow), flow)), ByStart(Receives(events, KeyOf(flow), flow));
            SentBy(PairsOf(events, keys), s[k].source) ==
            PairsAt(s[k], r[k], Creations(events, KeyOf(flow))[0].source, flow)
  {
    hide ChannelPairs, Reasons, Flows, Creations, PairsAt, ByStart, Sends, Receives;
    var key := KeyOf(flow);
    var s := ByStart(Sends(events, key, flow));
    SortedMean(events, flow);
    var n := |keys| - 1;
    assert s[k] in s;
    FlowsBelong(events, keys[n], flow);
    if Accepted(events, keys[n]) {
      var creation := Creations(events, keys[n])[0].source;
      SentByJoins(PairsOf(events, keys[..n]), ChannelPairs(events, keys[n], Flows(events, keys[n]), creation),
                  s[k].source);
      if keys[n] == key {
        ChannelSentBy(events, key, Flows(events, key), creation, flow, k);
      } else {
        OtherFlows(events, keys[n], Flows(events, keys[n]), creation, flow, s[k]);
      }
    } else {
      assert PairsOf(events, keys) == PairsOf(events, keys[..n]);
    }
    if keys[n] == key {
      OtherKeys(events, keys[..n], flow, s[k]);
    } else {
      assert key in keys[..n];
      DescriptorsOnce(events, keys[..n], flow, k);
    }
  }

  // ----- when a channel is accepted ----------------------------------------------------------------------

  /** A call mentions one of the channel's endpoints, as the descriptor itself or as its peer. */
  predicate Shows(ref: Ref, key: Key) {
    || ref.inode == key.lo || ref.inode == key.hi
    || ref.peer == Some(key.lo) || ref.peer == Some(key.hi)
  }

  /** A socketpair call made another channel with one of these endpoints. */
  predicate Intrudes(e: Event, key: Key) {
    && e.op.SocketPair? && e.result == Some(0) && e.about.created.Some?
    && var f := e.about.created.value;
       !Joins(f.sender, f.receiver, key)
       && (f.sender == key.lo || f.sender == key.hi || f.receiver == key.lo || f.receiver == key.hi)
  }

  /** Ring calls may carry traffic unseen, unless the ring was refused. */
  predicate RunsRings(e: Event) { e.op.RingOther? || (e.op.RingSetup? && (e.result.None? || e.result.value >= 0)) }

  /** The descriptors of a message were not observed completely at one of its ends. */
  predicate Blurred(left: Option<Rights>, right: Option<Rights>) {
    && (left.Some? || right.Some?)
    && (|| left.None? || !left.value.decoded || !left.value.succeeded || left.value.truncated
        || right.None? || !right.value.decoded || !right.value.succeeded || right.value.truncated)
  }

  /** What one call says against the channel. */
  predicate CallObjects(e: Event, key: Key, born: int, reason: Reason) {
    match reason
    case UnsupportedOperation => e.op.Unsupported? && exists ref :: ref in e.about.refs && Shows(ref, key)
    case SecondaryDescriptor =>
      (e.op.Send? || e.op.Receive?) && exists ref :: ref in e.about.refs && Shows(ref, key) && !ref.leading
    case PeerUnresolved =>
      && (e.op.Send? || e.op.Receive?)
      && exists ref :: ref in e.about.refs && Shows(ref, key) && ref.leading
           && (ref.peer.None? || !Joins(ref.inode, ref.peer.value, key))
    case RingActivity => RunsRings(e)
    case UnknownOutcome => Messages(e, key) && e.result.None?
    case UnsupportedFlags => Messages(e, key) && e.result.Some? && e.result.value >= 0 && !e.about.plainFlags
    case NoCompletion => Messages(e, key) && e.result.Some? && e.result.value >= 0 && e.completion.None?
    case PartialMessage => Messages(e, key) && e.result.Some? && e.result.value >= 0 && e.about.partialRead
    case PredatesChannel => Messages(e, key) && e.result.Some? && e.result.value >= 0 && e.start < born
    case _ => false
  }

  /** What the k-th messages of a direction, or the k-th and the next, say against the channel. */
  predicate MatchObjects(s: seq<Event>, r: seq<Event>, k: nat, reason: Reason) {
    match reason
    case Overlapping =>
      || (k + 1 < |s| && (s[k].completion.None? || s[k].completion.value >= s[k + 1].start))
      || (k + 1 < |r| && (r[k].completion.None? || r[k].completion.value >= r[k + 1].start))
    case ReceiveBeforeSend =>
      k < |s| && k < |r| && (r[k].completion.None? || s[k].start > r[k].completion.value)
    case LengthMismatch => k < |s| && k < |r| && s[k].result != r[k].result
    case IncompleteRights => k < |s| && k < |r| && Blurred(s[k].about.rights, r[k].about.rights)
    case RightsCount =>
      && k < |s| && k < |r| && s[k].about.rights.Some? && r[k].about.rights.Some?
      && !Blurred(s[k].about.rights, r[k].about.rights)
      && |s[k].about.rights.value.fds| != |r[k].about.rights.value.fds|
    case _ => false
  }

  ghost predicate FlowObjects(s: seq<Event>, r: seq<Event>, reason: Reason) {
    || (reason.Unbalanced? && |s| != |r|)
    || exists k: nat :: MatchObjects(s, r, k, reason)
  }

  ghost predicate SomeCallObjects(events: seq<Event>, key: Key, born: int, reason: Reason) {
    exists e :: e in events && CallObjects(e, key, born, reason)
  }

  /** Everything that can speak against a channel, by reason. */
  ghost predicate Objects(events: seq<Event>, key: Key, born: int, reason: Reason) {
    || (reason.EndpointReused? && MadeTwice(events, key))
    || (reason.InodeShared? && exists e :: e in events && Intrudes(e, key))
    || SomeCallObjects(events, key, born, reason)
    || exists flow: Flow :: Joins(flow.sender, flow.receiver, key) && DirectionObjects(events, key, flow, reason)
  }

  ghost predicate DirectionObjects(events: seq<Event>, key: Key, flow: Flow, reason: Reason) {
    FlowObjects(ByStart(Sends(events, key, flow)), ByStart(Receives(events, key, flow)), reason)
  }

  lemma {:induction false} RefsMean(op: Op, refs: seq<Ref>, key: Key, reason: Reason)
    ensures reason in RefsReasons(op, refs, key) <==> exists ref :: ref in refs && reason in RefReasons(op, ref, key)
  {
    if refs != [] {
      var n := |refs| - 1;
      RefsMean(op, refs[..n], key, reason);
      assert refs == refs[..n] + [refs[n]];
    }
  }

  lemma CallMeans(e: Event, key: Key, born: int, reason: Reason)
    requires key.lo <= key.hi
    ensures reason in ActivityReasons(e, key) || reason in MessageReasons(e, key, born) <==>
            CallObjects(e, key, born, reason)
  {
    RefsMean(e.op, e.about.refs, key, reason);
    if e.about.endpoint.Some? { KeysJoin(e.about.endpoint.value, key); }
    forall ref: Ref
      ensures Touches(key, ref) <==> Shows(ref, key)
      ensures ref.peer.Some? ==>
              (KeyOf(Flow(ref.inode, ref.peer.value)) == key <==> Joins(ref.inode, ref.peer.value, key))
    {
      if ref.peer.Some? { KeysJoin(Flow(ref.inode, ref.peer.value), key); }
    }
    hide RefsReasons, KeyOf, Touches, Joins, Shows;
  }

  lemma {:induction false} CallsMean(events: seq<Event>, key: Key, born: int, reason: Reason)
    requires key.lo <= key.hi
    ensures reason in ActivitySum(events, key) || reason in MessageSum(events, key, born) <==>
            SomeCallObjects(events, key, born, reason)
  {
    hide ActivityReasons, MessageReasons, CallObjects;
    if events != [] {
      var n := |events| - 1;
      CallsMean(events[..n], key, born, reason);
      CallMeans(events[n], key, born, reason);
      assert events == events[..n] + [events[n]];
    }
  }

  lemma {:induction false} MatchesMean(s: seq<Event>, r: seq<Event>, n: nat, reason: Reason)
    requires n <= |s| && n <= |r|
    ensures reason in MatchesReasons(s, r, n) <==> exists k: nat :: k < n && reason in MatchReasons(s[k], r[k])
  {
    hide MatchReasons;
    if n > 0 { MatchesMean(s, r, n - 1, reason); }
  }

  lemma SerialMeans(s: seq<Event>, r: seq<Event>)
    ensures !(Serial(s) && Serial(r)) <==> exists k: nat :: MatchObjects(s, r, k, Overlapping)
  {
    if !Serial(s) {
      var i :| 0 <= i < |s| - 1 && Overlaps(s[i], s[i + 1]);
      assert MatchObjects(s, r, i, Overlapping);
    } else if !Serial(r) {
      var i :| 0 <= i < |r| - 1 && Overlaps(r[i], r[i + 1]);
      assert MatchObjects(s, r, i, Overlapping);
    } else {
      forall k: nat ensures !MatchObjects(s, r, k, Overlapping) {
        assert k + 1 < |s| ==> !Overlaps(s[k], s[k + 1]);
        assert k + 1 < |r| ==> !Overlaps(r[k], r[k + 1]);
      }
    }
  }

  lemma MatchMeans(s: seq<Event>, r: seq<Event>, k: nat, reason: Reason)
    requires !reason.Overlapping?
    ensures MatchObjects(s, r, k, reason) <==> k < |s| && k < |r| && reason in MatchReasons(s[k], r[k])
  {
  }

  lemma FlowMeans(s: seq<Event>, r: seq<Event>, reason: Reason)
    ensures reason in FlowReasons(s, r) <==> FlowObjects(s, r, reason)
  {
    hide MatchesReasons, MatchReasons, MatchObjects, Serial;
    MatchesMean(s, r, Min(|s|, |r|), reason);
    SerialMeans(s, r);
    forall k: nat ensures !reason.Overlapping? ==>
      (MatchObjects(s, r, k, reason) <==> k < |s| && k < |r| && reason in MatchReasons(s[k], r[k]))
    {
      if !reason.Overlapping? { MatchMeans(s, r, k, reason); }
    }
    forall a: Event, b: Event ensures Overlapping !in MatchReasons(a, b) && Unbalanced !in MatchReasons(a, b) {
      NotMatched(a, b);
    }
  }

  lemma NotMatched(a: Event, b: Event)
    ensures Overlapping !in MatchReasons(a, b) && Unbalanced !in MatchReasons(a, b)
  {
  }

  lemma {:induction false} ChannelFlowsMean(events: seq<Event>, key: Key, flows: seq<Flow>, reason: Reason)
    ensures reason in ChannelFlowReasons(events, key, flows) <==>
            exists f :: f in flows && DirectionObjects(events, key, f, reason)
  {
    hide FlowObjects, FlowReasons, ByStart, Sends, Receives;
    if flows != [] {
      var n := |flows| - 1;
      ChannelFlowsMean(events, key, flows[..n], reason);
      FlowMeans(ByStart(Sends(events, key, flows[n])), ByStart(Receives(events, key, flows[n])), reason);
      assert flows == flows[..n] + [flows[n]];
      assert DirectionObjects(events, key, flows[n], reason) <==>
             reason in FlowReasons(ByStart(Sends(events, key, flows[n])), ByStart(Receives(events, key, flows[n])));
    }
  }

  lemma UsedFlows(events: seq<Event>, key: Key, flow: Flow, reason: Reason)
    requires key.lo <= key.hi
    ensures flow in Flows(events, key) ==> Joins(flow.sender, flow.receiver, key)
    ensures Joins(flow.sender, flow.receiver, key) && DirectionObjects(events, key, flow, reason) ==>
            flow in Flows(events, key)
  {
    FlowsBelong(events, key, flow);
    KeysJoin(flow, key);
  }

  lemma DirectionsMean(events: seq<Event>, key: Key, reason: Reason)
    requires key.lo <= key.hi
    ensures reason in ChannelFlowReasons(events, key, Flows(events, key)) <==>
            exists flow: Flow :: Joins(flow.sender, flow.receiver, key) && DirectionObjects(events, key, flow, reason)
  {
    hide DirectionObjects, ChannelFlowReasons, Flows, Joins;
    ChannelFlowsMean(events, key, Flows(events, key), reason);
    forall flow: Flow
      ensures flow in Flows(events, key) ==> Joins(flow.sender, flow.receiver, key)
      ensures Joins(flow.sender, flow.receiver, key) && DirectionObjects(events, key, flow, reason) ==>
              flow in Flows(events, key)
    {
      UsedFlows(events, key, flow, reason);
    }
  }

  lemma IntrudersMean(events: seq<Event>, key: Key)
    requires key.lo <= key.hi
    ensures (exists other :: other in Created(events) && SharesInode(key, other)) <==>
            exists e :: e in events && Intrudes(e, key)
  {
    forall e | e in events && e.op.SocketPair? && e.result == Some(0) && e.about.created.Some?
      ensures KeyOf(e.about.created.value) in Created(events)
      ensures Intrudes(e, key) <==> SharesInode(key, KeyOf(e.about.created.value))
    {
      KeysJoin(e.about.created.value, key);
    }
    if e :| e in events && Intrudes(e, key) { assert SharesInode(key, KeyOf(e.about.created.value)); }
  }

  /** The reasons a channel is rejected for are exactly those the calls give. */
  lemma ReasonsMean(events: seq<Event>, key: Key, reason: Reason)
    requires key.lo <= key.hi && Creations(events, key) != []
    ensures reason in Reasons(events, key) <==> Objects(events, key, Creations(events, key)[0].start, reason)
  {
    hide Reasons, BaseReasons, ActivitySum, MessageSum, ChannelFlowReasons, Creations, Created, SharesInode, MadeTwice,
      SomeCallObjects, DirectionObjects, Flows, Joins, Intrudes;
    ReasonsSplit(events, key, reason);
    ReusedMeans(events, key);
    IntrudersMean(events, key);
    CallsMean(events, key, Creations(events, key)[0].start, reason);
    DirectionsMean(events, key, reason);
  }

  lemma ReasonsSplit(events: seq<Event>, key: Key, reason: Reason)
    requires Creations(events, key) != []
    ensures reason in Reasons(events, key) <==>
            || (reason.EndpointReused? && |Creations(events, key)| > 1)
            || (reason.InodeShared? && exists other :: other in Created(events) && SharesInode(key, other))
            || reason in ActivitySum(events, key) || reason in MessageSum(events, key, Creations(events, key)[0].start)
            || reason in ChannelFlowReasons(events, key, Flows(events, key))
  {
    hide ActivitySum, MessageSum, ChannelFlowReasons, Creations, Created, SharesInode, Flows;
  }

  /** A channel is accepted exactly if some call made it and nothing speaks against it. */
  lemma AcceptedMeans(events: seq<Event>, key: Key)
    requires key.lo <= key.hi
    ensures Accepted(events, key) <==>
            && (exists e :: e in events && Makes(e, key))
            && forall i: nat ::
                 FirstMaker(events, key, i) ==> forall reason :: !Objects(events, key, events[i].start, reason)
  {
    hide Objects, Reasons, Creations, Makes;
    CreationsMean(events, key);
    if Creations(events, key) != [] {
      assert Creations(events, key)[0] in Creations(events, key);
      FirstCreation(events, key);
      var first: nat :| FirstMaker(events, key, first) && events[first] == Creations(events, key)[0];
      forall reason ensures reason in Reasons(events, key) <==> Objects(events, key, events[first].start, reason) {
        ReasonsMean(events, key, reason);
      }
      assert Reasons(events, key) == {} <==> forall reason :: reason !in Reasons(events, key);
    }
  }

  lemma AcceptedBalances(events: seq<Event>, flow: Flow, k: nat)
    requires Accepted(events, KeyOf(flow)) && k < |ByStart(Sends(events, KeyOf(flow), flow))|
    ensures var s, r := ByStart(Sends(events, KeyOf(flow), flow)), ByStart(Receives(events, KeyOf(flow), flow));
            |s| == |r| && RightsReasons(s[k].about.rights, r[k].about.rights) == {}
  {
    var key := KeyOf(flow);
    var s, r := ByStart(Sends(events, key, flow)), ByStart(Receives(events, key, flow));
    forall reason ensures reason !in ChannelFlowReasons(events, key, Flows(events, key)) {
      ReasonsSplit(events, key, reason);
    }
    FlowsBelong(events, key, flow);
    SortedSame(Sends(events, key, flow));
    assert flow in Flows(events, key);
    hide Accepted, ByStart, Sends, Receives, RightsReasons;
    forall reason ensures reason !in FlowReasons(s, r) {
      ChannelFlowsMean(events, key, Flows(events, key), reason);
      FlowMeans(s, r, reason);
      assert DirectionObjects(events, key, flow, reason) <==> reason in FlowReasons(s, r);
    }
    NoReasons(s, r, k);
  }

  lemma NoReasons(s: seq<Event>, r: seq<Event>, k: nat)
    requires (forall reason :: reason !in FlowReasons(s, r)) && k < |s|
    ensures |s| == |r| && RightsReasons(s[k].about.rights, r[k].about.rights) == {}
  {
    assert Unbalanced !in FlowReasons(s, r);
    forall reason ensures reason !in MatchReasons(s[k], r[k]) {
      MatchesMean(s, r, |s|, reason);
      assert reason in MatchesReasons(s, r, |s|) ==> reason in FlowReasons(s, r);
    }
    assert MatchReasons(s[k], r[k]) == {};
  }

  /** In the answer, the descriptors sent by the k-th message of a direction of an accepted channel are named by
      exactly these pairs, each once and in order: the numbers shown in the k-th send and in the k-th receive,
      with the processes that made them. */
  lemma EveryDescriptorOnce(events: seq<Event>, flow: Flow, k: nat)
    requires Placed(events) && Accepted(events, KeyOf(flow)) && k < |ByStart(Sends(events, KeyOf(flow), flow))|
    ensures var s, r := ByStart(Sends(events, KeyOf(flow), flow)), ByStart(Receives(events, KeyOf(flow), flow));
            && |s| == |r|
            && SentBy(PairsOf(events, Keys(events)), s[k].source) ==
               Carried(s[k], r[k], Creations(events, KeyOf(flow))[0].source, flow)
  {
    hide ByStart, Sends, Receives, Creations, PairsOf, Keys, Carried, SentBy, Reasons;
    AcceptedBalances(events, flow, k);
    KeysAreCreated(events);
    DescriptorsOnce(events, Keys(events), flow, k);
    var s, r := ByStart(Sends(events, KeyOf(flow), flow)), ByStart(Receives(events, KeyOf(flow), flow));
    CarriedIs(s[k], r[k], Creations(events, KeyOf(flow))[0].source, flow);
  }

  /** What is listed as unpaired: the messages that carried descriptors and are at neither end of a pair. */
  lemma {:induction false} UnpairedMeans(events: seq<Event>, pairs: seq<Pair>)
    ensures forall message :: message in Unpaired(events, pairs) <==>
              exists e :: e in events && e.source == message && e.about.rights.Some? && e.about.rights.value.succeeded
                && forall p :: p in pairs ==> p.send.message != message && p.receive.message != message
  {
    if events != [] {
      UnpairedMeans(events[..|events| - 1], pairs);
      assert events == events[..|events| - 1] + [events[|events| - 1]];
    }
  }
}
