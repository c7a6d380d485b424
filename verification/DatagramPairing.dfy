/** The pairing pass over all channels, and what its answer means. */
module DatagramPairing {
  import opened Trace
  import opened Datagrams

  type Errors = map<Key, set<Reason>>

  /** The channels, their creation events, and those whose identity was reused. */
  method Discover(events: seq<Event>) returns (keys: seq<Key>, creations: map<Key, Event>, reused: set<Key>)
    ensures keys == Keys(events)
    ensures creations.Keys == Created(events)
    ensures forall key ::
            key in creations ==> Creations(events, key) != [] && creations[key] == Creations(events, key)[0]
    ensures forall key :: key in reused <==> |Creations(events, key)| > 1
  {
    keys, creations, reused := [], map[], {};
    var i := 0;
    while i < |events|
      invariant 0 <= i <= |events| && keys == Keys(events[..i])
      invariant forall key :: key in keys <==> key in creations
      invariant forall key :: key in creations <==> Creations(events[..i], key) != []
      invariant forall key :: key in creations ==> creations[key] == Creations(events[..i], key)[0]
      invariant forall key :: key in reused <==> |Creations(events[..i], key)| > 1
    {
      var e := events[i];
      assert events[..i + 1][..i] == events[..i];
      if e.op.SocketPair? && e.result == Some(0) && e.about.created.Some? {
        var key := KeyOf(e.about.created.value);
        if key in creations {
          reused := reused + {key};
        } else {
          creations := creations[key := e];
          keys := keys + [key];
        }
      }
      i := i + 1;
    }
    assert events[..i] == events;
    forall key ensures key in creations.Keys <==> key in Created(events) { CreatedOnce(events, key); }
  }

  /** Add what one event says against every channel. */
  method AddActivity(errors: Errors, e: Event) returns (r: Errors)
    ensures r.Keys == errors.Keys && forall key :: key in errors ==> r[key] == errors[key] + ActivityReasons(e, key)
  {
    r := errors;
    var todo := errors.Keys;
    while todo != {}
      invariant todo <= errors.Keys == r.Keys
      invariant forall key ::
                key in errors ==> r[key] == if key in todo then errors[key] else errors[key] + ActivityReasons(e, key)
      decreases |todo|
    {
      var key: Key :| key in todo;
      r := r[key := errors[key] + ActivityReasons(e, key)];
      todo := todo - {key};
    }
  }

  method CheckActivity(events: seq<Event>, errors: Errors) returns (r: Errors)
    ensures r.Keys == errors.Keys && forall key :: key in errors ==> r[key] == errors[key] + ActivitySum(events, key)
  {
    r := errors;
    var i := 0;
    while i < |events|
      invariant 0 <= i <= |events| && r.Keys == errors.Keys
      invariant forall key :: key in errors ==> r[key] == errors[key] + ActivitySum(events[..i], key)
    {
      assert events[..i + 1][..i] == events[..i];
      r := AddActivity(r, events[i]);
      i := i + 1;
    }
    assert events[..i] == events;
  }

  function ListOf(lists: map<Flow, seq<Event>>, flow: Flow): seq<Event> { if flow in lists then lists[flow] else [] }

  function Appended(e: Event, send: bool, flow: Flow): seq<Event> {
    if Delivered(e, KeyOf(flow)) && e.op.Send? == send && FlowOf(e) == flow then [e] else []
  }

  /** The directions of a channel used so far, in order. */
  function FlowsOf(order: map<Key, seq<Flow>>, key: Key): seq<Flow> { if key in order then order[key] else [] }

  /** A direction is listed at its first message. */
  method NoteFlow(e: Event, creations: map<Key, Event>, order: map<Key, seq<Flow>>) returns (o: map<Key, seq<Flow>>)
    ensures forall key :: key in creations ==>
              FlowsOf(o, key) == FlowsOf(order, key)
                + if Delivered(e, key) && FlowOf(e) !in FlowsOf(order, key) then [FlowOf(e)] else []
  {
    o := order;
    if Transfers(e.op) && e.about.endpoint.Some? && e.result.Some? && e.result.value >= 0 {
      var key := KeyOf(e.about.endpoint.value);
      if key in creations && FlowOf(e) !in FlowsOf(order, key) {
        o := o[key := FlowsOf(order, key) + [FlowOf(e)]];
      }
    }
  }

  method CollectMessage(e: Event, creations: map<Key, Event>, errors: Errors, sends: map<Flow, seq<Event>>,
                        receives: map<Flow, seq<Event>>)
    returns (r: Errors, s: map<Flow, seq<Event>>, t: map<Flow, seq<Event>>)
    requires errors.Keys == creations.Keys
    ensures r.Keys == errors.Keys
            && forall key :: key in errors ==> r[key] == errors[key] + MessageReasons(e, key, creations[key].start)
    ensures forall flow :: KeyOf(flow) in creations ==>
              ListOf(s, flow) == ListOf(sends, flow) + Appended(e, true, flow)
              && ListOf(t, flow) == ListOf(receives, flow) + Appended(e, false, flow)
  {
    r, s, t := errors, sends, receives;
    if Transfers(e.op) && e.about.endpoint.Some? {
      var key := KeyOf(e.about.endpoint.value);
      if key in creations {
        r := r[key := r[key] + MessageReasons(e, key, creations[key].start)];
        if e.result.Some? && e.result.value >= 0 {
          var flow := FlowOf(e);
          if e.op.Send? {
            s := s[flow := ListOf(s, flow) + [e]];
          } else {
            t := t[flow := ListOf(t, flow) + [e]];
          }
        }
      }
    }
  }

  /** Everything collected from these events. */
  ghost predicate Collected(events: seq<Event>, creations: map<Key, Event>, errors: Errors, r: Errors,
                            sends: map<Flow, seq<Event>>, receives: map<Flow, seq<Event>>, order: map<Key, seq<Flow>>)
    requires errors.Keys == creations.Keys
  {
    && r.Keys == errors.Keys
    && (forall key :: key in creations ==> FlowsOf(order, key) == Flows(events, key))
    && (forall key :: key in errors ==> r[key] == errors[key] + MessageSum(events, key, creations[key].start))
    && (forall flow :: KeyOf(flow) in creations ==>
          && ListOf(sends, flow) == Sends(events, KeyOf(flow), flow)
          && ListOf(receives, flow) == Receives(events, KeyOf(flow), flow))
  }

  lemma SumsStep(events: seq<Event>, i: nat, key: Key, born: int)
    requires i < |events|
    ensures MessageSum(events[..i + 1], key, born) ==
            MessageSum(events[..i], key, born) + MessageReasons(events[i], key, born)
    ensures Flows(events[..i + 1], key) ==
            Flows(events[..i], key)
            + if Delivered(events[i], key) && FlowOf(events[i]) !in Flows(events[..i], key)
              then [FlowOf(events[i])] else []
  {
    hide MessageReasons;
    assert events[..i + 1][..i] == events[..i];
  }

  lemma ListsStep(events: seq<Event>, i: nat, flow: Flow)
    requires i < |events|
    ensures Sends(events[..i + 1], KeyOf(flow), flow) ==
            Sends(events[..i], KeyOf(flow), flow) + Appended(events[i], true, flow)
    ensures Receives(events[..i + 1], KeyOf(flow), flow) ==
            Receives(events[..i], KeyOf(flow), flow) + Appended(events[i], false, flow)
  {
    assert events[..i + 1][..i] == events[..i];
  }

  /** Messages by direction, in trace order, and what speaks against their channels. */
  method CollectMessages(events: seq<Event>, creations: map<Key, Event>, errors: Errors)
    returns (r: Errors, sends: map<Flow, seq<Event>>, receives: map<Flow, seq<Event>>, order: map<Key, seq<Flow>>)
    requires errors.Keys == creations.Keys
    ensures Collected(events, creations, errors, r, sends, receives, order)
  {
    hide ListOf, MessageReasons, FlowsOf, MessageSum, Sends, Receives, Flows, Appended;
    r := errors;
    sends, receives := NoLists(), NoLists();
    order := NoFlows();
    var i := 0;
    NothingCollected(events, creations, errors, sends, receives, order);
    while i < |events|
      invariant 0 <= i <= |events| && Collected(events[..i], creations, errors, r, sends, receives, order)
    {
      forall key | key in creations
        ensures MessageSum(events[..i + 1], key, creations[key].start) ==
                MessageSum(events[..i], key, creations[key].start)
                  + MessageReasons(events[i], key, creations[key].start)
        ensures Flows(events[..i + 1], key) ==
                Flows(events[..i], key)
                + if Delivered(events[i], key) && FlowOf(events[i]) !in Flows(events[..i], key)
                  then [FlowOf(events[i])] else []
      {
        SumsStep(events, i, key, creations[key].start);
      }
      forall flow | KeyOf(flow) in creations
        ensures Sends(events[..i + 1], KeyOf(flow), flow) ==
                Sends(events[..i], KeyOf(flow), flow) + Appended(events[i], true, flow)
        ensures Receives(events[..i + 1], KeyOf(flow), flow) ==
                Receives(events[..i], KeyOf(flow), flow) + Appended(events[i], false, flow)
      {
        ListsStep(events, i, flow);
      }
      r, sends, receives := CollectMessage(events[i], creations, r, sends, receives);
      order := NoteFlow(events[i], creations, order);
      i := i + 1;
    }
    assert events[..i] == events;
  }

  lemma NothingCollected(events: seq<Event>, creations: map<Key, Event>, errors: Errors,
                         sends: map<Flow, seq<Event>>, receives: map<Flow, seq<Event>>, order: map<Key, seq<Flow>>)
    requires errors.Keys == creations.Keys
    requires (forall flow :: ListOf(sends, flow) == [] && ListOf(receives, flow) == [])
             && forall key :: FlowsOf(order, key) == []
    ensures Collected(events[..0], creations, errors, errors, sends, receives, order)
  {
  }

  function NoFlows(): (m: map<Key, seq<Flow>>)
    ensures forall key :: FlowsOf(m, key) == []
  {
    map[]
  }

  function NoLists(): (m: map<Flow, seq<Event>>)
    ensures forall flow :: ListOf(m, flow) == []
  {
    map[]
  }

  /** One direction: check that it is serialized and balanced, and pair it up. */
  method PairFlow(sends: seq<Event>, receives: seq<Event>, creation: nat, flow: Flow)
    returns (reasons: set<Reason>, pairs: seq<Pair>)
    ensures reasons == FlowReasons(ByStart(sends), ByStart(receives))
    ensures pairs ==
            FlowPairs(ByStart(sends), ByStart(receives), Min(|ByStart(sends)|, |ByStart(receives)|), creation, flow)
  {
    hide ByStart, MatchReasons, PairsAt, Serial;
    var s, r := ByStart(sends), ByStart(receives);
    reasons, pairs := {}, [];
    if |s| != |r| { reasons := reasons + {Unbalanced}; }
    var a := FindOverlap(s);
    var b := FindOverlap(r);
    if a || b { reasons := reasons + {Overlapping}; }
    ghost var before := reasons;
    var k := 0;
    while k < |s| && k < |r|
      invariant 0 <= k <= Min(|s|, |r|)
      invariant reasons == before + MatchesReasons(s, r, k)
      invariant pairs == FlowPairs(s, r, k, creation, flow)
    {
      reasons := reasons + MatchReasons(s[k], r[k]);
      pairs := pairs + PairsAt(s[k], r[k], creation, flow);
      k := k + 1;
    }
  }

  method FindOverlap(s: seq<Event>) returns (found: bool)
    ensures found <==> !Serial(s)
  {
    var i := 0;
    while i + 1 < |s|
      invariant i == 0 || 0 <= i < |s|
      invariant forall j :: 0 <= j < i ==> !Overlaps(s[j], s[j + 1])
    {
      if Overlaps(s[i], s[i + 1]) { return true; }
      i := i + 1;
    }
    return false;
  }

  method PairChannel(events: seq<Event>, key: Key, creation: nat, flows: seq<Flow>, sends: map<Flow, seq<Event>>,
                     receives: map<Flow, seq<Event>>)
    returns (reasons: set<Reason>, pairs: seq<Pair>)
    requires forall flow :: KeyOf(flow) == key ==>
               ListOf(sends, flow) == Sends(events, key, flow) && ListOf(receives, flow) == Receives(events, key, flow)
    requires flows == Flows(events, key)
    ensures reasons == ChannelFlowReasons(events, key, flows) && pairs == ChannelPairs(events, key, flows, creation)
  {
    hide Sends, Receives, Flows, FlowReasons, FlowPairs, ByStart;
    reasons, pairs := {}, [];
    var i := 0;
    while i < |flows|
      invariant 0 <= i <= |flows|
      invariant reasons == ChannelFlowReasons(events, key, flows[..i])
                && pairs == ChannelPairs(events, key, flows[..i], creation)
    {
      var flow := flows[i];
      assert flows[..i + 1][..i] == flows[..i];
      FlowsCover(events, key, flow);
      var more, found := PairFlow(ListOf(sends, flow), ListOf(receives, flow), creation, flow);
      reasons := reasons + more;
      pairs := pairs + found;
      i := i + 1;
    }
    assert flows[..i] == flows;
  }

  method CheckChannels(events: seq<Event>)
    returns (keys: seq<Key>, creations: map<Key, Event>, errors: Errors, sends: map<Flow, seq<Event>>,
             receives: map<Flow, seq<Event>>,
             order: map<Key, seq<Flow>>)
    ensures keys == Keys(events) && creations.Keys == errors.Keys && forall key :: key in keys <==> key in creations
    ensures forall key :: key in creations ==>
              && Creations(events, key) != [] && creations[key] == Creations(events, key)[0]
              && errors[key] == BaseReasons(events, key) && FlowsOf(order, key) == Flows(events, key)
    ensures forall flow :: KeyOf(flow) in creations ==>
              && ListOf(sends, flow) == Sends(events, KeyOf(flow), flow)
              && ListOf(receives, flow) == Receives(events, KeyOf(flow), flow)
  {
    hide ActivitySum, MessageSum, Sends, Receives, Creations, Identity, Created, Flows, FlowsOf, Keys;
    var reused;
    keys, creations, reused := Discover(events);
    errors := CheckIdentities(creations.Keys, reused);
    errors := CheckActivity(events, errors);
    errors, sends, receives, order := CollectMessages(events, creations, errors);
    forall key | key in creations ensures errors[key] == BaseReasons(events, key) { BaseIs(events, key, reused); }
    KeysAreCreated(events);
    forall key ensures key in creations.Keys <==> Creations(events, key) != [] { CreatedOnce(events, key); }
  }

  /** Reused endpoint identities and inodes shared between channels. */
  function Identity(keys: set<Key>, reused: set<Key>, key: Key): set<Reason> {
    (if key in reused then {EndpointReused} else {})
    + if exists other :: other in keys && SharesInode(key, other) then {InodeShared} else {}
  }

  method CheckIdentities(keys: set<Key>, reused: set<Key>) returns (errors: Errors)
    ensures errors.Keys == keys && forall key :: key in keys ==> errors[key] == Identity(keys, reused, key)
  {
    errors := map[];
    var todo := keys;
    while todo != {}
      invariant todo <= keys && errors.Keys == keys - todo
      invariant forall key :: key in errors ==> errors[key] == Identity(keys, reused, key)
      decreases |todo|
    {
      var key: Key :| key in todo;
      errors := errors[key := Identity(keys, reused, key)];
      todo := todo - {key};
    }
  }

  lemma BaseIs(events: seq<Event>, key: Key, reused: set<Key>)
    requires Creations(events, key) != [] && (key in reused <==> |Creations(events, key)| > 1)
    ensures BaseReasons(events, key) ==
            Identity(Created(events), reused, key) + ActivitySum(events, key)
              + MessageSum(events, key, Creations(events, key)[0].start)
  {
    hide ActivitySum, MessageSum, Creations, Created, SharesInode;
  }

  ghost predicate Accepted(events: seq<Event>, key: Key) { Creations(events, key) != [] && Reasons(events, key) == {} }

  /** The pairs of the accepted channels among `keys`, channel by channel. */
  ghost function PairsOf(events: seq<Event>, keys: seq<Key>): seq<Pair> {
    if keys == [] then []
    else
      var key := keys[|keys| - 1];
      PairsOf(events, keys[..|keys| - 1])
      + if Accepted(events, key)
        then ChannelPairs(events, key, Flows(events, key), Creations(events, key)[0].source) else []
  }

  /** Exactly the channels among `keys` with something against them, each with all its reasons. */
  ghost predicate Rejects(events: seq<Event>, keys: seq<Key>, rejected: Errors) {
    && (forall key :: key in rejected <==> key in keys && !Accepted(events, key))
    && (forall key :: key in rejected ==> Creations(events, key) != [] && rejected[key] == Reasons(events, key))
  }

  /** Messages that carried descriptors and are in no returned pair, in trace order. */
  function Unpaired(events: seq<Event>, pairs: seq<Pair>): seq<nat> {
    if events == [] then []
    else
      var e := events[|events| - 1];
      Unpaired(events[..|events| - 1], pairs) + if Carries(e) && !InPair(pairs, e.source) then [e.source] else []
  }

  predicate Carries(e: Event) { e.about.rights.Some? && e.about.rights.value.succeeded }

  predicate InPair(pairs: seq<Pair>, source: nat) {
    exists p :: p in pairs && (p.send.message == source || p.receive.message == source)
  }

  /** Pairs come from accepted channels only, in order of creation and first use; every other
      channel is reported with all its reasons, and every other carrier of descriptors is listed. */
  method PairTransfers(events: seq<Event>) returns (pairs: seq<Pair>, rejected: Errors, unpaired: seq<nat>)
    ensures pairs == PairsOf(events, Keys(events)) && Rejects(events, Keys(events), rejected)
    ensures unpaired == Unpaired(events, pairs)
  {
    hide BaseReasons, ChannelFlowReasons, ChannelPairs, Creations, Sends, Receives, Created, Flows, FlowsOf, Keys,
      PairsOf, Rejects;
    var keys, creations, errors, sends, receives, order := CheckChannels(events);
    KeysAreCreated(events);
    pairs, rejected := [], map[];
    NothingPaired(events, keys);
    var i := 0;
    while i < |keys|
      invariant 0 <= i <= |keys|
      invariant pairs == PairsOf(events, keys[..i]) && Rejects(events, keys[..i], rejected)
    {
      var key := keys[i];
      PairedMore(events, keys, i, rejected);
      var reasons, tentative := PairChannel(events, key, creations[key].source, FlowsOf(order, key), sends, receives);
      reasons := errors[key] + reasons;
      if reasons != {} {
        rejected := rejected[key := reasons];
      } else {
        pairs := pairs + tentative;
      }
      i := i + 1;
    }
    assert keys[..i] == keys;
    unpaired := ListUnpaired(events, pairs);
  }

  lemma NothingPaired(events: seq<Event>, keys: seq<Key>)
    ensures PairsOf(events, keys[..0]) == [] && Rejects(events, keys[..0], map[])
  {
  }

  lemma PairedMore(events: seq<Event>, keys: seq<Key>, i: nat, rejected: Errors)
    requires i < |keys| && Rejects(events, keys[..i], rejected) && Creations(events, keys[i]) != []
    requires forall a, b :: 0 <= a < b < |keys| ==> keys[a] != keys[b]
    ensures PairsOf(events, keys[..i + 1]) ==
            PairsOf(events, keys[..i])
            + if Reasons(events, keys[i]) == {}
              then ChannelPairs(events, keys[i], Flows(events, keys[i]), Creations(events, keys[i])[0].source) else []
    ensures Rejects(events, keys[..i + 1],
                    if Reasons(events, keys[i]) == {} then rejected else rejected[keys[i] := Reasons(events, keys[i])])
  {
    hide ChannelPairs, Reasons, Creations;
    assert keys[..i + 1] == keys[..i] + [keys[i]] && keys[..i + 1][..i] == keys[..i];
  }

  method ListUnpaired(events: seq<Event>, pairs: seq<Pair>) returns (unpaired: seq<nat>)
    ensures unpaired == Unpaired(events, pairs)
  {
    unpaired := [];
    var i := 0;
    while i < |events|
      invariant 0 <= i <= |events| && unpaired == Unpaired(events[..i], pairs)
    {
      assert events[..i + 1][..i] == events[..i];
      if Carries(events[i]) && !InPair(pairs, events[i].source) { unpaired := unpaired + [events[i].source]; }
      i := i + 1;
    }
    assert events[..i] == events;
  }

  // ----- what a returned pair means ---------------------------------------------------------------

  lemma {:induction false} FlowPairAt(s: seq<Event>, r: seq<Event>, n: nat, creation: nat, flow: Flow, p: Pair)
    requires n <= |s| && n <= |r| && p in FlowPairs(s, r, n, creation, flow)
    ensures exists k :: 0 <= k < n && p in PairsAt(s[k], r[k], creation, flow)
  {
    if p in PairsAt(s[n - 1], r[n - 1], creation, flow) {} else { FlowPairAt(s, r, n - 1, creation, flow, p); }
  }

  /** `p` is the n-th descriptor the message carried: at its send and at its receive. */
  predicate Describes(sent: Event, received: Event, n: nat, p: Pair) {
    && sent.about.rights.Some? && received.about.rights.Some?
    && n < |sent.about.rights.value.fds| && n < |received.about.rights.value.fds|
    && p.send.message == sent.source && p.send.pid == sent.pid && p.send.fd == sent.about.rights.value.fds[n]
    && p.receive.message == received.source && p.receive.pid == received.pid
    && p.receive.fd == received.about.rights.value.fds[n]
  }

  /** `p` pairs the k-th send of a direction with its k-th receive, descriptor by descriptor. */
  ghost predicate PairedAt(events: seq<Event>, key: Key, flow: Flow, k: nat, p: Pair) {
    var s, r := ByStart(Sends(events, key, flow)), ByStart(Receives(events, key, flow));
    k < |s| && k < |r| && p.flow == flow && exists n :: Describes(s[k], r[k], n, p)
  }

  lemma PairsDescribe(sent: Event, received: Event, creation: nat, flow: Flow, p: Pair)
    requires p in PairsAt(sent, received, creation, flow)
    ensures p.creation == creation && p.flow == flow && exists n :: Describes(sent, received, n, p)
  {
    var n :| 0 <= n < |PairsAt(sent, received, creation, flow)| && PairsAt(sent, received, creation, flow)[n] == p;
    assert Describes(sent, received, n, p);
  }

  lemma {:induction false} ChannelPairAt(events: seq<Event>, key: Key, flows: seq<Flow>, creation: nat, p: Pair)
    requires p in ChannelPairs(events, key, flows, creation) && ChannelFlowReasons(events, key, flows) == {}
    ensures p.creation == creation
    ensures exists flow, k :: flow in flows && PairedAt(events, key, flow, k, p)
              && FlowReasons(ByStart(Sends(events, key, flow)), ByStart(Receives(events, key, flow))) == {}
  {
    hide FlowReasons, Sends, Receives, ByStart, PairsAt, Describes;
    var n := |flows| - 1;
    var f := flows[n];
    var s, r := ByStart(Sends(events, key, f)), ByStart(Receives(events, key, f));
    assert flows == flows[..n] + [f];
    if p in FlowPairs(s, r, Min(|s|, |r|), creation, f) {
      FlowPairAt(s, r, Min(|s|, |r|), creation, f, p);
      var k :| 0 <= k < Min(|s|, |r|) && p in PairsAt(s[k], r[k], creation, f);
      PairsDescribe(s[k], r[k], creation, f, p);
      assert PairedAt(events, key, f, k, p);
    } else {
      ChannelPairAt(events, key, flows[..n], creation, p);
      var flow, k :| flow in flows[..n] && PairedAt(events, key, flow, k, p)
        && FlowReasons(ByStart(Sends(events, key, flow)), ByStart(Receives(events, key, flow))) == {};
      assert flow in flows;
    }
  }

  /** In `run`, the receive named by `p` obtains the message named by `p`. */
  ghost predicate DeliveredIn(run: seq<Step>, k: nat, p: Pair) {
    && Received(run, []).Some? && k < |Received(run, []).value|
    && Received(run, []).value[k].0.source == p.send.message && Received(run, []).value[k].1.source == p.receive.message
  }

  lemma {:induction false} PairFrom(events: seq<Event>, keys: seq<Key>, p: Pair)
    requires p in PairsOf(events, keys)
    ensures exists key :: key in keys && Accepted(events, key)
              && p in ChannelPairs(events, key, Flows(events, key), Creations(events, key)[0].source)
  {
    hide Accepted, ChannelPairs, Flows, Creations;
    var n := |keys| - 1;
    if p in PairsOf(events, keys[..n]) {
      PairFrom(events, keys[..n], p);
    } else {
      assert keys[n] in keys;
    }
  }

  /** Every returned pair is true: some direction of its channel carried both messages, and in
      every run of the kernel's queue that explains what was observed there, that receive
      obtained that message. */
  lemma ReturnedPairsAreTrue(events: seq<Event>, p: Pair)
    requires p in PairsOf(events, Keys(events))
    ensures exists key, k: nat :: Accepted(events, key) && PairedAt(events, key, p.flow, k, p)
              && p.creation == Creations(events, key)[0].source
              && forall run ::
                   Explains(run, Sends(events, key, p.flow), Receives(events, key, p.flow)) ==> DeliveredIn(run, k, p)
  {
    hide Sends, Receives, Explains, Creations, ChannelPairs, Flows, PairsOf, Keys;
    PairFrom(events, Keys(events), p);
    var key :| key in Keys(events) && Accepted(events, key)
      && p in ChannelPairs(events, key, Flows(events, key), Creations(events, key)[0].source);
    ChannelPairAt(events, key, Flows(events, key), Creations(events, key)[0].source, p);
    var flow, k: nat :| flow in Flows(events, key) && PairedAt(events, key, flow, k, p)
      && FlowReasons(ByStart(Sends(events, key, flow)), ByStart(Receives(events, key, flow))) == {};
    forall run | Explains(run, Sends(events, key, flow), Receives(events, key, flow)) ensures DeliveredIn(run, k, p) {
      PairingIsTrue(run, Sends(events, key, flow), Receives(events, key, flow));
      ExplainedRuns(run, Sends(events, key, flow), Receives(events, key, flow));
    }
  }

  lemma ExplainedRuns(run: seq<Step>, sends: seq<Event>, receives: seq<Event>)
    requires Explains(run, sends, receives)
    ensures Received(run, []).Some?
  {
  }
}
