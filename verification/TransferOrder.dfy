/** The order of what the pairing pass answers: channels by creation, directions by first message,
    messages by start, descriptors by position. */
module TransferOrder {
  import opened Trace
  import opened Datagrams
  import opened DatagramPairing
  import opened TransferMeaning

  /** A message of this direction, sent or received. */
  predicate Uses(e: Event, flow: Flow) { SentIn(e, flow) || ReceivedIn(e, flow) }

  ghost predicate FirstUser(events: seq<Event>, flow: Flow, i: nat) {
    i < |events| && Uses(events[i], flow) && forall j :: 0 <= j < i ==> !Uses(events[j], flow)
  }

  /** `p` is of a channel made earlier, of a direction of the same channel used earlier, or of an
      earlier message of the direction. */
  ghost predicate Earlier(events: seq<Event>, p: Pair, flow: Flow, k: nat) {
    || (exists a, b :: FirstMaker(events, KeyOf(p.flow), a) && FirstMaker(events, KeyOf(flow), b) && a < b)
    || (KeyOf(p.flow) == KeyOf(flow)
        && exists a, b :: FirstUser(events, p.flow, a) && FirstUser(events, flow, b) && a < b)
    || (p.flow == flow && exists j :: 0 <= j < k && SentAt(events, flow, j, p))
  }

  ghost predicate SentAt(events: seq<Event>, flow: Flow, j: nat, p: Pair) {
    var s := ByStart(Sends(events, KeyOf(flow), flow));
    j < |s| && p.send.message == s[j].source
  }

  // ----- channels and directions ---------------------------------------------------------------------

  lemma {:induction false} KeysMade(events: seq<Event>, key: Key)
    ensures key in Keys(events) <==> key.lo <= key.hi && exists i: nat :: FirstMaker(events, key, i)
  {
    KeysAreCreated(events);
    CreatedKeys(events, key);
    if key.lo <= key.hi {
      CreationsMean(events, key);
      if Creations(events, key) != [] { FirstCreation(events, key); }
      if i: nat :| FirstMaker(events, key, i) { assert events[i] in events; }
    }
  }

  lemma {:induction false} CreatedKeys(events: seq<Event>, key: Key)
    ensures key in Keys(events) ==> key.lo <= key.hi
  {
    if events != [] { CreatedKeys(events[..|events| - 1], key); }
  }

  lemma {:induction false} KeysInOrder(events: seq<Event>, i: nat, j: nat, a: nat, b: nat)
    requires i < j < |Keys(events)|
    requires FirstMaker(events, Keys(events)[i], a) && FirstMaker(events, Keys(events)[j], b)
    ensures a < b
  {
    hide Makes;
    var n := |events| - 1;
    var front := events[..n];
    var earlier, later := Keys(events)[i], Keys(events)[j];
    MadeInFront(events, earlier, a);
    MadeInFront(events, later, b);
    KeysMade(front, earlier);
    KeysMade(front, later);
    KeysMade(events, later);
    if j < |Keys(front)| { KeysInOrder(front, i, j, a, b); }
  }

  /** Whether the first call to make a channel is among the calls before the last. */
  lemma MadeInFront(events: seq<Event>, key: Key, i: nat)
    requires FirstMaker(events, key, i)
    ensures events != [] && (i < |events| - 1 <==> FirstMaker(events[..|events| - 1], key, i))
    ensures var front := events[..|events| - 1];
            i == |events| - 1 ==> forall j: nat :: !FirstMaker(front, key, j)
  {
    hide Makes;
  }

  lemma {:induction false} FlowsUsed(events: seq<Event>, key: Key, flow: Flow)
    ensures flow in Flows(events, key) <==> KeyOf(flow) == key && exists i: nat :: FirstUser(events, flow, i)
  {
    if events != [] {
      var n := |events| - 1;
      FlowsUsed(events[..n], key, flow);
      if i: nat :| FirstUser(events, flow, i) { UsedInFront(events, flow, i); }
      if i: nat :| FirstUser(events[..n], flow, i) { assert FirstUser(events, flow, i); }
      UseIsDelivery(events[n], key, flow);
      if Uses(events[n], flow) && !exists i: nat :: FirstUser(events[..n], flow, i) {
        NeverUsed(events[..n], flow);
        assert FirstUser(events, flow, n);
      }
    }
  }

  lemma UseIsDelivery(e: Event, key: Key, flow: Flow)
    ensures Delivered(e, key) && FlowOf(e) == flow <==> KeyOf(flow) == key && Uses(e, flow)
  {
  }

  lemma {:induction false} NeverUsed(events: seq<Event>, flow: Flow)
    requires forall i: nat :: !FirstUser(events, flow, i)
    ensures forall i :: 0 <= i < |events| ==> !Uses(events[i], flow)
  {
    hide Uses;
    if events != [] {
      var n := |events| - 1;
      assert forall i: nat :: FirstUser(events[..n], flow, i) ==> FirstUser(events, flow, i);
      NeverUsed(events[..n], flow);
      forall i | 0 <= i < n ensures !Uses(events[i], flow) { assert events[..n][i] == events[i]; }
      assert !FirstUser(events, flow, n);
    }
  }

  lemma UsedInFront(events: seq<Event>, flow: Flow, i: nat)
    requires FirstUser(events, flow, i)
    ensures events != [] && (i < |events| - 1 <==> FirstUser(events[..|events| - 1], flow, i))
    ensures var front := events[..|events| - 1];
            i == |events| - 1 ==> forall j: nat :: !FirstUser(front, flow, j)
  {
    hide Uses;
  }

  lemma {:induction false} FlowsInOrder(events: seq<Event>, key: Key, i: nat, j: nat, a: nat, b: nat)
    requires i < j < |Flows(events, key)|
    requires FirstUser(events, Flows(events, key)[i], a) && FirstUser(events, Flows(events, key)[j], b)
    ensures a < b
  {
    hide Uses, Delivered, FlowOf;
    var n := |events| - 1;
    var front := events[..n];
    var earlier, later := Flows(events, key)[i], Flows(events, key)[j];
    UsedInFront(events, earlier, a);
    UsedInFront(events, later, b);
    FlowsUsed(front, key, earlier);
    FlowsUsed(front, key, later);
    FlowsUsed(events, key, later);
    if j < |Flows(front, key)| { FlowsInOrder(front, key, i, j, a, b); }
  }

  // ----- blocks ---------------------------------------------------------------------------------------

  lemma {:induction false} FlowBlock(s: seq<Event>, r: seq<Event>, n: nat, k: nat, creation: nat, flow: Flow)
    returns (after: seq<Pair>)
    requires k < n <= |s| && n <= |r|
    ensures FlowPairs(s, r, n, creation, flow) ==
            FlowPairs(s, r, k, creation, flow) + PairsAt(s[k], r[k], creation, flow) + after
    decreases n
  {
    hide PairsAt;
    if k == n - 1 {
      after := [];
    } else {
      after := FlowBlock(s, r, n - 1, k, creation, flow);
      after := after + PairsAt(s[n - 1], r[n - 1], creation, flow);
    }
  }

  /** The pairs of one direction. */
  function Direction(events: seq<Event>, flow: Flow, creation: nat): seq<Pair> {
    var s, r := ByStart(Sends(events, KeyOf(flow), flow)), ByStart(Receives(events, KeyOf(flow), flow));
    FlowPairs(s, r, Min(|s|, |r|), creation, flow)
  }

  lemma {:induction false} ChannelBlock(events: seq<Event>, key: Key, flows: seq<Flow>, x: nat, creation: nat)
    returns (after: seq<Pair>)
    requires x < |flows| && KeyOf(flows[x]) == key
    ensures ChannelPairs(events, key, flows, creation) ==
            ChannelPairs(events, key, flows[..x], creation) + Direction(events, flows[x], creation) + after
    decreases |flows|
  {
    hide ByStart, Sends, Receives, FlowPairs;
    var n := |flows| - 1;
    if x == n {
      after := [];
    } else {
      after := ChannelBlock(events, key, flows[..n], x, creation);
      assert flows[..n][..x] == flows[..x];
      var s, r := ByStart(Sends(events, key, flows[n])), ByStart(Receives(events, key, flows[n]));
      after := after + FlowPairs(s, r, Min(|s|, |r|), creation, flows[n]);
    }
  }

  ghost function Channel(events: seq<Event>, key: Key): seq<Pair>
    requires Creations(events, key) != []
  {
    ChannelPairs(events, key, Flows(events, key), Creations(events, key)[0].source)
  }

  lemma {:induction false} KeyBlock(events: seq<Event>, keys: seq<Key>, x: nat) returns (after: seq<Pair>)
    requires x < |keys| && Accepted(events, keys[x])
    ensures PairsOf(events, keys) == PairsOf(events, keys[..x]) + Channel(events, keys[x]) + after
    decreases |keys|
  {
    hide ChannelPairs, Flows, Reasons;
    var n := |keys| - 1;
    if x == n {
      after := [];
    } else {
      after := KeyBlock(events, keys[..n], x);
      assert keys[..n][..x] == keys[..x];
      after := after + if Accepted(events, keys[n]) then Channel(events, keys[n]) else [];
    }
  }

  lemma {:induction false} InFlows(events: seq<Event>, key: Key, flows: seq<Flow>, creation: nat, p: Pair)
    requires p in ChannelPairs(events, key, flows, creation)
    ensures p.flow in flows
  {
    hide ByStart, Sends, Receives, PairsAt;
    var n := |flows| - 1;
    var f := flows[n];
    var s, r := ByStart(Sends(events, key, f)), ByStart(Receives(events, key, f));
    assert flows == flows[..n] + [f];
    if p in FlowPairs(s, r, Min(|s|, |r|), creation, f) {
      FlowPairAt(s, r, Min(|s|, |r|), creation, f, p);
      var k :| 0 <= k < Min(|s|, |r|) && p in PairsAt(s[k], r[k], creation, f);
      PairsDescribe(s[k], r[k], creation, f, p);
    } else {
      InFlows(events, key, flows[..n], creation, p);
    }
  }

  lemma InKeys(events: seq<Event>, keys: seq<Key>, p: Pair)
    requires p in PairsOf(events, keys)
    ensures KeyOf(p.flow) in keys && exists i: nat :: FirstUser(events, p.flow, i)
  {
    hide PairsOf, ChannelPairs, Creations, Flows, Reasons;
    PairFrom(events, keys, p);
    var key :| key in keys && Accepted(events, key)
      && p in ChannelPairs(events, key, Flows(events, key), Creations(events, key)[0].source);
    InFlows(events, key, Flows(events, key), Creations(events, key)[0].source, p);
    FlowsUsed(events, key, p.flow);
  }

  // ----- the answer -------------------------------------------------------------------------------------

  lemma EarlierMessages(events: seq<Event>, flow: Flow, k: nat, creation: nat, p: Pair)
    requires var s, r := ByStart(Sends(events, KeyOf(flow), flow)), ByStart(Receives(events, KeyOf(flow), flow));
             k <= |s| && k <= |r| && p in FlowPairs(s, r, k, creation, flow)
    ensures Earlier(events, p, flow, k)
  {
    hide ByStart, Sends, Receives, PairsAt, FirstMaker, FirstUser;
    var s, r := ByStart(Sends(events, KeyOf(flow), flow)), ByStart(Receives(events, KeyOf(flow), flow));
    FlowPairAt(s, r, k, creation, flow, p);
    var j :| 0 <= j < k && p in PairsAt(s[j], r[j], creation, flow);
    PairsDescribe(s[j], r[j], creation, flow, p);
    assert SentAt(events, flow, j, p);
  }

  lemma EarlierFlows(events: seq<Event>, key: Key, x: nat, k: nat, creation: nat, p: Pair)
    requires x < |Flows(events, key)| && p in ChannelPairs(events, key, Flows(events, key)[..x], creation)
    ensures Earlier(events, p, Flows(events, key)[x], k)
  {
    hide ChannelPairs, SentAt, FirstMaker, FirstUser, Flows;
    var flows := Flows(events, key);
    InFlows(events, key, flows[..x], creation, p);
    var i :| 0 <= i < x && flows[..x][i] == p.flow;
    FlowsUsed(events, key, flows[x]);
    FlowsUsed(events, key, flows[i]);
    var a: nat :| FirstUser(events, flows[i], a);
    var b: nat :| FirstUser(events, flows[x], b);
    FlowsInOrder(events, key, i, x, a, b);
  }

  lemma EarlierKeys(events: seq<Event>, x: nat, flow: Flow, k: nat, p: Pair)
    requires x < |Keys(events)| && Keys(events)[x] == KeyOf(flow) && p in PairsOf(events, Keys(events)[..x])
    ensures Earlier(events, p, flow, k)
  {
    hide PairsOf, SentAt, FirstMaker, FirstUser, Keys;
    var keys := Keys(events);
    InKeys(events, keys[..x], p);
    var i :| 0 <= i < x && keys[..x][i] == KeyOf(p.flow);
    KeysMade(events, keys[x]);
    KeysMade(events, keys[i]);
    var a: nat :| FirstMaker(events, keys[i], a);
    var b: nat :| FirstMaker(events, keys[x], b);
    KeysInOrder(events, i, x, a, b);
  }

  /** Of an accepted channel, the descriptors of the k-th message of a direction stand together in the answer,
      and before them only pairs of earlier channels, earlier directions and earlier messages. */
  lemma PairsInOrder(events: seq<Event>, flow: Flow, k: nat) returns (before: seq<Pair>, after: seq<Pair>)
    requires Accepted(events, KeyOf(flow)) && k < |ByStart(Sends(events, KeyOf(flow), flow))|
    ensures var s, r := ByStart(Sends(events, KeyOf(flow), flow)), ByStart(Receives(events, KeyOf(flow), flow));
            && |s| == |r|
            && PairsOf(events, Keys(events)) ==
               before + Carried(s[k], r[k], Creations(events, KeyOf(flow))[0].source, flow) + after
    ensures forall p :: p in before ==> Earlier(events, p, flow, k)
  {
    hide ByStart, Sends, Receives, Creations, PairsOf, Keys, Flows, Carried, Reasons, Earlier, ChannelPairs, FlowPairs;
    var key := KeyOf(flow);
    var s, r := ByStart(Sends(events, key, flow)), ByStart(Receives(events, key, flow));
    var creation := Creations(events, key)[0].source;
    AcceptedBalances(events, flow, k);
    CarriedIs(s[k], r[k], creation, flow);
    KeysAreCreated(events);
    assert s != [];
    SortedSame(Sends(events, key, flow));
    FlowsCover(events, key, flow);
    var x: nat :| x < |Keys(events)| && Keys(events)[x] == key;
    var y: nat :| y < |Flows(events, key)| && Flows(events, key)[y] == flow;
    var after1 := FlowBlock(s, r, |s|, k, creation, flow);
    var after2 := ChannelBlock(events, key, Flows(events, key), y, creation);
    var after3 := KeyBlock(events, Keys(events), x);
    var one, two, three := FlowPairs(s, r, k, creation, flow),
      ChannelPairs(events, key, Flows(events, key)[..y], creation), PairsOf(events, Keys(events)[..x]);
    before, after := three + two + one, after1 + after2 + after3;
    forall p | p in before ensures Earlier(events, p, flow, k) {
      if p in three { EarlierKeys(events, x, flow, k, p); }
      else if p in two { EarlierFlows(events, key, y, k, creation, p); }
      else { EarlierMessages(events, flow, k, creation, p); }
    }
  }

  /** What is unpaired is listed in trace order, each message once. */
  lemma {:induction false} UnpairedInOrder(events: seq<Event>, pairs: seq<Pair>, i: nat, j: nat, a: nat, b: nat)
    requires Placed(events) && i < j < |Unpaired(events, pairs)| && a < |events| && b < |events|
    requires events[a].source == Unpaired(events, pairs)[i] && events[b].source == Unpaired(events, pairs)[j]
    ensures a < b
  {
    hide InPair, Carries;
    var n := |events| - 1;
    var front := Unpaired(events[..n], pairs);
    UnpairedFrom(events[..n], pairs, i);
    if j < |front| {
      UnpairedFrom(events[..n], pairs, j);
      UnpairedInOrder(events[..n], pairs, i, j, a, b);
    }
  }

  lemma {:induction false} UnpairedFrom(events: seq<Event>, pairs: seq<Pair>, i: nat)
    requires i < |Unpaired(events, pairs)|
    ensures exists c: nat :: c < |events| && events[c].source == Unpaired(events, pairs)[i]
  {
    hide InPair, Carries;
    var n := |events| - 1;
    if i < |Unpaired(events[..n], pairs)| {
      UnpairedFrom(events[..n], pairs, i);
      var c: nat :| c < n && events[..n][c].source == Unpaired(events[..n], pairs)[i];
      assert events[c].source == Unpaired(events, pairs)[i];
    } else {
      assert events[n].source == Unpaired(events, pairs)[i];
    }
  }
}
