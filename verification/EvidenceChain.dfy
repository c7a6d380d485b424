/** The evidence query: closures over the provenance graph, grown edge by edge until nothing
    changes, are exactly reachability. */
module EvidenceChain {

  type Id = nat

  datatype Kind =
    | RingMemoryObserved | RingSnapshotWritten | RingResourceObserved
    | RingSubmitted | RingSubmissionObserved | RingCompletionObserved
    | DescriptorSent | DescriptorReceived
    | CancelledBeforeExecution | IpcSent | Submitted | Executed | Spawned | Joined | CreatedTask | Polled
    | Connected | SocketEffect | Accepted | AcceptedConnection
    | PreparedAs | ObservedQueueEpisode | PollPrepared | ObservedUpdateWhileQueued | CanceledBeforePoll | TriggeredRetry
    | OtherKind

  datatype Item = Node(id: Id) | Edge(source: Id, target: Id, kind: Kind)

  predicate Native(k: Kind) {
    k.PreparedAs? || k.ObservedQueueEpisode? || k.PollPrepared? || k.ObservedUpdateWhileQueued?
      || k.CanceledBeforePoll? || k.TriggeredRetry?
  }

  predicate Handoff(k: Kind) {
    k.RingSubmitted? || k.RingSubmissionObserved? || k.RingCompletionObserved? || k.DescriptorSent?
      || k.DescriptorReceived? || Native(k)
  }

  predicate Causal(k: Kind) { !k.OtherKind? }

  /** The three closures: outcomes of a request, handoffs of what is wanted, and ancestors. */
  datatype Rule = Outcomes | Handoffs | Ancestors

  predicate Follows(rule: Rule, k: Kind) {
    match rule
    case Outcomes => k.Joined? || k.IpcSent? || k.CancelledBeforeExecution?
    case Handoffs => Handoff(k)
    case Ancestors => Causal(k)
  }

  /** Which way an edge is followed. */
  function From(rule: Rule, e: Item): Id
    requires e.Edge?
  {
    if rule.Ancestors? then e.target else e.source
  }

  function To(rule: Rule, e: Item): Id
    requires e.Edge?
  {
    if rule.Ancestors? then e.source else e.target
  }

  predicate Steps(rule: Rule, e: Item) { e.Edge? && Follows(rule, e.kind) }

  /** Which edges each closure follows, and which way. */
  lemma FollowedEdges(a: Id, b: Id, k: Kind)
    ensures Steps(Outcomes, Edge(a, b, k)) <==> k in {Joined, IpcSent, CancelledBeforeExecution}
    ensures Steps(Handoffs, Edge(a, b, k)) <==>
            k in {RingSubmitted, RingSubmissionObserved, RingCompletionObserved, DescriptorSent, DescriptorReceived,
                  PreparedAs, ObservedQueueEpisode, PollPrepared, ObservedUpdateWhileQueued, CanceledBeforePoll,
                  TriggeredRetry}
    ensures Steps(Ancestors, Edge(a, b, k)) <==> k != OtherKind
    ensures forall rule :: !Steps(rule, Node(a))
    ensures From(Outcomes, Edge(a, b, k)) == a && To(Outcomes, Edge(a, b, k)) == b
    ensures From(Handoffs, Edge(a, b, k)) == a && To(Handoffs, Edge(a, b, k)) == b
    ensures From(Ancestors, Edge(a, b, k)) == b && To(Ancestors, Edge(a, b, k)) == a
  {
  }

  ghost predicate Linked(graph: seq<Item>, rule: Rule, a: Id, b: Id) {
    exists e :: e in graph && Steps(rule, e) && From(rule, e) == a && To(rule, e) == b
  }

  /** `b` is `n` followed edges away from `a`. */
  ghost predicate Path(graph: seq<Item>, rule: Rule, a: Id, b: Id, n: nat)
    decreases n
  {
    if n == 0 then a == b else exists c :: Path(graph, rule, a, c, n - 1) && Linked(graph, rule, c, b)
  }

  ghost predicate Reached(graph: seq<Item>, rule: Rule, start: set<Id>, b: Id) {
    exists a, n: nat :: a in start && Path(graph, rule, a, b, n)
  }

  lemma ReachedStart(graph: seq<Item>, rule: Rule, start: set<Id>, a: Id)
    requires a in start
    ensures Reached(graph, rule, start, a)
  {
    assert Path(graph, rule, a, a, 0);
  }

  lemma ReachedMore(graph: seq<Item>, rule: Rule, start: set<Id>, e: Item)
    requires e in graph && Steps(rule, e) && Reached(graph, rule, start, From(rule, e))
    ensures Reached(graph, rule, start, To(rule, e))
  {
    var a, n: nat :| a in start && Path(graph, rule, a, From(rule, e), n);
    assert Linked(graph, rule, From(rule, e), To(rule, e));
    assert Path(graph, rule, a, To(rule, e), n + 1);
  }

  ghost predicate ClosedUnder(graph: seq<Item>, rule: Rule, s: set<Id>) {
    forall e :: e in graph && Steps(rule, e) && From(rule, e) in s ==> To(rule, e) in s
  }

  lemma {:induction false} ClosedContains(graph: seq<Item>, rule: Rule, s: set<Id>, a: Id, b: Id, n: nat)
    requires ClosedUnder(graph, rule, s) && a in s && Path(graph, rule, a, b, n)
    ensures b in s
    decreases n
  {
    if n > 0 {
      var c :| Path(graph, rule, a, c, n - 1) && Linked(graph, rule, c, b);
      ClosedContains(graph, rule, s, a, c, n - 1);
    }
  }

  function Ids(graph: seq<Item>): set<Id> {
    (set e | e in graph && e.Edge? :: e.source) + (set e | e in graph && e.Edge? :: e.target)
  }

  /** One pass over the graph, adding what an edge newly reaches. */
  method Sweep(graph: seq<Item>, rule: Rule, ghost start: set<Id>, known: set<Id>) returns (r: set<Id>, changed: bool)
    requires forall b :: b in known ==> Reached(graph, rule, start, b)
    requires known <= start + Ids(graph)
    ensures known <= r <= start + Ids(graph) && forall b :: b in r ==> Reached(graph, rule, start, b)
    ensures changed <==> r != known
    ensures !changed ==> ClosedUnder(graph, rule, r)
  {
    hide Reached, Follows;
    r, changed := known, false;
    var i := 0;
    while i < |graph|
      invariant 0 <= i <= |graph| && known <= r <= start + Ids(graph)
      invariant forall b :: b in r ==> Reached(graph, rule, start, b)
      invariant changed <==> r != known
      invariant !changed ==>
                forall j :: 0 <= j < i && Steps(rule, graph[j]) && From(rule, graph[j]) in r ==> To(rule, graph[j]) in r
    {
      var e := graph[i];
      if Steps(rule, e) && From(rule, e) in r && To(rule, e) !in r {
        ReachedMore(graph, rule, start, e);
        r := r + {To(rule, e)};
        changed := true;
      }
      i := i + 1;
    }
  }

  /** Grow until nothing changes: the result is exactly what can be reached. */
  method Close(graph: seq<Item>, rule: Rule, start: set<Id>) returns (r: set<Id>)
    ensures forall b :: b in r <==> Reached(graph, rule, start, b)
  {
    hide ClosedUnder, Path;
    r := start;
    forall a | a in start ensures Reached(graph, rule, start, a) { ReachedStart(graph, rule, start, a); }
    var changed := true;
    while changed
      invariant start <= r <= start + Ids(graph)
      invariant forall b :: b in r ==> Reached(graph, rule, start, b)
      invariant !changed ==> ClosedUnder(graph, rule, r)
      decreases |start + Ids(graph)| - |r|, changed
    {
      ghost var before := r;
      r, changed := Sweep(graph, rule, start, r);
      if changed { Larger(before, r, start + Ids(graph)); }
    }
    forall b | Reached(graph, rule, start, b) ensures b in r {
      var a, n: nat :| a in start && Path(graph, rule, a, b, n);
      ClosedContains(graph, rule, r, a, b, n);
    }
  }

  lemma Larger(a: set<Id>, b: set<Id>, whole: set<Id>)
    requires a <= b <= whole && a != b
    ensures |a| < |b| <= |whole|
  {
    Smaller(b, whole);
    var x :| x in b && x !in a;
    Smaller(a, b - {x});
  }

  lemma Smaller(a: set<Id>, b: set<Id>)
    requires a <= b
    ensures |a| <= |b|
  {
    if a != {} {
      var x :| x in a;
      Smaller(a - {x}, b - {x});
    }
  }

  // ----- the query -----------------------------------------------------------------------------------

  /** What is wanted: the selected items, the outcomes of the requests, and their handoffs. */
  ghost predicate Wanted(graph: seq<Item>, selected: set<Id>, requests: set<Id>, id: Id) {
    exists a, n: nat :: (a in selected || Reached(graph, Outcomes, requests, a)) && Path(graph, Handoffs, a, id, n)
  }

  /** In the chain: something wanted can be reached from it along causal edges. */
  ghost predicate Explains(graph: seq<Item>, selected: set<Id>, requests: set<Id>, id: Id) {
    exists w, n: nat :: Wanted(graph, selected, requests, w) && Path(graph, Ancestors, w, id, n)
  }

  ghost predicate Kept(graph: seq<Item>, selected: set<Id>, requests: set<Id>, r: Item) {
    match r
    case Node(id) => Explains(graph, selected, requests, id)
    case Edge(source, target, kind) =>
      Causal(kind) && Explains(graph, selected, requests, source) && Explains(graph, selected, requests, target)
  }

  /** The kept records of a graph, in its order and as often as it has them. */
  ghost function Chain(graph: seq<Item>, selected: set<Id>, requests: set<Id>, items: seq<Item>): seq<Item> {
    if items == [] then []
    else
      var last := items[|items| - 1];
      Chain(graph, selected, requests, items[..|items| - 1])
        + if Kept(graph, selected, requests, last) then [last] else []
  }

  method EvidenceChain(graph: seq<Item>, selected: set<Id>, requests: set<Id>) returns (evidence: seq<Item>)
    ensures evidence == Chain(graph, selected, requests, graph)
    ensures forall r :: r in evidence <==> r in graph && Kept(graph, selected, requests, r)
  {
    hide Path;
    var wanted := selected;
    var descendants := Close(graph, Outcomes, requests);
    wanted := wanted + descendants;
    ghost var start := wanted;
    wanted := Close(graph, Handoffs, wanted);
    forall id ensures id in wanted <==> Wanted(graph, selected, requests, id) {
      if id in wanted { var a, n: nat :| a in start && Path(graph, Handoffs, a, id, n); }
      if Wanted(graph, selected, requests, id) {
        var a, n: nat :| (a in selected || Reached(graph, Outcomes, requests, a)) && Path(graph, Handoffs, a, id, n);
        assert a in start;
      }
    }
    var ancestors := Close(graph, Ancestors, wanted);
    forall id ensures id in ancestors <==> Explains(graph, selected, requests, id) {
      if id in ancestors { var w, n: nat :| w in wanted && Path(graph, Ancestors, w, id, n); }
    }
    evidence := Filter(graph, ancestors);
    hide Explains, Wanted, Reached;
    AmongIsChain(graph, selected, requests, ancestors, graph);
  }

  lemma {:induction false} AmongIsChain(graph: seq<Item>, selected: set<Id>, requests: set<Id>, ids: set<Id>,
                                        items: seq<Item>)
    requires forall id :: id in ids <==> Explains(graph, selected, requests, id)
    ensures Filtered(items, ids) == Chain(graph, selected, requests, items)
  {
    hide Explains;
    if items != [] { AmongIsChain(graph, selected, requests, ids, items[..|items| - 1]); }
  }

  function Filtered(items: seq<Item>, ids: set<Id>): seq<Item> {
    if items == [] then []
    else Filtered(items[..|items| - 1], ids) + if Among(ids, items[|items| - 1]) then [items[|items| - 1]] else []
  }

  predicate Among(ids: set<Id>, r: Item) {
    match r
    case Node(id) => id in ids
    case Edge(source, target, kind) => Causal(kind) && source in ids && target in ids
  }

  method Filter(graph: seq<Item>, ids: set<Id>) returns (evidence: seq<Item>)
    ensures evidence == Filtered(graph, ids)
    ensures forall r :: r in evidence <==> r in graph && Among(ids, r)
  {
    evidence := [];
    var i := 0;
    while i < |graph|
      invariant 0 <= i <= |graph| && evidence == Filtered(graph[..i], ids)
      invariant forall r :: r in evidence <==> r in graph[..i] && Among(ids, r)
    {
      assert graph[..i + 1][..i] == graph[..i];
      if Among(ids, graph[i]) { evidence := evidence + [graph[i]]; }
      i := i + 1;
    }
    assert graph[..i] == graph;
  }

  // ----- what the answer means ------------------------------------------------------------------------

  /** A causal edge into the chain is in the chain, with everything before it. */
  lemma ChainIsComplete(graph: seq<Item>, selected: set<Id>, requests: set<Id>, e: Item)
    requires e in graph && e.Edge? && Causal(e.kind) && Explains(graph, selected, requests, e.target)
    ensures Explains(graph, selected, requests, e.source) && Kept(graph, selected, requests, e)
  {
    var w, n: nat :| Wanted(graph, selected, requests, w) && Path(graph, Ancestors, w, e.target, n);
    assert Steps(Ancestors, e) && Linked(graph, Ancestors, e.target, e.source);
    assert Path(graph, Ancestors, w, e.source, n + 1);
  }

  /** Nothing dangles: where the graph has both endpoints of an edge, so has the answer. */
  lemma NothingDangles(graph: seq<Item>, selected: set<Id>, requests: set<Id>, e: Item)
    requires forall r :: r in graph && r.Edge? ==> Node(r.source) in graph && Node(r.target) in graph
    requires e in graph && e.Edge? && Kept(graph, selected, requests, e)
    ensures Node(e.source) in graph && Kept(graph, selected, requests, Node(e.source))
    ensures Node(e.target) in graph && Kept(graph, selected, requests, Node(e.target))
  {
  }

  lemma {:induction false} PathTransfers(a: seq<Item>, b: seq<Item>, rule: Rule, x: Id, y: Id, n: nat)
    requires forall r :: r in a ==> r in b
    requires Path(a, rule, x, y, n)
    ensures Path(b, rule, x, y, n)
    decreases n
  {
    if n > 0 {
      var c :| Path(a, rule, x, c, n - 1) && Linked(a, rule, c, y);
      PathTransfers(a, b, rule, x, c, n - 1);
      var e :| e in a && Steps(rule, e) && From(rule, e) == c && To(rule, e) == y;
      assert e in b;
      assert Linked(b, rule, c, y);
    }
  }

  /** More records can only explain more. */
  lemma MoreExplained(a: seq<Item>, b: seq<Item>, selected: set<Id>, requests: set<Id>, id: Id)
    requires forall r :: r in a ==> r in b
    ensures Explains(a, selected, requests, id) ==> Explains(b, selected, requests, id)
  {
    hide Path;
    if w, n: nat :| Wanted(a, selected, requests, w) && Path(a, Ancestors, w, id, n) {
      PathTransfers(a, b, Ancestors, w, id, n);
      var x, k: nat :| (x in selected || Reached(a, Outcomes, requests, x)) && Path(a, Handoffs, x, w, k);
      PathTransfers(a, b, Handoffs, x, w, k);
      if x !in selected {
        var s, l: nat :| s in requests && Path(a, Outcomes, s, x, l);
        PathTransfers(a, b, Outcomes, s, x, l);
        assert Reached(b, Outcomes, requests, x);
      }
      assert Wanted(b, selected, requests, w);
    }
  }

  /** The order and multiplicity of the graph are irrelevant: graphs with the same records keep the
      same records. */
  lemma OrderIrrelevant(a: seq<Item>, b: seq<Item>, selected: set<Id>, requests: set<Id>, id: Id, r: Item)
    requires forall x :: x in a <==> x in b
    ensures Explains(a, selected, requests, id) <==> Explains(b, selected, requests, id)
    ensures Kept(a, selected, requests, r) <==> Kept(b, selected, requests, r)
  {
    hide Explains;
    forall x ensures Explains(a, selected, requests, x) <==> Explains(b, selected, requests, x) {
      MoreExplained(a, b, selected, requests, x);
      MoreExplained(b, a, selected, requests, x);
    }
  }
}
