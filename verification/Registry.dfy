/** The runtime's request registry: what it hands out is what the attributor later recomputes
    from the map it wrote. */
module Registry {
  import opened Trace
  import opened RequestMap
  import A = Attribution
  import SocketReads

  datatype Result<+T, +E> = Ok(value: T) | Err(error: E)

  /** A request identity as JSON: text, an integer, or something else. */
  datatype RpcId = TextId(text: string) | NumberId(number: int) | OtherId

  /** A handed-out context; only the registry of its namespace can make one. */
  datatype CausalContext = CausalContext(namespace: nat, tag: Context, roots: set<Context>)

  datatype Refusal = BadRequestId | RequestIdReused | Exhausted | NoParents | ForeignSession

  datatype RegistryState = RegistryState(next: Context, requestIds: set<RpcId>, sink: seq<Entry>)

  datatype Call = Request(rpc: RpcId) | Join(parents: seq<CausalContext>)

  function Fresh(): RegistryState { RegistryState(1, {}, []) }

  /** The elements of a set in increasing order. */
  function Sorted(s: set<Context>): seq<Context> {
    if s == {} then [] else [A.Least(s)] + Sorted(s - {A.Least(s)})
  }

  function RootsOf(parents: seq<CausalContext>): set<Context> { set p, c | p in parents && c in p.roots :: c }

  predicate Foreign(namespace: nat, parents: seq<CausalContext>) {
    exists p :: p in parents && p.namespace != namespace
  }

  /** The state and answer after one call. */
  function Respond(namespace: nat, s: RegistryState, call: Call): (RegistryState, Result<CausalContext, Refusal>) {
    match call
    case Request(rpc) =>
      if rpc.OtherId? then (s, Err(BadRequestId))
      else if rpc in s.requestIds then (s, Err(RequestIdReused))
      else
        var s1 := s.(requestIds := s.requestIds + {rpc});
        if s.next + 1 >= CONTEXT_LIMIT then (s1, Err(Exhausted))
        else
          (s1.(next := s.next + 1, sink := s.sink + [Entry(s.next, RequestEntry, None)]),
           Ok(CausalContext(namespace, s.next, {s.next})))
    case Join(parents) =>
      if parents == [] then (s, Err(NoParents))
      else if Foreign(namespace, parents) then (s, Err(ForeignSession))
      else if s.next + 1 >= CONTEXT_LIMIT then (s, Err(Exhausted))
      else
        var roots := RootsOf(parents);
        (s.(next := s.next + 1, sink := s.sink + [Entry(s.next, JoinEntry, Some(Sorted(roots)))]),
         Ok(CausalContext(namespace, s.next, roots)))
  }

  class ContextRegistry {
    const namespace: nat
    var next: Context
    var requestIds: set<RpcId>
    var sink: seq<Entry>

    constructor (namespace: nat)
      ensures this.namespace == namespace && View() == Fresh()
    {
      this.namespace := namespace;
      next, requestIds, sink := 1, {}, [];
    }

    function View(): RegistryState
      reads this
    {
      RegistryState(next, requestIds, sink)
    }

    method NewRequest(rpc: RpcId) returns (r: Result<CausalContext, Refusal>)
      modifies this
      ensures (View(), r) == Respond(namespace, old(View()), Request(rpc))
      ensures r == Err(BadRequestId) <==> rpc.OtherId?
      ensures r == Err(RequestIdReused) <==> !rpc.OtherId? && rpc in old(requestIds)
      ensures r == Err(Exhausted) <==>
                !rpc.OtherId? && rpc !in old(requestIds) && old(next) + 1 >= 0x1_0000_0000_0000_0000
      ensures requestIds == if rpc.OtherId? then old(requestIds) else old(requestIds) + {rpc}
      ensures r.Err? ==> next == old(next) && sink == old(sink)
      ensures r.Ok? ==>
                && r.value == CausalContext(namespace, old(next), {old(next)}) && next == old(next) + 1
                && sink == old(sink) + [Entry(old(next), RequestEntry, None)]
    {
      if rpc.OtherId? { return Err(BadRequestId); }
      if rpc in requestIds { return Err(RequestIdReused); }
      requestIds := requestIds + {rpc};
      var tag := next;
      if tag + 1 >= CONTEXT_LIMIT { return Err(Exhausted); }
      next := tag + 1;
      sink := sink + [Entry(tag, RequestEntry, None)];
      return Ok(CausalContext(namespace, tag, {tag}));
    }

    method NewJoin(parents: seq<CausalContext>) returns (r: Result<CausalContext, Refusal>)
      modifies this
      ensures (View(), r) == Respond(namespace, old(View()), Join(parents))
      ensures r == Err(NoParents) <==> parents == []
      ensures r == Err(ForeignSession) <==> exists p :: p in parents && p.namespace != namespace
      ensures r == Err(Exhausted) <==>
                && parents != [] && (forall p :: p in parents ==> p.namespace == namespace)
                && old(next) + 1 >= 0x1_0000_0000_0000_0000
      ensures requestIds == old(requestIds)
      ensures r.Err? ==> next == old(next) && sink == old(sink)
      ensures r.Ok? ==>
                && r.value.namespace == namespace && r.value.tag == old(next) && next == old(next) + 1
                && (forall c :: c in r.value.roots <==> exists p :: p in parents && c in p.roots)
                && sink == old(sink) + [Entry(old(next), JoinEntry, Some(Sorted(r.value.roots)))]
    {
      if parents == [] { return Err(NoParents); }
      var roots: set<Context> := {};
      var i := 0;
      while i < |parents|
        invariant 0 <= i <= |parents| && roots == RootsOf(parents[..i])
        invariant !Foreign(namespace, parents[..i])
      {
        assert parents[..i + 1] == parents[..i] + [parents[i]];
        if parents[i].namespace != namespace {
          assert parents[i] in parents;
          return Err(ForeignSession);
        }
        roots := roots + parents[i].roots;
        i := i + 1;
      }
      assert parents[..i] == parents;
      var tag := next;
      if tag + 1 >= CONTEXT_LIMIT { return Err(Exhausted); }
      next := tag + 1;
      sink := sink + [Entry(tag, JoinEntry, Some(Sorted(roots)))];
      return Ok(CausalContext(namespace, tag, roots));
    }
  }

  lemma {:induction false} SortedElements(s: set<Context>)
    ensures (forall c :: c in Sorted(s) <==> c in s) && |Sorted(s)| == |s|
    ensures forall i, j :: 0 <= i < j < |Sorted(s)| ==> Sorted(s)[i] < Sorted(s)[j]
  {
    if s != {} {
      var least := A.Least(s);
      var rest := Sorted(s - {least});
      SortedElements(s - {least});
      assert Sorted(s) == [least] + rest;
      hide Sorted;
      forall j | 0 <= j < |rest| ensures least < rest[j] { assert rest[j] in rest; }
    }
  }

  // ----- runs ------------------------------------------------------------------------------------

  /** The registry after some calls, and the contexts it has handed out. */
  datatype Session = Session(state: RegistryState, issued: set<CausalContext>)

  /** Contexts of this namespace cannot be forged. */
  predicate Genuine(namespace: nat, issued: set<CausalContext>, call: Call) {
    call.Join? ==> forall p :: p in call.parents && p.namespace == namespace ==> p in issued
  }

  function Serve(namespace: nat, x: Session, call: Call): Session {
    var (state, answer) := Respond(namespace, x.state, call);
    Session(state, x.issued + if answer.Ok? then {answer.value} else {})
  }

  function After(namespace: nat, calls: seq<Call>): Session {
    if calls == [] then Session(Fresh(), {})
    else Serve(namespace, After(namespace, calls[..|calls| - 1]), calls[|calls| - 1])
  }

  predicate GenuineRun(namespace: nat, calls: seq<Call>) {
    forall i :: 0 <= i < |calls| ==> Genuine(namespace, After(namespace, calls[..i]).issued, calls[i])
  }

  ghost predicate Faithful(m: A.Mapping, c: CausalContext) {
    c.tag in m.owners && m.owners[c.tag] == c.roots && c.roots != {} && c.roots <= m.roots
  }

  ghost predicate Inv(namespace: nat, x: Session) {
    var m := MappingOf(x.state.sink);
    && 1 <= x.state.next < CONTEXT_LIMIT
    && Loadable(x.state.sink)
    && m.owners.Keys == Seen(x.state.sink)
    && SocketReads.ValidMapping(m)
    && (forall c :: c in Seen(x.state.sink) ==> 1 <= c < x.state.next)
    && (forall c :: c in x.issued ==> c.namespace == namespace && Faithful(m, c))
  }

  lemma RequestInv(namespace: nat, x: Session, rpc: RpcId)
    requires Inv(namespace, x)
    ensures Inv(namespace, Serve(namespace, x, Request(rpc)))
  {
    var s := x.state;
    if !rpc.OtherId? && rpc !in s.requestIds && s.next + 1 < CONTEXT_LIMIT {
      Appended(namespace, x, Entry(s.next, RequestEntry, None), {s.next}, Serve(namespace, x, Request(rpc)));
    }
  }

  lemma JoinInv(namespace: nat, x: Session, parents: seq<CausalContext>)
    requires Inv(namespace, x) && Genuine(namespace, x.issued, Join(parents))
    ensures Inv(namespace, Serve(namespace, x, Join(parents)))
  {
    var s := x.state;
    var m := MappingOf(s.sink);
    if parents != [] && !Foreign(namespace, parents) && s.next + 1 < CONTEXT_LIMIT {
      var roots := RootsOf(parents);
      forall p | p in parents ensures Faithful(m, p) { assert p.namespace == namespace; }
      var p := parents[0];
      assert p in parents && Faithful(m, p);
      var c :| c in p.roots;
      assert c in roots;
      SortedElements(roots);
      SortedUnion(m, roots);
      assert Sorted(roots) != [];
      Appended(namespace, x, Entry(s.next, JoinEntry, Some(Sorted(roots))), roots, Serve(namespace, x, Join(parents)));
    }
  }

  /** A join's parents are flattened to requests, which own exactly themselves. */
  lemma SortedUnion(m: A.Mapping, roots: set<Context>)
    requires SocketReads.ValidMapping(m) && roots <= m.roots
    ensures UnionOf(m.owners, Sorted(roots)) == roots
  {
    SortedElements(roots);
    forall c ensures c in UnionOf(m.owners, Sorted(roots)) <==> c in roots {
      if c in roots { assert c in Sorted(roots) && c in m.owners && m.owners[c] == {c}; }
      if c in UnionOf(m.owners, Sorted(roots)) {
        var p :| p in Sorted(roots) && p in m.owners && c in m.owners[p];
        assert p in roots && m.owners[p] == {p};
      }
    }
  }

  lemma Appended(namespace: nat, x: Session, e: Entry, roots: set<Context>, y: Session)
    requires Inv(namespace, x) && e.context == x.state.next && x.state.next + 1 < CONTEXT_LIMIT && !e.kind.OtherEntry?
    requires y.state.next == x.state.next + 1 && y.state.sink == x.state.sink + [e]
    requires y.issued == x.issued + {CausalContext(namespace, e.context, roots)}
    requires e.kind.RequestEntry? ==> roots == {e.context}
    requires e.kind.JoinEntry? ==>
               && e.parents.Some? && e.parents.value != [] && !Repeats(e.parents.value)
               && roots != {} && roots <= MappingOf(x.state.sink).roots
               && (forall p :: p in e.parents.value ==> p in roots)
               && UnionOf(MappingOf(x.state.sink).owners, e.parents.value) == roots
    ensures Inv(namespace, y)
  {
    hide UnionOf, SocketReads.ValidMapping, Repeats, Loadable, MappingOf;
    var sink := x.state.sink;
    var grown := y.state.sink;
    var m := MappingOf(sink);
    RootsSeen(m);
    assert FaultOf(Seen(sink), e).None?;
    assert grown[..|sink|] == sink;
    LoadableStep(grown, |sink|);
    assert grown[..|sink| + 1] == grown;
    MappingStep(grown);
    LoadedMappingValid(grown);
    forall c | c in x.issued ensures Faithful(MappingOf(grown), c) {
      assert Faithful(m, c);
      assert c.tag != e.context;
    }
  }

  lemma RootsSeen(m: A.Mapping)
    requires SocketReads.ValidMapping(m)
    ensures m.roots <= m.owners.Keys
  {
  }

  lemma {:induction false} RunInv(namespace: nat, calls: seq<Call>)
    requires GenuineRun(namespace, calls)
    ensures Inv(namespace, After(namespace, calls))
  {
    hide Inv, Respond, Genuine;
    if calls == [] {
      StartInv(namespace);
    } else {
      var last := |calls| - 1;
      forall i | 0 <= i < last
        ensures Genuine(namespace, After(namespace, calls[..last][..i]).issued, calls[..last][i]) {
        assert calls[..last][..i] == calls[..i];
      }
      RunInv(namespace, calls[..last]);
      match calls[last]
      case Request(rpc) => RequestInv(namespace, After(namespace, calls[..last]), rpc);
      case Join(parents) => JoinInv(namespace, After(namespace, calls[..last]), parents);
    }
  }

  lemma StartInv(namespace: nat)
    ensures Inv(namespace, Session(Fresh(), {}))
  {
  }

  /** Whatever calls are made, the written map loads, and for every context handed out,
      nested joins included, the owners the attributor recomputes are its roots. */
  lemma OwnersAreRoots(namespace: nat, calls: seq<Call>, c: CausalContext)
    requires GenuineRun(namespace, calls) && c in After(namespace, calls).issued
    ensures var entries := After(namespace, calls).state.sink;
            && Loadable(entries)
            && c.tag in OwnersOf(entries) && OwnersOf(entries)[c.tag] == c.roots
            && c.roots != {} && c.roots <= MappingOf(entries).roots
  {
    hide After;
    RunInv(namespace, calls);
    assert Faithful(MappingOf(After(namespace, calls).state.sink), c);
  }

  /** Handed-out tags are never reused: a context names one set of roots for ever. */
  lemma TagsNameOneContext(namespace: nat, calls: seq<Call>, c: CausalContext, d: CausalContext)
    requires GenuineRun(namespace, calls)
    requires c in After(namespace, calls).issued && d in After(namespace, calls).issued && c.tag == d.tag
    ensures c == d
  {
    OwnersAreRoots(namespace, calls, c);
    OwnersAreRoots(namespace, calls, d);
    RunInv(namespace, calls);
    hide After;
  }
}
