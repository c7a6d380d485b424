/** The request map: loading it, computing owners, seeding the graph. */
module RequestMap {
  import opened Trace
  import opened Attribution
  import Provenance
  import SocketReads

  const CONTEXT_LIMIT: nat := 0x1_0000_0000_0000_0000

  datatype EntryKind = RequestEntry | JoinEntry | OtherEntry

  /** One line of the map.  A context or parent that is not a positive integer reads as 0;
      `parents` is None when it is not a list. */
  datatype Entry = Entry(context: Context, kind: EntryKind, parents: Option<seq<Context>>)

  datatype Fault = BadContext | BadParent | DuplicateParent | BadKind

  // ----- loading ---------------------------------------------------------------------------

  function Seen(entries: seq<Entry>): set<Context> { set r | r in entries :: r.context }

  predicate Repeats(parents: seq<Context>) { exists i, j :: 0 <= i < j < |parents| && parents[i] == parents[j] }

  predicate Strange(seen: set<Context>, parents: seq<Context>) { exists p :: p in parents && p !in seen }

  /** What is wrong with an entry that follows the contexts in `seen`. */
  function FaultOf(seen: set<Context>, r: Entry): Option<Fault> {
    if r.context == 0 || r.context >= CONTEXT_LIMIT || r.context in seen then Some(BadContext)
    else
      match r.kind
      case RequestEntry => None
      case OtherEntry => Some(BadKind)
      case JoinEntry =>
        if r.parents.None? || r.parents.value == [] || Strange(seen, r.parents.value) then Some(BadParent)
        else if Repeats(r.parents.value) then Some(DuplicateParent)
        else None
  }

  /** Every entry is right where it stands. */
  predicate Loadable(entries: seq<Entry>) {
    forall i :: 0 <= i < |entries| ==> FaultOf(Seen(entries[..i]), entries[i]).None?
  }

  method Load(entries: seq<Entry>) returns (fault: Option<Fault>)
    ensures fault.None? <==> Loadable(entries)
    ensures fault.Some? ==> exists i ::
            0 <= i < |entries| && Loadable(entries[..i]) && FaultOf(Seen(entries[..i]), entries[i]) == fault
  {
    var seen: set<Context> := {};
    var i := 0;
    while i < |entries|
      invariant 0 <= i <= |entries| && seen == Seen(entries[..i]) && Loadable(entries[..i])
    {
      var r := entries[i];
      fault := FaultOf(seen, r);
      if fault.Some? { return; }
      LoadableStep(entries, i);
      seen := seen + {r.context};
      i := i + 1;
    }
    assert entries[..i] == entries;
    fault := None;
  }

  lemma LoadableStep(entries: seq<Entry>, i: nat)
    requires i < |entries| && Loadable(entries[..i]) && FaultOf(Seen(entries[..i]), entries[i]).None?
    ensures Loadable(entries[..i + 1]) && Seen(entries[..i + 1]) == Seen(entries[..i]) + {entries[i].context}
  {
    var full := entries[..i + 1];
    assert full == entries[..i] + [entries[i]];
    forall j | 0 <= j < |full| ensures FaultOf(Seen(full[..j]), full[j]).None? {
      assert full[..j] == entries[..j] && (j < i ==> entries[..i][..j] == entries[..j]);
    }
  }

  lemma LoadablePrefix(entries: seq<Entry>, i: nat)
    requires Loadable(entries) && i <= |entries|
    ensures Loadable(entries[..i])
  {
    forall j | 0 <= j < i ensures FaultOf(Seen(entries[..i][..j]), entries[..i][j]).None? {
      assert entries[..i][..j] == entries[..j];
    }
  }

  // ----- owners ------------------------------------------------------------------------------

  function UnionOf(owners: map<Context, set<Context>>, parents: seq<Context>): set<Context> {
    set p, c | p in parents && p in owners && c in owners[p] :: c
  }

  function OwnersOf(entries: seq<Entry>): map<Context, set<Context>> {
    if entries == [] then map[]
    else
      var owners := OwnersOf(entries[..|entries| - 1]);
      var r := entries[|entries| - 1];
      owners[r.context :=
             if r.kind.JoinEntry? && r.parents.Some? then UnionOf(owners, r.parents.value) else {r.context}]
  }

  function MappingOf(entries: seq<Entry>): Mapping {
    Mapping(set r | r in entries && r.kind.RequestEntry? :: r.context, OwnersOf(entries))
  }

  method ComputeOwners(entries: seq<Entry>) returns (owners: map<Context, set<Context>>)
    requires Loadable(entries)
    ensures owners == OwnersOf(entries)
  {
    hide UnionOf, Loadable;
    owners := map[];
    var i := 0;
    while i < |entries|
      invariant 0 <= i <= |entries| && owners == OwnersOf(entries[..i])
    {
      var r := entries[i];
      assert entries[..i + 1][..i] == entries[..i];
      if r.kind.JoinEntry? && r.parents.Some? {
        owners := owners[r.context := UnionOf(owners, r.parents.value)];
      } else {
        owners := owners[r.context := {r.context}];
      }
      i := i + 1;
    }
    assert entries[..i] == entries;
  }

  /** The mapping with one more entry. */
  function Extended(m: Mapping, r: Entry): Mapping {
    Mapping(if r.kind.RequestEntry? then m.roots + {r.context} else m.roots,
            m.owners[r.context :=
                     if r.kind.JoinEntry? && r.parents.Some? then UnionOf(m.owners, r.parents.value) else {r.context}])
  }

  lemma JoinOwnsRequests(m: Mapping, parents: seq<Context>)
    requires SocketReads.ValidMapping(m) && parents != [] && !Strange(m.owners.Keys, parents)
    ensures UnionOf(m.owners, parents) != {} && UnionOf(m.owners, parents) <= m.roots
  {
    var p := parents[0];
    assert p in parents && p in m.owners.Keys;
    var c :| c in m.owners[p];
    assert c in UnionOf(m.owners, parents);
  }

  lemma ValidExtended(m: Mapping, r: Entry)
    requires SocketReads.ValidMapping(m) && FaultOf(m.owners.Keys, r).None?
    ensures SocketReads.ValidMapping(Extended(m, r))
  {
    hide UnionOf, Strange, Repeats;
    if r.kind.JoinEntry? { JoinOwnsRequests(m, r.parents.value); }
    var g := Extended(m, r);
    forall c | c in g.owners ensures g.owners[c] != {} && g.owners[c] <= g.roots {
      assert c == r.context || c in m.owners;
    }
  }

  lemma MappingStep(entries: seq<Entry>)
    requires entries != []
    ensures MappingOf(entries) == Extended(MappingOf(entries[..|entries| - 1]), entries[|entries| - 1])
    ensures Seen(entries) == Seen(entries[..|entries| - 1]) + {entries[|entries| - 1].context}
  {
    assert entries == entries[..|entries| - 1] + [entries[|entries| - 1]];
  }

  /** Loading establishes what the attributor relies on: requests own themselves, joins own
      at least one request and nothing but requests. */
  lemma {:induction false} LoadedMappingValid(entries: seq<Entry>)
    requires Loadable(entries)
    ensures SocketReads.ValidMapping(MappingOf(entries)) && MappingOf(entries).owners.Keys == Seen(entries)
  {
    hide SocketReads.ValidMapping, FaultOf;
    if entries == [] {
      NothingLoaded();
    } else {
      var n := |entries| - 1;
      LoadablePrefix(entries, n);
      LoadedMappingValid(entries[..n]);
      MappingStep(entries);
      ValidExtended(MappingOf(entries[..n]), entries[n]);
    }
  }

  lemma NothingLoaded()
    ensures SocketReads.ValidMapping(MappingOf([]))
  {
  }

  // ----- the seed of the graph ----------------------------------------------------------------

  function JoinEdges(m: Mapping, context: Context, parents: seq<Context>): seq<Record> {
    if parents == [] then []
    else JoinEdges(m, context, parents[..|parents| - 1])
         + [Edge(ContextNode(m, parents[|parents| - 1]), ContextNode(m, context), Joined)]
  }

  function SeedOf(m: Mapping, entries: seq<Entry>): seq<Record> {
    if entries == [] then []
    else
      var r := entries[|entries| - 1];
      SeedOf(m, entries[..|entries| - 1]) + [Node(ContextNode(m, r.context))]
      + if r.context !in m.roots && r.parents.Some? then JoinEdges(m, r.context, r.parents.value) else []
  }

  method Seed(entries: seq<Entry>, m: Mapping) returns (graph: seq<Record>)
    ensures graph == SeedOf(m, entries)
  {
    graph := [];
    var i := 0;
    while i < |entries|
      invariant 0 <= i <= |entries| && graph == SeedOf(m, entries[..i])
    {
      var r := entries[i];
      assert entries[..i + 1][..i] == entries[..i];
      graph := graph + [Node(ContextNode(m, r.context))];
      if r.context !in m.roots && r.parents.Some? {
        var parents := r.parents.value;
        ghost var before := graph;
        var j := 0;
        while j < |parents|
          invariant 0 <= j <= |parents| && graph == before + JoinEdges(m, r.context, parents[..j])
        {
          assert parents[..j + 1][..j] == parents[..j];
          graph := graph + [Edge(ContextNode(m, parents[j]), ContextNode(m, r.context), Joined)];
          j := j + 1;
        }
        assert parents[..j] == parents;
      }
      i := i + 1;
    }
    assert entries[..i] == entries;
  }

  lemma {:induction false} JoinEdgeAt(m: Mapping, context: Context, parents: seq<Context>, r: Record)
    requires r in JoinEdges(m, context, parents)
    ensures exists p :: p in parents && r == Edge(ContextNode(m, p), ContextNode(m, context), Joined)
  {
    if r in JoinEdges(m, context, parents[..|parents| - 1]) {
      JoinEdgeAt(m, context, parents[..|parents| - 1], r);
    } else {
      assert parents[|parents| - 1] in parents;
    }
  }

  ghost predicate SeedRecord(m: Mapping, seen: set<Context>, r: Record) {
    match r
    case Node(id) => exists c :: c in seen && id == ContextNode(m, c)
    case Edge(source, target, kind) =>
      kind.Joined? && exists p, c ::
        p in seen && c in seen && source == ContextNode(m, p) && target == ContextNode(m, c)
  }

  lemma SeedRecordMore(m: Mapping, seen: set<Context>, more: set<Context>, r: Record)
    requires SeedRecord(m, seen, r) && seen <= more
    ensures SeedRecord(m, more, r)
  {
  }

  /** The records one entry adds. */
  function EntryRecords(m: Mapping, e: Entry): seq<Record> {
    [Node(ContextNode(m, e.context))]
    + if e.context !in m.roots && e.parents.Some? then JoinEdges(m, e.context, e.parents.value) else []
  }

  lemma EntryShape(m: Mapping, seen: set<Context>, e: Entry, r: Record)
    requires FaultOf(seen, e).None? && (e.kind.RequestEntry? ==> e.context in m.roots) && r in EntryRecords(m, e)
    ensures SeedRecord(m, seen + {e.context}, r)
  {
    if r != Node(ContextNode(m, e.context)) {
      JoinEdgeAt(m, e.context, e.parents.value, r);
    }
  }

  lemma SeedStep(m: Mapping, entries: seq<Entry>)
    requires entries != []
    ensures SeedOf(m, entries) == SeedOf(m, entries[..|entries| - 1]) + EntryRecords(m, entries[|entries| - 1])
    ensures Node(ContextNode(m, entries[|entries| - 1].context)) in SeedOf(m, entries)
  {
    hide JoinEdges;
    var e := entries[|entries| - 1];
    assert EntryRecords(m, e)[0] == Node(ContextNode(m, e.context));
  }

  lemma {:induction false} SeedShape(m: Mapping, entries: seq<Entry>)
    requires Loadable(entries) && forall r :: r in entries && r.kind.RequestEntry? ==> r.context in m.roots
    ensures forall r :: r in SeedOf(m, entries) ==> SeedRecord(m, Seen(entries), r)
    ensures forall c :: c in Seen(entries) ==> Node(ContextNode(m, c)) in SeedOf(m, entries)
  {
    hide SeedRecord, EntryRecords, FaultOf, ContextNode;
    if entries != [] {
      var n := |entries| - 1;
      var front := entries[..n];
      var e := entries[n];
      LoadablePrefix(entries, n);
      SeedShape(m, front);
      SeedStep(m, entries);
      MappingStep(entries);
      forall r | r in SeedOf(m, entries) ensures SeedRecord(m, Seen(entries), r) {
        if r in SeedOf(m, front) {
          SeedRecordMore(m, Seen(front), Seen(entries), r);
        } else {
          assert FaultOf(Seen(front), e).None?;
          EntryShape(m, Seen(front), e, r);
        }
      }
    }
  }

  /** The seed graph of every loadable map is what the provenance results start from. */
  lemma LoadedGraphSeeded(entries: seq<Entry>)
    requires Loadable(entries)
    ensures Provenance.Seeded(MappingOf(entries), SeedOf(MappingOf(entries), entries))
  {
    hide SeedOf, OwnersOf, FaultOf, Loadable;
    LoadedMappingValid(entries);
    SeedShape(MappingOf(entries), entries);
    SeededBy(MappingOf(entries), SeedOf(MappingOf(entries), entries));
  }

  lemma SeededBy(m: Mapping, g: seq<Record>)
    requires forall r :: r in g ==> SeedRecord(m, m.owners.Keys, r)
    requires forall c :: c in m.owners ==> Node(ContextNode(m, c)) in g
    ensures Provenance.Seeded(m, g)
  {
    forall r | r in g
      ensures Provenance.Shaped(r) && !Provenance.Walk(r)
      ensures r.Edge? ==> Node(r.source) in g && Node(r.target) in g
    {
      assert SeedRecord(m, m.owners.Keys, r);
    }
    forall r | r in g && r.Node? ensures Provenance.Claim(m, Initial([]), r.id).Some? {
      assert SeedRecord(m, m.owners.Keys, r);
    }
    hide SeedRecord;
  }
}
