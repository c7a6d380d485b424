/** What loading the request map accepts and computes, said of its entries alone. */
module MapMeaning {
  import opened Trace
  import opened Attribution
  import opened RequestMap
  import SocketReads

  /** The context is a positive 64-bit number no earlier entry has. */
  predicate Numbered(entries: seq<Entry>, i: nat)
    requires i < |entries|
  {
    && 0 < entries[i].context < 0x1_0000_0000_0000_0000
    && forall j :: 0 <= j < i ==> entries[j].context != entries[i].context
  }

  /** A join names at least one parent, all of them earlier entries. */
  predicate Joins(entries: seq<Entry>, i: nat)
    requires i < |entries|
  {
    && entries[i].parents.Some? && entries[i].parents.value != []
    && forall p :: p in entries[i].parents.value ==> exists j :: 0 <= j < i && entries[j].context == p
  }

  predicate NamedTwice(entries: seq<Entry>, i: nat)
    requires i < |entries| && entries[i].parents.Some?
  {
    var parents := entries[i].parents.value;
    exists a, b :: 0 <= a < b < |parents| && parents[a] == parents[b]
  }

  predicate EntryRight(entries: seq<Entry>, i: nat)
    requires i < |entries|
  {
    && Numbered(entries, i)
    && (entries[i].kind.RequestEntry?
        || (entries[i].kind.JoinEntry? && Joins(entries, i) && !NamedTwice(entries, i)))
  }

  lemma SeenMeans(entries: seq<Entry>, i: nat, c: Context)
    requires i <= |entries|
    ensures c in Seen(entries[..i]) <==> exists j :: 0 <= j < i && entries[j].context == c
  {
    if c in Seen(entries[..i]) {
      var r :| r in entries[..i] && r.context == c;
      var j :| 0 <= j < i && entries[..i][j] == r;
      assert entries[j].context == c;
    }
    if j :| 0 <= j < i && entries[j].context == c { assert entries[..i][j] in entries[..i]; }
  }

  /** Which fault an entry has: its number first, then its kind, its parents, their repetition. */
  lemma FaultMeans(entries: seq<Entry>, i: nat)
    requires i < |entries|
    ensures var fault := FaultOf(Seen(entries[..i]), entries[i]);
            var joins := entries[i].kind.JoinEntry?;
            && (fault == Some(BadContext) <==> !Numbered(entries, i))
            && (fault == Some(BadKind) <==> Numbered(entries, i) && entries[i].kind.OtherEntry?)
            && (fault == Some(BadParent) <==> Numbered(entries, i) && joins && !Joins(entries, i))
            && (fault == Some(DuplicateParent) <==>
                Numbered(entries, i) && joins && Joins(entries, i) && NamedTwice(entries, i))
            && (fault == None <==> EntryRight(entries, i))
  {
    forall c ensures c in Seen(entries[..i]) <==> exists j :: 0 <= j < i && entries[j].context == c {
      SeenMeans(entries, i, c);
    }
    hide Seen;
  }

  /** The map loads exactly if every entry is right where it stands. */
  lemma LoadableMeans(entries: seq<Entry>)
    ensures Loadable(entries) <==> forall i :: 0 <= i < |entries| ==> EntryRight(entries, i)
  {
    forall i | 0 <= i < |entries| ensures FaultOf(Seen(entries[..i]), entries[i]).None? <==> EntryRight(entries, i) {
      FaultMeans(entries, i);
    }
    hide FaultOf, EntryRight;
  }

  // ----- owners --------------------------------------------------------------------------------

  /** A request owns itself; a join owns what its parents own. */
  ghost predicate OwnersRight(entries: seq<Entry>, owners: map<Context, set<Context>>, i: nat)
    requires i < |entries|
  {
    var r := entries[i];
    && r.context in owners
    && (r.kind.RequestEntry? ==> owners[r.context] == {r.context})
    && (r.kind.JoinEntry? && r.parents.Some? ==>
          forall c :: c in owners[r.context] <==>
            exists p :: p in r.parents.value && p in owners && c in owners[p])
  }

  lemma {:induction false} OwnerKeys(entries: seq<Entry>, c: Context)
    ensures c in OwnersOf(entries) <==> exists i :: 0 <= i < |entries| && entries[i].context == c
  {
    if entries != [] {
      var n := |entries| - 1;
      OwnerKeys(entries[..n], c);
      if i :| 0 <= i < |entries| && entries[i].context == c { assert i < n ==> entries[..n][i].context == c; }
    }
  }

  lemma {:induction false} OwnersMean(entries: seq<Entry>, i: nat)
    requires Loadable(entries) && i < |entries|
    ensures OwnersRight(entries, OwnersOf(entries), i)
  {
    var n := |entries| - 1;
    LoadablePrefix(entries, n);
    FaultMeans(entries, n);
    LoadableMeans(entries);
    OwnerKeys(entries[..n], entries[n].context);
    hide OwnersRight, Loadable, OwnersOf;
    assert EntryRight(entries, n);
    assert entries[n].context !in OwnersOf(entries[..n]);
    if i < n {
      OwnersMean(entries[..n], i);
      OwnersLater(entries, OwnersOf(entries[..n]), OwnersOf(entries), i);
    } else {
      OwnersLast(entries, OwnersOf(entries[..n]), OwnersOf(entries));
    }
  }

  lemma OwnersLater(entries: seq<Entry>, before: map<Context, set<Context>>, after: map<Context, set<Context>>, i: nat)
    requires i + 1 < |entries| && before == OwnersOf(entries[..|entries| - 1]) && after == OwnersOf(entries)
    requires Loadable(entries) && OwnersRight(entries[..|entries| - 1], before, i)
    requires entries[|entries| - 1].context !in before
    ensures OwnersRight(entries, after, i)
  {
    LoadableMeans(entries);
    assert EntryRight(entries, i) && EntryRight(entries, |entries| - 1);
    var r := entries[i];
    if r.kind.JoinEntry? && r.parents.Some? {
      forall p | p in r.parents.value ensures p != entries[|entries| - 1].context {
        var j :| 0 <= j < i && entries[j].context == p;
      }
    }
  }

  lemma OwnersLast(entries: seq<Entry>, before: map<Context, set<Context>>, after: map<Context, set<Context>>)
    requires entries != [] && before == OwnersOf(entries[..|entries| - 1]) && after == OwnersOf(entries)
    requires Loadable(entries) && entries[|entries| - 1].context !in before
    ensures OwnersRight(entries, after, |entries| - 1)
  {
    LoadableMeans(entries);
    var n := |entries| - 1;
    assert EntryRight(entries, n);
    var r := entries[n];
    if r.kind.JoinEntry? && r.parents.Some? {
      forall p | p in r.parents.value ensures p != r.context { var j :| 0 <= j < n && entries[j].context == p; }
    }
  }

  // ----- the first records of the graph ----------------------------------------------------------

  predicate EntryNode(r: Entry, x: NodeId) {
    x == if r.kind.RequestEntry? then RequestNode(r.context) else JoinNode(r.context)
  }

  /** What the map draws: a node for each entry, and a joined edge to each join from each of its parents. */
  ghost predicate MapDraws(entries: seq<Entry>, r: Record) {
    match r
    case Node(x) => exists i :: 0 <= i < |entries| && EntryNode(entries[i], x)
    case Edge(x, y, kind) =>
      kind.Joined? && exists i, j ::
        && 0 <= i < |entries| && 0 <= j < |entries| && entries[j].kind.JoinEntry? && entries[j].parents.Some?
        && entries[i].context in entries[j].parents.value && EntryNode(entries[i], x) && EntryNode(entries[j], y)
  }

  lemma {:induction false} JoinEdgesMean(m: Mapping, context: Context, parents: seq<Context>, r: Record)
    ensures r in JoinEdges(m, context, parents) <==>
            r.Edge? && r.kind.Joined? && r.target == ContextNode(m, context)
            && exists p :: p in parents && r.source == ContextNode(m, p)
  {
    if parents != [] {
      var n := |parents| - 1;
      JoinEdgesMean(m, context, parents[..n], r);
      assert parents == parents[..n] + [parents[n]];
    }
  }

  ghost predicate EntryDraws(m: Mapping, e: Entry, r: Record) {
    || r == Node(ContextNode(m, e.context))
    || (e.context !in m.roots && e.parents.Some? && r.Edge? && r.kind.Joined? && r.target == ContextNode(m, e.context)
        && exists p :: p in e.parents.value && r.source == ContextNode(m, p))
  }

  ghost predicate SomeDraws(m: Mapping, entries: seq<Entry>, r: Record) {
    exists i :: 0 <= i < |entries| && EntryDraws(m, entries[i], r)
  }

  lemma SomeMore(m: Mapping, entries: seq<Entry>, r: Record)
    requires entries != []
    ensures var n := |entries| - 1;
            SomeDraws(m, entries, r) <==> SomeDraws(m, entries[..n], r) || EntryDraws(m, entries[n], r)
  {
    hide EntryDraws;
    var n := |entries| - 1;
    if i :| 0 <= i < |entries| && EntryDraws(m, entries[i], r) {
      assert i < n ==> entries[..n][i] == entries[i];
    }
    if i :| 0 <= i < n && EntryDraws(m, entries[..n][i], r) { assert entries[..n][i] == entries[i]; }
  }

  lemma {:induction false} SeedParts(m: Mapping, entries: seq<Entry>, r: Record)
    ensures r in SeedOf(m, entries) <==> SomeDraws(m, entries, r)
  {
    hide EntryDraws;
    if entries != [] {
      SeedParts(m, entries[..|entries| - 1], r);
      LastDraws(m, entries, r);
      SomeMore(m, entries, r);
      hide SeedOf, SomeDraws;
    }
  }

  lemma LastDraws(m: Mapping, entries: seq<Entry>, r: Record)
    requires entries != []
    ensures var n := |entries| - 1;
            r in SeedOf(m, entries) <==> r in SeedOf(m, entries[..n]) || EntryDraws(m, entries[n], r)
  {
    var e := entries[|entries| - 1];
    if e.parents.Some? { JoinEdgesMean(m, e.context, e.parents.value, r); }
    hide JoinEdges;
  }

  lemma NodeOf(entries: seq<Entry>, i: nat, x: NodeId)
    requires Loadable(entries) && i < |entries|
    ensures x == ContextNode(MappingOf(entries), entries[i].context) <==> EntryNode(entries[i], x)
    ensures entries[i].context in MappingOf(entries).roots <==> entries[i].kind.RequestEntry?
  {
    LoadableMeans(entries);
    var roots := MappingOf(entries).roots;
    if entries[i].context in roots {
      var r :| r in entries && r.kind.RequestEntry? && r.context == entries[i].context;
      var j :| 0 <= j < |entries| && entries[j] == r;
      assert EntryRight(entries, i) && EntryRight(entries, j);
    }
    assert entries[i] in entries;
  }

  /** Of a loaded map, the graph starts with exactly these records. */
  lemma SeedMeans(entries: seq<Entry>, r: Record)
    requires Loadable(entries)
    ensures r in SeedOf(MappingOf(entries), entries) <==> MapDraws(entries, r)
  {
    var m := MappingOf(entries);
    SeedParts(m, entries, r);
    LoadableMeans(entries);
    forall i | 0 <= i < |entries|
      ensures EntryDraws(m, entries[i], r) <==> EntryMapDraws(entries, i, r)
    {
      EntrySeed(entries, i, r);
    }
    hide Loadable, EntryDraws, MappingOf, SeedOf, EntryNode;
  }

  ghost predicate EntryMapDraws(entries: seq<Entry>, j: nat, r: Record)
    requires j < |entries|
  {
    match r
    case Node(x) => EntryNode(entries[j], x)
    case Edge(x, y, kind) =>
      && kind.Joined? && entries[j].kind.JoinEntry? && entries[j].parents.Some? && EntryNode(entries[j], y)
      && exists i :: 0 <= i < |entries| && entries[i].context in entries[j].parents.value && EntryNode(entries[i], x)
  }

  lemma EntrySeed(entries: seq<Entry>, j: nat, r: Record)
    requires Loadable(entries) && j < |entries|
    ensures EntryDraws(MappingOf(entries), entries[j], r) <==> EntryMapDraws(entries, j, r)
  {
    LoadableMeans(entries);
    assert EntryRight(entries, j);
    var m := MappingOf(entries);
    match r {
      case Node(x) => NodeOf(entries, j, x);
      case Edge(x, y, kind) =>
        NodeOf(entries, j, y);
        forall i | 0 <= i < |entries| ensures x == ContextNode(m, entries[i].context) <==> EntryNode(entries[i], x) {
          NodeOf(entries, i, x);
        }
        if entries[j].kind.JoinEntry? {
          ParentsAreEntries(m, entries, j, x);
        }
    }
    hide Loadable, MappingOf, EntryNode;
  }

  lemma ParentsAreEntries(m: Mapping, entries: seq<Entry>, j: nat, x: NodeId)
    requires j < |entries| && EntryRight(entries, j) && entries[j].kind.JoinEntry?
    requires forall i :: 0 <= i < |entries| ==> (x == ContextNode(m, entries[i].context) <==> EntryNode(entries[i], x))
    ensures (exists p :: p in entries[j].parents.value && x == ContextNode(m, p)) <==>
            exists i :: 0 <= i < |entries| && entries[i].context in entries[j].parents.value && EntryNode(entries[i], x)
  {
    if p :| p in entries[j].parents.value && x == ContextNode(m, p) {
      var i :| 0 <= i < j && entries[i].context == p;
      assert EntryNode(entries[i], x);
    }
  }
}
