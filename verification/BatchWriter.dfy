/** The server's batch writer: sorted entries, coalesced runs of slots, one reply each. */
module BatchWriter {
  import opened Bytes
  import opened Trace
  import R = Registry

  const WIDTH: nat := 128
  const MAX_SLOT: nat := 99999

  /** A contribution waiting in the batch; `id` stands for its reply channel. */
  datatype Item = Item(id: nat, slot: nat, joined: bool, context: Option<R.CausalContext>)

  datatype Failure = MixedPolicies | NoRegistry | MissingParent | JoinRefused(refusal: R.Refusal)
  datatype Outcome = Written | Failed(failure: Failure)

  datatype Reply = Reply(item: Item, outcome: Outcome)

  type Content = map<nat, Byte>

  // ----- records -------------------------------------------------------------------------------------

  function Digits(n: nat): (d: seq<Byte>)
    ensures d != []
  {
    if n < 10 then [48 + n] else Digits(n / 10) + [48 + n % 10]
  }

  lemma {:induction false} DigitsBound(n: nat, k: nat)
    requires k >= 1 && n < Pow(10, k)
    ensures |Digits(n)| <= k
  {
    if n >= 10 { DigitsBound(n / 10, k - 1); }
  }

  /** "slot:" followed by the number. */
  function Label(slot: nat): seq<Byte> { [115, 108, 111, 116, 58] + Digits(slot) }

  lemma LabelFits(slot: nat)
    requires slot <= MAX_SLOT
    ensures |Label(slot)| <= 10
  {
    assert Pow(10, 2) == 100;
    assert Pow(10, 5) == 100000;
    DigitsBound(slot, 5);
  }

  /** The 128 bytes of a slot. */
  function Record(slot: nat): (r: seq<Byte>)
    requires slot <= MAX_SLOT
    ensures |r| == WIDTH
  {
    LabelFits(slot);
    Label(slot) + seq(WIDTH - |Label(slot)|, _ => 0)
  }

  /** Read digit by digit, as decimal. */
  function Decimal(d: seq<Byte>): int { if d == [] then 0 else Decimal(d[..|d| - 1]) * 10 + d[|d| - 1] - 48 }

  /** The digits are the slot's decimal ones, without leading zeros. */
  lemma {:induction false} DigitsMean(n: nat)
    ensures forall i :: 0 <= i < |Digits(n)| ==> 48 <= Digits(n)[i] <= 57
    ensures Decimal(Digits(n)) == n && (n > 0 ==> Digits(n)[0] != 48)
  {
    if n >= 10 { DigitsMean(n / 10); }
  }

  /** A record is the text `slot:` and the slot in decimal, then zeros. */
  lemma RecordMeans(slot: nat)
    requires slot <= MAX_SLOT
    ensures exists n ::
            && 6 <= n <= 10 && Decimal(Record(slot)[5..n]) == slot
            && (forall i :: 0 <= i < 5 ==> Record(slot)[i] == "slot:"[i] as int)
            && (forall i :: 5 <= i < n ==> 48 <= Record(slot)[i] <= 57) && (slot > 0 ==> Record(slot)[5] != 48)
            && (forall i :: n <= i < 128 ==> Record(slot)[i] == 0)
  {
    hide Digits;
    LabelFits(slot);
    DigitsMean(slot);
    var n := 5 + |Digits(slot)|;
    assert Record(slot)[5..n] == Digits(slot);
    assert forall i :: 0 <= i < 5 ==> Record(slot)[i] == [115, 108, 111, 116, 58][i];
    assert forall i :: 5 <= i < n ==> Record(slot)[i] == Digits(slot)[i - 5];
  }

  predicate InRange(items: seq<Item>) { forall e :: e in items ==> e.slot <= MAX_SLOT }

  function Records(group: seq<Item>): (r: seq<Byte>)
    requires InRange(group)
    ensures |r| == |group| * WIDTH
  {
    if group == [] then [] else Records(group[..|group| - 1]) + Record(group[|group| - 1].slot)
  }

  // ----- the file -------------------------------------------------------------------------------------

  function WriteAt(f: Content, at: nat, b: seq<Byte>): Content {
    if b == [] then f else WriteAt(f, at, b[..|b| - 1])[at + |b| - 1 := b[|b| - 1]]
  }

  lemma {:induction false} WriteJoined(f: Content, at: nat, a: seq<Byte>, b: seq<Byte>)
    ensures WriteAt(f, at, a + b) == WriteAt(WriteAt(f, at, a), at + |a|, b)
  {
    if b == [] {
      assert a + b == a;
    } else {
      var n := |b| - 1;
      WriteJoined(f, at, a, b[..n]);
      assert (a + b)[..|a + b| - 1] == a + b[..n];
    }
  }

  /** Each entry's record on its own. */
  function WriteEach(f: Content, group: seq<Item>): Content
    requires InRange(group)
  {
    if group == [] then f
    else
      var e := group[|group| - 1];
      WriteAt(WriteEach(f, group[..|group| - 1]), e.slot * WIDTH, Record(e.slot))
  }

  /** Slots that follow one another. */
  predicate Run(group: seq<Item>) {
    group != [] && forall i :: 0 < i < |group| ==> group[i].slot == group[i - 1].slot + 1
  }

  lemma {:induction false} RunSlots(group: seq<Item>, i: nat)
    requires Run(group) && i < |group|
    ensures group[i].slot == group[0].slot + i
  {
    if i > 0 { RunSlots(group, i - 1); }
  }

  /** Coalescing a run changes nothing about the file. */
  lemma {:induction false} CoalescedIsEach(f: Content, group: seq<Item>)
    requires Run(group) && InRange(group)
    ensures WriteAt(f, group[0].slot * WIDTH, Records(group)) == WriteEach(f, group)
  {
    var n := |group| - 1;
    var front := group[..n];
    RunSlots(group, n);
    WriteJoined(f, group[0].slot * WIDTH, Records(front), Record(group[n].slot));
    if n == 0 {
      assert front == [];
    } else {
      assert InRange(front);
      CoalescedIsEach(f, front);
    }
  }

  // ----- groups ------------------------------------------------------------------------------------------

  function Insert(e: Item, sorted: seq<Item>): seq<Item> {
    if sorted == [] then [e]
    else
      var n := |sorted| - 1;
      if sorted[n].slot <= e.slot then sorted + [e] else Insert(e, sorted[..n]) + [sorted[n]]
  }

  /** Stable sorting by slot. */
  function BySlot(items: seq<Item>): seq<Item> {
    if items == [] then [] else Insert(items[|items| - 1], BySlot(items[..|items| - 1]))
  }

  predicate InOrder(s: seq<Item>) { forall i, j :: 0 <= i < j < |s| ==> s[i].slot <= s[j].slot }

  lemma {:induction false} InsertHolds(e: Item, sorted: seq<Item>)
    ensures multiset(Insert(e, sorted)) == multiset(sorted) + multiset{e}
    ensures forall x :: x in Insert(e, sorted) ==> x == e || x in sorted
  {
    if sorted != [] {
      var n := |sorted| - 1;
      assert sorted == sorted[..n] + [sorted[n]];
      if sorted[n].slot > e.slot { InsertHolds(e, sorted[..n]); }
    }
  }

  lemma {:induction false} InsertOrders(e: Item, sorted: seq<Item>)
    requires InOrder(sorted)
    ensures InOrder(Insert(e, sorted))
  {
    if sorted != [] {
      var n := |sorted| - 1;
      if sorted[n].slot > e.slot {
        InsertOrders(e, sorted[..n]);
        InsertHolds(e, sorted[..n]);
        var r := Insert(e, sorted[..n]);
        forall i | 0 <= i < |r| ensures r[i].slot <= sorted[n].slot { assert r[i] in r; }
      }
    }
  }

  lemma {:induction false} BySlotSorts(items: seq<Item>)
    ensures multiset(BySlot(items)) == multiset(items) && InOrder(BySlot(items))
  {
    if items != [] {
      var n := |items| - 1;
      assert items == items[..n] + [items[n]];
      BySlotSorts(items[..n]);
      InsertHolds(items[n], BySlot(items[..n]));
      InsertOrders(items[n], BySlot(items[..n]));
    }
  }

  /** The entries of one slot, in order. */
  function OfSlot(items: seq<Item>, slot: nat): seq<Item> {
    if items == [] then []
    else
      OfSlot(items[..|items| - 1], slot) + if items[|items| - 1].slot == slot then [items[|items| - 1]] else []
  }

  lemma OfSlotPush(items: seq<Item>, e: Item, slot: nat)
    ensures OfSlot(items + [e], slot) == OfSlot(items, slot) + if e.slot == slot then [e] else []
  {
    assert (items + [e])[..|items|] == items;
  }

  lemma {:induction false} InsertIsStable(e: Item, sorted: seq<Item>, slot: nat)
    ensures OfSlot(Insert(e, sorted), slot) == OfSlot(sorted, slot) + if e.slot == slot then [e] else []
  {
    hide OfSlot;
    OfSlotPush(sorted, e, slot);
    if sorted == [] {
      assert sorted + [e] == [e];
    } else if sorted[|sorted| - 1].slot > e.slot {
      var front, last := sorted[..|sorted| - 1], sorted[|sorted| - 1];
      InsertIsStable(e, front, slot);
      OfSlotPush(Insert(e, front), last, slot);
      OfSlotPush(front, last, slot);
      assert sorted == front + [last];
    }
  }

  /** Contributions to one slot keep the order they came in. */
  lemma {:induction false} BySlotIsStable(items: seq<Item>, slot: nat)
    ensures OfSlot(BySlot(items), slot) == OfSlot(items, slot)
  {
    if items != [] {
      var n := |items| - 1;
      BySlotIsStable(items[..n], slot);
      InsertIsStable(items[n], BySlot(items[..n]), slot);
    }
  }

  function Flatten(groups: seq<seq<Item>>): seq<Item> {
    if groups == [] then [] else Flatten(groups[..|groups| - 1]) + groups[|groups| - 1]
  }

  predicate Breaks(a: seq<Item>, b: seq<Item>) { a != [] && b != [] && b[0].slot != a[|a| - 1].slot + 1 }

  /** The groups are runs, and none can be extended. */
  predicate MaximalRuns(groups: seq<seq<Item>>) {
    && (forall k :: 0 <= k < |groups| ==> Run(groups[k]))
    && (forall k :: 0 < k < |groups| ==> Breaks(groups[k - 1], groups[k]))
  }

  /** The length of the longest run a sequence ends with. */
  function LastRun(s: seq<Item>): nat {
    if |s| <= 1 then |s|
    else if s[|s| - 1].slot == s[|s| - 2].slot + 1 then LastRun(s[..|s| - 1]) + 1
    else 1
  }

  lemma {:induction false} LastRunIs(before: seq<Item>, group: seq<Item>)
    requires Run(group) && (before == [] || Breaks(before, group))
    ensures LastRun(before + group) == |group|
    decreases |group|
  {
    var s := before + group;
    if |group| > 1 {
      LastRunIs(before, group[..|group| - 1]);
      assert s[..|s| - 1] == before + group[..|group| - 1];
    } else if before != [] {
      assert s[|s| - 2] == before[|before| - 1];
    }
  }

  lemma LastOf(groups: seq<seq<Item>>)
    requires MaximalRuns(groups)
    ensures groups == [] <==> Flatten(groups) == []
    ensures groups != [] ==> LastRun(Flatten(groups)) == |groups[|groups| - 1]|
  {
    if groups != [] {
      var n := |groups| - 1;
      var before := Flatten(groups[..n]);
      if n > 0 {
        assert before == Flatten(groups[..n][..n - 1]) + groups[n - 1];
        assert Breaks(groups[n - 1], groups[n]);
        assert before[|before| - 1] == groups[n - 1][|groups[n - 1]| - 1];
      }
      LastRunIs(before, groups[n]);
    }
  }

  lemma SplitLast(groups: seq<seq<Item>>)
    requires groups != []
    ensures var n := |groups| - 1;
            var s := Flatten(groups);
            |groups[n]| <= |s| && s[|s| - |groups[n]|..] == groups[n] && s[..|s| - |groups[n]|] == Flatten(groups[..n])
  {
  }

  /** A sequence splits into maximal runs in only one way. */
  lemma {:induction false} RunsUnique(a: seq<seq<Item>>, b: seq<seq<Item>>)
    requires MaximalRuns(a) && MaximalRuns(b) && Flatten(a) == Flatten(b)
    ensures a == b
    decreases |a|
  {
    LastOf(a);
    LastOf(b);
    if a != [] {
      hide Flatten, LastRun, Run, Breaks;
      var m, n := |a| - 1, |b| - 1;
      SplitLast(a);
      SplitLast(b);
      RunsUnique(a[..m], b[..n]);
      assert a == a[..m] + [a[m]] && b == b[..n] + [b[n]];
    }
  }

  // ----- flushing -----------------------------------------------------------------------------------------

  /** What flushing touches: the registry, the file, and the replies sent. */
  datatype World = World(registry: Option<R.RegistryState>, file: Content, replies: seq<Reply>)

  predicate Mixed(group: seq<Item>)
    requires group != []
  {
    exists e :: e in group && e.joined != group[0].joined
  }

  predicate Orphaned(group: seq<Item>) { exists e :: e in group && e.context.None? }

  function Parents(group: seq<Item>): seq<R.CausalContext> {
    if group == [] then []
    else
      var e := group[|group| - 1];
      Parents(group[..|group| - 1]) + if e.context.Some? then [e.context.value] else []
  }

  /** The registry and outcome after one group. */
  function GroupOutcome(namespace: nat, registry: Option<R.RegistryState>,
                        group: seq<Item>): (Option<R.RegistryState>, Outcome)
    requires group != []
  {
    if Mixed(group) then (registry, Failed(MixedPolicies))
    else if !group[0].joined then (registry, Written)
    else if registry.None? then (registry, Failed(NoRegistry))
    else if Orphaned(group) then (registry, Failed(MissingParent))
    else
      var (state, answer) := R.Respond(namespace, registry.value, R.Join(Parents(group)));
      (Some(state), if answer.Ok? then Written else Failed(JoinRefused(answer.error)))
  }

  lemma {:induction false} ParentsAre(group: seq<Item>)
    requires forall e :: e in group ==> e.context.Some?
    ensures |Parents(group)| == |group|
    ensures forall i :: 0 <= i < |group| ==> Some(Parents(group)[i]) == group[i].context
  {
    if group != [] {
      assert forall e :: e in group[..|group| - 1] ==> e in group;
      assert group[|group| - 1] in group;
      ParentsAre(group[..|group| - 1]);
    }
  }

  /** A group is written exactly if its entries agree on joining and, when they join, there is a
      registry that joins all their contexts, in order; only such a join changes the registry. */
  lemma GroupOutcomeMeans(namespace: nat, registry: Option<R.RegistryState>, group: seq<Item>)
    requires group != []
    ensures var (after, outcome) := GroupOutcome(namespace, registry, group);
            var agreed := forall i, j :: 0 <= i < j < |group| ==> group[i].joined == group[j].joined;
            var whole := forall i :: 0 <= i < |group| ==> group[i].context.Some?;
            && (outcome == Failed(MixedPolicies) <==> !agreed)
            && (outcome == Failed(NoRegistry) <==> agreed && group[0].joined && registry.None?)
            && (outcome == Failed(MissingParent) <==> agreed && group[0].joined && registry.Some? && !whole)
            && (agreed && !group[0].joined ==> outcome.Written?)
            && (agreed && group[0].joined && registry.Some? && whole ==>
                exists parents ::
                  && |parents| == |group| && (forall i :: 0 <= i < |group| ==> group[i].context == Some(parents[i]))
                  && var (state, answer) := R.Respond(namespace, registry.value, R.Join(parents));
                     && after == Some(state) && (outcome.Written? <==> answer.Ok?)
                     && (answer.Err? ==> outcome == Failed(JoinRefused(answer.error))))
            && (!(agreed && group[0].joined && registry.Some? && whole) ==> after == registry)
  {
    hide R.Respond, Parents;
    assert group[0] in group;
    MixedMeans(group);
    if Orphaned(group) {
      var e :| e in group && e.context.None?;
      var i :| 0 <= i < |group| && group[i] == e;
      assert group[i].context.None?;
    } else {
      forall i | 0 <= i < |group| ensures group[i].context.Some? { assert group[i] in group; }
      ParentsAre(group);
    }
  }

  lemma MixedMeans(group: seq<Item>)
    requires group != []
    ensures !Mixed(group) <==> forall i, j :: 0 <= i < j < |group| ==> group[i].joined == group[j].joined
  {
    if Mixed(group) {
      var e :| e in group && e.joined != group[0].joined;
      var i :| 0 <= i < |group| && group[i] == e;
      assert group[0].joined != group[i].joined;
    } else {
      forall i | 0 <= i < |group| ensures group[i].joined == group[0].joined { assert group[i] in group; }
    }
  }

  function RepliesTo(group: seq<Item>, outcome: Outcome): (r: seq<Reply>)
    ensures |r| == |group| && forall i :: 0 <= i < |group| ==> r[i] == Reply(group[i], outcome)
  {
    seq(|group|, i requires 0 <= i < |group| => Reply(group[i], outcome))
  }

  /** One group: every record of a writing group on its own, then a reply to every entry. */
  function FlushGroup(namespace: nat, w: World, group: seq<Item>): World
    requires group != [] && InRange(group)
  {
    var (registry, outcome) := GroupOutcome(namespace, w.registry, group);
    World(registry, if outcome.Written? then WriteEach(w.file, group) else w.file,
          w.replies + RepliesTo(group, outcome))
  }

  predicate Groups(groups: seq<seq<Item>>) { forall k :: 0 <= k < |groups| ==> groups[k] != [] && InRange(groups[k]) }

  function Flush(namespace: nat, w: World, groups: seq<seq<Item>>): World
    requires Groups(groups)
  {
    if groups == [] then w
    else FlushGroup(namespace, Flush(namespace, w, groups[..|groups| - 1]), groups[|groups| - 1])
  }

  class Server {
    const namespace: nat
    const registry: R.ContextRegistry?
    var file: Content
    var replies: seq<Reply>

    constructor (registry: R.ContextRegistry?, file: Content)
      ensures this.registry == registry && this.file == file && replies == []
      ensures registry != null ==> namespace == registry.namespace
    {
      this.namespace := if registry == null then 0 else registry.namespace;
      this.registry := registry;
      this.file := file;
      replies := [];
    }

    ghost function View(): World
      reads this, registry
    {
      World(if registry == null then None else Some(registry.View()), file, replies)
    }

    ghost predicate Valid()
      reads registry
    {
      registry != null ==> registry.namespace == namespace
    }

    /** One zeroed buffer for the group, each label at its record's start. */
    method BuildBuffer(group: seq<Item>) returns (b: seq<Byte>)
      requires InRange(group)
      ensures b == Records(group)
    {
      var bytes := new Byte[|group| * WIDTH](_ => 0);
      var i := 0;
      while i < |group|
        invariant 0 <= i <= |group|
        invariant bytes[..] == Records(group[..i]) + Zeros((|group| - i) * WIDTH)
      {
        var slot := group[i].slot;
        ghost var before := Records(group[..i]);
        LabelFits(slot);
        Store(bytes, i * WIDTH, Label(slot));
        assert group[..i + 1][..i] == group[..i];
        Filled(before, slot, |group| - i);
        i := i + 1;
      }
      assert group[..i] == group && bytes[..] == Records(group) + Zeros(0);
      b := bytes[..];
    }

    method WriteAllAt(b: seq<Byte>, offset: nat)
      modifies this`file
      ensures file == WriteAt(old(file), offset, b)
    {
      var i := 0;
      while i < |b|
        invariant 0 <= i <= |b| && file == WriteAt(old(file), offset, b[..i])
      {
        assert b[..i + 1][..i] == b[..i];
        file := file[offset + i := b[i]];
        i := i + 1;
      }
      assert b[..i] == b;
    }

    /** The shared work of one group: check the policy, join if asked, write once. */
    method Perform(group: seq<Item>) returns (outcome: Outcome)
      requires Valid() && Run(group) && InRange(group)
      modifies this`file, registry
      ensures Valid()
      ensures GroupOutcome(namespace, old(View()).registry, group) == (View().registry, outcome)
      ensures file == if outcome.Written? then WriteEach(old(file), group) else old(file)
      ensures replies == old(replies)
    {
      hide WriteEach, Records, R.Respond, Parents;
      var joined := group[0].joined;
      if Mixed(group) { return Failed(MixedPolicies); }
      if joined {
        if registry == null { return Failed(NoRegistry); }
        if Orphaned(group) { return Failed(MissingParent); }
        var answer := registry.NewJoin(Parents(group));
        if answer.Err? { return Failed(JoinRefused(answer.error)); }
      }
      var bytes := BuildBuffer(group);
      WriteAllAt(bytes, group[0].slot * WIDTH);
      CoalescedIsEach(old(file), group);
      return Written;
    }

    method Send(group: seq<Item>, outcome: Outcome)
      modifies this`replies
      ensures replies == old(replies) + RepliesTo(group, outcome)
    {
      var i := 0;
      while i < |group|
        invariant 0 <= i <= |group| && replies == old(replies) + RepliesTo(group, outcome)[..i]
      {
        replies := replies + [Reply(group[i], outcome)];
        i := i + 1;
      }
    }

    method RunGroup(group: seq<Item>)
      requires Valid() && Run(group) && InRange(group)
      modifies this`file, this`replies, registry
      ensures Valid() && View() == FlushGroup(namespace, old(View()), group)
    {
      hide WriteEach, GroupOutcome;
      var outcome := Perform(group);
      Send(group, outcome);
    }

    /** The longest run at the front of the queue. */
    method TakeRun(pending: seq<Item>) returns (group: seq<Item>, rest: seq<Item>)
      requires pending != []
      ensures Run(group) && group + rest == pending && (rest != [] ==> Breaks(group, rest))
    {
      group, rest := [pending[0]], pending[1..];
      while rest != [] && rest[0].slot == group[|group| - 1].slot + 1
        invariant Run(group) && group + rest == pending
        decreases |rest|
      {
        group := group + [rest[0]];
        rest := rest[1..];
      }
    }

    /** Sort, split into maximal runs, perform each, and reply to every entry of it. */
    method FlushBatch(entries: seq<Item>) returns (ghost groups: seq<seq<Item>>)
      requires Valid() && InRange(entries)
      modifies this`file, this`replies, registry
      ensures Valid()
      ensures MaximalRuns(groups) && Flatten(groups) == BySlot(entries) && Groups(groups)
      ensures View() == Flush(namespace, old(View()), groups)
    {
      hide View, BySlot, Flush, FlushGroup, Flatten, InRange, Groups, MaximalRuns, Run;
      var sorted := BySlot(entries);
      BySlotKeeps(entries);
      var pending := sorted;
      groups := [];
      NoGroups(namespace, View(), pending);
      while pending != []
        invariant Valid() && MaximalRuns(groups) && Groups(groups) && Flatten(groups) + pending == sorted
        invariant groups != [] && pending != [] ==> Breaks(groups[|groups| - 1], pending)
        invariant InRange(pending)
        invariant View() == Flush(namespace, old(View()), groups)
        decreases |pending|
      {
        var group, rest := TakeRun(pending);
        PartsInRange(pending, group, rest);
        RunGroup(group);
        GroupAdded(namespace, old(View()), groups, group, pending, rest);
        groups := groups + [group];
        pending := rest;
      }
    }
  }

  function Zeros(n: nat): (z: seq<Byte>)
    ensures |z| == n && forall i :: 0 <= i < n ==> z[i] == 0
  {
    seq(n, _ => 0)
  }

  /** Copying a label over zeros leaves a record. */
  lemma Filled(before: seq<Byte>, slot: nat, left: nat)
    requires slot <= MAX_SLOT && left >= 1
    ensures |Label(slot)| <= WIDTH
    ensures Put(before + Zeros(left * WIDTH), |before|, Label(slot)) ==
            before + Record(slot) + Zeros((left - 1) * WIDTH)
  {
    LabelFits(slot);
  }

  lemma BySlotKeeps(entries: seq<Item>)
    requires InRange(entries)
    ensures InRange(BySlot(entries))
  {
    BySlotSorts(entries);
    forall e | e in BySlot(entries) ensures e.slot <= MAX_SLOT { assert e in multiset(BySlot(entries)); }
  }

  lemma PartsInRange(all: seq<Item>, group: seq<Item>, pending: seq<Item>)
    requires InRange(all) && group + pending == all
    ensures InRange(group) && InRange(pending)
  {
    forall e | e in group ensures e in all { assert e in group + pending; }
    forall e | e in pending ensures e in all { assert e in group + pending; }
  }

  lemma NoGroups(namespace: nat, w: World, pending: seq<Item>)
    ensures Groups([]) && MaximalRuns([]) && Flush(namespace, w, []) == w && Flatten([]) + pending == pending
  {
  }

  lemma GroupAdded(namespace: nat, w: World, groups: seq<seq<Item>>, group: seq<Item>, pending: seq<Item>,
                   rest: seq<Item>)
    requires Groups(groups) && MaximalRuns(groups) && Run(group) && InRange(group) && group + rest == pending
    requires groups != [] ==> Breaks(groups[|groups| - 1], pending)
    requires rest != [] ==> Breaks(group, rest)
    ensures group != [] && |rest| < |pending|
    ensures Groups(groups + [group]) && MaximalRuns(groups + [group])
    ensures Flush(namespace, w, groups + [group]) == FlushGroup(namespace, Flush(namespace, w, groups), group)
    ensures Flatten(groups + [group]) + rest == Flatten(groups) + pending
  {
    hide FlushGroup;
    assert (groups + [group])[..|groups|] == groups;
    assert Flatten(groups + [group]) == Flatten(groups) + group;
  }

  // ----- what flushing achieves ------------------------------------------------------------------------------

  function Items(replies: seq<Reply>): (r: seq<Item>)
    ensures |r| == |replies| && forall i :: 0 <= i < |r| ==> r[i] == replies[i].item
  {
    seq(|replies|, i requires 0 <= i < |replies| => replies[i].item)
  }

  /** Replies go out in slot order, one for each entry of each group. */
  lemma {:induction false} RepliesInOrder(namespace: nat, w: World, groups: seq<seq<Item>>)
    requires Groups(groups)
    ensures Items(Flush(namespace, w, groups).replies) == Items(w.replies) + Flatten(groups)
  {
    hide GroupOutcome, WriteEach, R.Respond, InRange;
    if groups != [] {
      var n := |groups| - 1;
      FrontGroups(groups);
      RepliesInOrder(namespace, w, groups[..n]);
      var before := Flush(namespace, w, groups[..n]);
      var outcome := GroupOutcome(namespace, before.registry, groups[n]).1;
      LastGroup(namespace, w, groups);
      assert Items(before.replies + RepliesTo(groups[n], outcome)) == Items(before.replies) + groups[n];
    }
  }

  lemma FrontGroups(groups: seq<seq<Item>>)
    requires Groups(groups) && groups != []
    ensures Groups(groups[..|groups| - 1]) && InRange(groups[|groups| - 1]) && groups[|groups| - 1] != []
  {
  }

  lemma LastGroup(namespace: nat, w: World, groups: seq<seq<Item>>)
    requires Groups(groups) && groups != [] && Groups(groups[..|groups| - 1])
    ensures var before := Flush(namespace, w, groups[..|groups| - 1]);
            var group := groups[|groups| - 1];
            var (registry, outcome) := GroupOutcome(namespace, before.registry, group);
            Flush(namespace, w, groups) ==
              World(registry, if outcome.Written? then WriteEach(before.file, group) else before.file,
                    before.replies + RepliesTo(group, outcome))
  {
    hide GroupOutcome, WriteEach, RepliesTo;
  }

  /** Every entry of the batch is answered exactly once. */
  lemma EveryEntryAnswered(namespace: nat, w: World, entries: seq<Item>, groups: seq<seq<Item>>)
    requires Groups(groups) && Flatten(groups) == BySlot(entries)
    ensures multiset(Items(Flush(namespace, w, groups).replies)) == multiset(Items(w.replies)) + multiset(entries)
  {
    RepliesInOrder(namespace, w, groups);
    BySlotSorts(entries);
  }

  // ----- what the file holds --------------------------------------------------------------------------------

  function At(f: Content, o: nat): Option<Byte> { if o in f then Some(f[o]) else None }

  lemma {:induction false} WriteAtByte(f: Content, at: nat, b: seq<Byte>, o: nat)
    ensures At(WriteAt(f, at, b), o) == if at <= o < at + |b| then Some(b[o - at]) else At(f, o)
  {
    if b != [] { WriteAtByte(f, at, b[..|b| - 1], o); }
  }

  ghost predicate HasSlot(group: seq<Item>, slot: nat) { exists e :: e in group && e.slot == slot }

  lemma {:induction false} EachByte(f: Content, group: seq<Item>, o: nat)
    requires InRange(group)
    ensures HasSlot(group, o / WIDTH) ==> o / WIDTH <= MAX_SLOT
    ensures At(WriteEach(f, group), o) ==
            if HasSlot(group, o / WIDTH) then Some(Record(o / WIDTH)[o % WIDTH]) else At(f, o)
  {
    if group != [] {
      var n := |group| - 1;
      var e := group[n];
      assert group == group[..n] + [e];
      assert InRange(group[..n]);
      EachByte(f, group[..n], o);
      WriteAtByte(WriteEach(f, group[..n]), e.slot * WIDTH, Record(e.slot), o);
      assert HasSlot(group, o / WIDTH) <==> HasSlot(group[..n], o / WIDTH) || e.slot == o / WIDTH;
    }
  }

  /** Some reply reports that `slot` was written. */
  ghost predicate Wrote(replies: seq<Reply>, slot: nat) {
    exists r :: r in replies && r.outcome.Written? && r.item.slot == slot
  }

  lemma WroteMore(replies: seq<Reply>, group: seq<Item>, outcome: Outcome, slot: nat)
    ensures Wrote(replies + RepliesTo(group, outcome), slot) <==>
            Wrote(replies, slot) || (outcome.Written? && HasSlot(group, slot))
  {
    var more := RepliesTo(group, outcome);
    if outcome.Written? && HasSlot(group, slot) {
      var e :| e in group && e.slot == slot;
      var i :| 0 <= i < |group| && group[i] == e;
      assert more[i] in replies + more;
    }
    if Wrote(replies, slot) {
      var r :| r in replies && r.outcome.Written? && r.item.slot == slot;
      assert r in replies + more;
    }
  }

  /** The replies tell the truth about the file: each byte belongs to the record of its slot if
      some reply reports that slot written, and is untouched otherwise. */
  lemma {:induction false} RepliesMatchFile(namespace: nat, w: World, groups: seq<seq<Item>>, o: nat)
    requires Groups(groups) && w.replies == []
    ensures var v := Flush(namespace, w, groups);
            && (Wrote(v.replies, o / WIDTH) ==>
                o / WIDTH <= MAX_SLOT && At(v.file, o) == Some(Record(o / WIDTH)[o % WIDTH]))
            && (!Wrote(v.replies, o / WIDTH) ==> At(v.file, o) == At(w.file, o))
  {
    hide GroupOutcome, WriteEach, RepliesTo, InRange, Wrote, At, Record;
    if groups == [] {
      NothingWritten(o / WIDTH);
    } else {
      var n := |groups| - 1;
      FrontGroups(groups);
      RepliesMatchFile(namespace, w, groups[..n], o);
      LastGroup(namespace, w, groups);
      var before := Flush(namespace, w, groups[..n]);
      var outcome := GroupOutcome(namespace, before.registry, groups[n]).1;
      WroteMore(before.replies, groups[n], outcome, o / WIDTH);
      EachByte(before.file, groups[n], o);
    }
  }

  lemma NothingWritten(slot: nat)
    ensures !Wrote([], slot)
  {
  }
}
