/** The shared-ring adapter's batch checks, and the order of time they establish. */
module SharedBatches {
  import opened Trace
  import opened JoinObservations

  /** The traced write that published an observation: its interval, whether it ran inside an IPC
      job, and how many requests it is attributed to. */
  datatype Witness = Witness(start: int, completion: Option<int>, inJob: bool, requests: nat)

  datatype Row = Row(record: Record, batch: int, seen: Witness)

  /** The arguments of a completion-waiting enter: ring, submissions, completions awaited. */
  datatype Waiting = Waiting(ring: int, submit: int, wait: int)
  datatype Enter = Enter(start: int, completion: Option<int>, returned: Option<int>, waiting: Option<Waiting>,
                         requests: nat)
  datatype Setup = Setup(ring: int, completion: Option<int>)

  function Records(rows: seq<Row>): (r: seq<Record>)
    ensures |r| == |rows| && forall i :: 0 <= i < |rows| ==> r[i] == rows[i].record
  {
    seq(|rows|, i requires 0 <= i < |rows| => rows[i].record)
  }

  // ----- grouping ------------------------------------------------------------------------------------

  function GroupOf(rows: seq<Row>, batch: int): seq<Row> {
    if rows == [] then []
    else GroupOf(rows[..|rows| - 1], batch) + if rows[|rows| - 1].batch == batch then [rows[|rows| - 1]] else []
  }

  function Sqes(group: seq<Row>): seq<Row> {
    if group == [] then []
    else Sqes(group[..|group| - 1]) + if group[|group| - 1].record.kind.Sqe? then [group[|group| - 1]] else []
  }

  function Cqes(group: seq<Row>): seq<Row> {
    if group == [] then []
    else Cqes(group[..|group| - 1]) + if group[|group| - 1].record.kind.Cqe? then [group[|group| - 1]] else []
  }

  lemma {:induction false} GroupMembers(rows: seq<Row>, batch: int)
    ensures forall r :: r in GroupOf(rows, batch) <==> r in rows && r.batch == batch
  {
    if rows != [] {
      assert rows == rows[..|rows| - 1] + [rows[|rows| - 1]];
      GroupMembers(rows[..|rows| - 1], batch);
    }
  }

  lemma {:induction false} KindMembers(group: seq<Row>)
    ensures forall r :: r in Sqes(group) <==> r in group && r.record.kind.Sqe?
    ensures forall r :: r in Cqes(group) <==> r in group && r.record.kind.Cqe?
  {
    if group != [] {
      assert group == group[..|group| - 1] + [group[|group| - 1]];
      KindMembers(group[..|group| - 1]);
    }
  }

  /** A submission (completion) of batch b. */
  predicate InSqes(rows: seq<Row>, b: int, r: Row) { r in rows && r.batch == b && r.record.kind.Sqe? }
  predicate InCqes(rows: seq<Row>, b: int, r: Row) { r in rows && r.batch == b && r.record.kind.Cqe? }

  lemma BatchMembers(rows: seq<Row>, b: int)
    ensures forall r :: r in Sqes(GroupOf(rows, b)) <==> InSqes(rows, b, r)
    ensures forall r :: r in Cqes(GroupOf(rows, b)) <==> InCqes(rows, b, r)
  {
    GroupMembers(rows, b);
    KindMembers(GroupOf(rows, b));
  }

  function Done(w: Witness): int { if w.completion.Some? then w.completion.value else 0 }

  /** The latest completion in a group. */
  function Latest(group: seq<Row>): int
    requires group != []
  {
    var last := Done(group[|group| - 1].seen);
    if |group| == 1 then last
    else
      var rest := Latest(group[..|group| - 1]);
      if rest >= last then rest else last
  }

  lemma {:induction false} LatestIsUpper(group: seq<Row>, r: Row)
    requires r in group
    ensures Done(r.seen) <= Latest(group)
  {
    if |group| > 1 && r in group[..|group| - 1] { LatestIsUpper(group[..|group| - 1], r); }
  }

  // ----- what is accepted -----------------------------------------------------------------------------

  predicate SqeInTime(r: Row, previous: int, e: Enter) {
    && r.seen.inJob && r.seen.requests == 1
    && previous <= r.seen.start && r.seen.completion.Some? && r.seen.completion.value <= e.start
  }

  predicate CqeInTime(rows: seq<Row>, b: int, r: Row, e: Enter) {
    && (exists s :: s in rows && s.batch == b && s.record.kind.Sqe? && s.record.identity == r.record.identity)
    && e.completion.Some? && e.completion.value <= r.seen.start
    && r.seen.requests == 0 && r.seen.completion.Some?
  }

  predicate Full(e: Enter, ring: int, count: int) {
    e.returned == Some(count) && count >= 1 && e.waiting == Some(Waiting(ring, count, count)) && e.requests == 0
  }

  /** When batch b may start: after the setup or the last completion of batch b - 1. */
  function Previous(rows: seq<Row>, setup: Setup, b: int): int {
    if b <= 1 then (if setup.completion.Some? then setup.completion.value else 0)
    else
      var before := Cqes(GroupOf(rows, b - 1));
      if before == [] then 0 else Latest(before)
  }

  predicate BatchOk(rows: seq<Row>, setup: Setup, b: int, e: Enter) {
    var sqes, cqes := Sqes(GroupOf(rows, b)), Cqes(GroupOf(rows, b));
    && sqes != [] && |sqes| == |cqes| && Full(e, setup.ring, |sqes|)
    && (forall r :: r in sqes ==> SqeInTime(r, Previous(rows, setup, b), e))
    && (forall r :: r in cqes ==> CqeInTime(rows, b, r, e))
  }

  predicate BatchAt(rows: seq<Row>, setup: Setup, enters: seq<Enter>, b: int) {
    1 <= b <= |enters| && BatchOk(rows, setup, b, enters[b - 1])
  }

  /** No kind and identity occurs twice. */
  predicate Distinct(rows: seq<Row>) {
    forall i, j ::
      0 <= i < j < |rows| ==>
        !(rows[i].record.kind == rows[j].record.kind && rows[i].record.identity == rows[j].record.identity)
  }

  predicate Numbered(rows: seq<Row>, n: nat) {
    && (forall r :: r in rows ==> 1 <= r.batch <= n)
    && (forall b :: 1 <= b <= n ==> GroupOf(rows, b) != [])
  }

  ghost predicate Accepts(rows: seq<Row>, setup: Setup, enters: seq<Enter>) {
    && Distinct(rows) && WellFormed(Records(rows)) && Numbered(rows, |enters|) && setup.completion.Some?
    && forall b :: 1 <= b <= |enters| ==> BatchAt(rows, setup, enters, b)
  }

  method CheckSqes(sqes: seq<Row>, previous: int, e: Enter) returns (ok: bool)
    ensures ok <==> forall r :: r in sqes ==> SqeInTime(r, previous, e)
  {
    var i := 0;
    while i < |sqes|
      invariant 0 <= i <= |sqes| && forall j :: 0 <= j < i ==> SqeInTime(sqes[j], previous, e)
    {
      if !SqeInTime(sqes[i], previous, e) { return false; }
      i := i + 1;
    }
    return true;
  }

  method CheckCqes(rows: seq<Row>, b: int, cqes: seq<Row>, e: Enter) returns (ok: bool)
    ensures ok <==> forall r :: r in cqes ==> CqeInTime(rows, b, r, e)
  {
    var i := 0;
    while i < |cqes|
      invariant 0 <= i <= |cqes| && forall j :: 0 <= j < i ==> CqeInTime(rows, b, cqes[j], e)
    {
      if !CqeInTime(rows, b, cqes[i], e) { return false; }
      i := i + 1;
    }
    return true;
  }

  /** Every batch against its enter, carrying the previous batch's last completion. */
  method CheckBatches(rows: seq<Row>, setup: Setup, enters: seq<Enter>) returns (ok: bool)
    requires setup.completion.Some?
    ensures ok <==> forall b :: 1 <= b <= |enters| ==> BatchAt(rows, setup, enters, b)
  {
    hide SqeInTime, CqeInTime, Full, GroupOf, Sqes, Cqes, Latest;
    var previous := setup.completion.value;
    var b := 1;
    while b <= |enters|
      invariant 1 <= b <= |enters| + 1 && previous == Previous(rows, setup, b)
      invariant forall c :: 1 <= c < b ==> BatchAt(rows, setup, enters, c)
    {
      var enter := enters[b - 1];
      var sqes, cqes := Sqes(GroupOf(rows, b)), Cqes(GroupOf(rows, b));
      if sqes == [] || |sqes| != |cqes| || !Full(enter, setup.ring, |sqes|) {
        assert !BatchAt(rows, setup, enters, b);
        return false;
      }
      var prepared := CheckSqes(sqes, previous, enter);
      var completed := CheckCqes(rows, b, cqes, enter);
      assert BatchAt(rows, setup, enters, b) <==> prepared && completed;
      if !prepared || !completed { return false; }
      previous := Latest(cqes);
      b := b + 1;
    }
    return true;
  }

  method SharedGraph(rows: seq<Row>, setup: Setup, enters: seq<Enter>) returns (r: Joined)
    ensures r.Operations? <==> Accepts(rows, setup, enters)
    ensures r.Operations? ==> JoinedUpTo(Records(rows), |rows|, r.operations)
  {
    hide WellFormed, BatchAt, JoinedUpTo, GroupOf;
    if !Distinct(rows) { return Refused; }
    r := Join(Records(rows));
    if r.Operations? {
      if !Numbered(rows, |enters|) || setup.completion.None? { return Refused; }
      var ok := CheckBatches(rows, setup, enters);
      if !ok { return Refused; }
    }
  }

  // ----- what is accepted, row by row ------------------------------------------------------------------

  /** No sooner than the setup and every completion of the batch before. */
  ghost predicate AfterPrevious(rows: seq<Row>, setup: Setup, r: Row) {
    && (r.batch == 1 ==> setup.completion.Some? && setup.completion.value <= r.seen.start)
    && forall c :: c in rows && c.record.kind.Cqe? && c.batch == r.batch - 1 ==> Done(c.seen) <= r.seen.start
  }

  /** A submission was written inside a job of one request, after the batch before and before its enter. */
  ghost predicate PreparedRight(rows: seq<Row>, setup: Setup, enters: seq<Enter>, r: Row) {
    && 1 <= r.batch <= |enters|
    && r.seen.inJob && r.seen.requests == 1 && AfterPrevious(rows, setup, r)
    && (exists done :: r.seen.completion == Some(done) && done <= enters[r.batch - 1].start)
  }

  /** A completion was written outside any request after its enter had returned, for a submission of
      its own batch. */
  ghost predicate ReapedRight(rows: seq<Row>, enters: seq<Enter>, r: Row) {
    && 1 <= r.batch <= |enters|
    && r.seen.requests == 0 && r.seen.completion.Some?
    && (exists back :: enters[r.batch - 1].completion == Some(back) && back <= r.seen.start)
    && (exists s :: s in rows && s.record.kind.Sqe? && s.batch == r.batch && s.record.identity == r.record.identity)
  }

  /** An enter submitted and awaited its whole batch, on the ring set up, under no single request. */
  ghost predicate EnterRight(rows: seq<Row>, setup: Setup, enters: seq<Enter>, b: int)
    requires 1 <= b <= |enters|
  {
    var n, e := |Sqes(GroupOf(rows, b))|, enters[b - 1];
    && n >= 1 && |Cqes(GroupOf(rows, b))| == n && e.returned == Some(n) && e.requests == 0
    && e.waiting.Some? && e.waiting.value.ring == setup.ring && e.waiting.value.submit == n && e.waiting.value.wait == n
  }

  lemma {:induction false} LatestIsOne(group: seq<Row>)
    requires group != []
    ensures exists r :: r in group && Done(r.seen) == Latest(group)
  {
    if |group| > 1 {
      LatestIsOne(group[..|group| - 1]);
      var r :| r in group[..|group| - 1] && Done(r.seen) == Latest(group[..|group| - 1]);
      assert r in group;
    }
    assert group[|group| - 1] in group;
  }

  /** What a batch may not overlap is everything of the batch before. */
  lemma PreviousMeans(rows: seq<Row>, setup: Setup, r: Row)
    requires r.batch >= 1 && setup.completion.Some?
    requires r.batch == 1 ==> forall c :: c in rows ==> c.batch >= 1
    requires r.batch > 1 ==> Cqes(GroupOf(rows, r.batch - 1)) != []
    ensures AfterPrevious(rows, setup, r) <==> Previous(rows, setup, r.batch) <= r.seen.start
  {
    hide GroupOf, Cqes, Sqes, Latest;
    if r.batch > 1 {
      var before := Cqes(GroupOf(rows, r.batch - 1));
      BatchMembers(rows, r.batch - 1);
      LatestIsOne(before);
      forall c | c in before ensures Done(c.seen) <= Latest(before) { LatestIsUpper(before, c); }
      var last :| last in before && Done(last.seen) == Latest(before);
      assert InCqes(rows, r.batch - 1, last);
    }
  }

  lemma BatchMeans(rows: seq<Row>, setup: Setup, enters: seq<Enter>, b: int)
    requires 1 <= b <= |enters| && setup.completion.Some? && forall r :: r in rows ==> r.batch >= 1
    requires b > 1 ==> Cqes(GroupOf(rows, b - 1)) != []
    ensures BatchAt(rows, setup, enters, b) <==>
            && EnterRight(rows, setup, enters, b)
            && (forall r :: InSqes(rows, b, r) ==> PreparedRight(rows, setup, enters, r))
            && (forall r :: InCqes(rows, b, r) ==> ReapedRight(rows, enters, r))
  {
    hide GroupOf, Cqes, Sqes, Latest, Previous, AfterPrevious;
    BatchMembers(rows, b);
    forall r | InSqes(rows, b, r)
      ensures SqeInTime(r, Previous(rows, setup, b), enters[b - 1]) <==> PreparedRight(rows, setup, enters, r)
    {
      PreviousMeans(rows, setup, r);
    }
    forall r | InCqes(rows, b, r)
      ensures CqeInTime(rows, b, r, enters[b - 1]) <==> ReapedRight(rows, enters, r)
    {
    }
    hide SqeInTime, CqeInTime, PreparedRight, ReapedRight;
  }

  /** Rows are accepted exactly if identities are unique and well formed, batches are numbered like
      the enters, and every enter, submission and completion is right where it stands. */
  lemma AcceptedMeans(rows: seq<Row>, setup: Setup, enters: seq<Enter>)
    ensures Accepts(rows, setup, enters) <==>
            && (forall i, j :: 0 <= i < j < |rows| ==>
                  rows[i].record.kind != rows[j].record.kind || rows[i].record.identity != rows[j].record.identity)
            && WellFormed(Records(rows)) && setup.completion.Some?
            && (forall r :: r in rows ==> 1 <= r.batch <= |enters|)
            && (forall b :: 1 <= b <= |enters| ==> EnterRight(rows, setup, enters, b))
            && (forall r :: r in rows && r.record.kind.Sqe? ==> PreparedRight(rows, setup, enters, r))
            && (forall r :: r in rows && r.record.kind.Cqe? ==> ReapedRight(rows, enters, r))
  {
    hide WellFormed, GroupOf, Sqes, Cqes, PreparedRight, ReapedRight, BatchAt, EnterRight, Records;
    if setup.completion.Some? && (forall r :: r in rows ==> 1 <= r.batch <= |enters|) {
      if (forall b :: 1 <= b <= |enters| ==> BatchAt(rows, setup, enters, b))
         || (forall b :: 1 <= b <= |enters| ==> EnterRight(rows, setup, enters, b))
      {
        AllBatches(rows, setup, enters);
      }
    }
  }

  lemma AllBatches(rows: seq<Row>, setup: Setup, enters: seq<Enter>)
    requires setup.completion.Some? && forall r :: r in rows ==> 1 <= r.batch <= |enters|
    requires (forall b :: 1 <= b <= |enters| ==> BatchAt(rows, setup, enters, b))
             || (forall b :: 1 <= b <= |enters| ==> EnterRight(rows, setup, enters, b))
    ensures forall b :: 1 <= b <= |enters| ==> GroupOf(rows, b) != []
    ensures (forall b :: 1 <= b <= |enters| ==> BatchAt(rows, setup, enters, b)) <==>
            && (forall b :: 1 <= b <= |enters| ==> EnterRight(rows, setup, enters, b))
            && (forall r :: r in rows && r.record.kind.Sqe? ==> PreparedRight(rows, setup, enters, r))
            && (forall r :: r in rows && r.record.kind.Cqe? ==> ReapedRight(rows, enters, r))
  {
    hide GroupOf, Sqes, Cqes, PreparedRight, ReapedRight, BatchAt, EnterRight;
    forall b | 1 <= b <= |enters| ensures Cqes(GroupOf(rows, b)) != [] && GroupOf(rows, b) != [] {
      SomethingIn(rows, setup, enters, b);
    }
    forall b | 1 <= b <= |enters|
      ensures BatchAt(rows, setup, enters, b) <==>
              && EnterRight(rows, setup, enters, b)
              && (forall r :: InSqes(rows, b, r) ==> PreparedRight(rows, setup, enters, r))
              && (forall r :: InCqes(rows, b, r) ==> ReapedRight(rows, enters, r))
    {
      BatchMeans(rows, setup, enters, b);
    }
    if forall b :: 1 <= b <= |enters| ==> BatchAt(rows, setup, enters, b) {
      forall r | r in rows ensures BatchAt(rows, setup, enters, r.batch) {}
      assert forall r ::
             r in rows ==> InSqes(rows, r.batch, r) || InCqes(rows, r.batch, r) || r.record.kind.OtherRecord?;
    }
  }

  lemma SomethingIn(rows: seq<Row>, setup: Setup, enters: seq<Enter>, b: int)
    requires 1 <= b <= |enters|
    requires BatchAt(rows, setup, enters, b) || EnterRight(rows, setup, enters, b)
    ensures Cqes(GroupOf(rows, b)) != [] && GroupOf(rows, b) != []
  {
  }

  // ----- what acceptance means ----------------------------------------------------------------------------

  lemma CompletionOf(rows: seq<Row>, setup: Setup, enters: seq<Enter>, s: Row, id: int) returns (c: Row)
    requires WellFormed(Records(rows)) && Numbered(rows, |enters|)
    requires s in rows && s.record.kind.Sqe? && s.record.identity == Some(id)
    ensures c in rows && 1 <= c.batch <= |enters| && c.record.kind.Cqe? && c.record.identity == Some(id)
  {
    var i :| 0 <= i < |rows| && rows[i] == s;
    assert IsSqe(Records(rows), i, id);
    var j: nat :| j < |rows| && IsCqe(Records(rows), j, id);
    c := rows[j];
  }

  lemma SameSubmission(rows: seq<Row>, s: Row, t: Row, id: int)
    requires WellFormed(Records(rows)) && s in rows && t in rows && s.record.kind.Sqe? && t.record.kind.Sqe?
    requires s.record.identity == Some(id) && t.record.identity == Some(id)
    ensures s == t
  {
    var i :| 0 <= i < |rows| && rows[i] == s;
    var k :| 0 <= k < |rows| && rows[k] == t;
    OneSubmission(Records(rows), |rows|, i, k, id);
  }

  /** A batch completes exactly what it submitted. */
  lemma SameIdentities(rows: seq<Row>, setup: Setup, enters: seq<Enter>, b: int, id: int)
    requires Accepts(rows, setup, enters) && 1 <= b <= |enters|
    ensures (exists r :: InSqes(rows, b, r) && r.record.identity == Some(id)) <==>
            (exists r :: InCqes(rows, b, r) && r.record.identity == Some(id))
  {
    hide BatchOk, Distinct, GroupOf, Sqes, Cqes, SqeInTime, Full, Latest;
    if r :| InCqes(rows, b, r) && r.record.identity == Some(id) {
      BatchTimes(rows, setup, enters, b, r);
      var s :| s in rows && s.batch == b && s.record.kind.Sqe? && s.record.identity == r.record.identity;
      assert InSqes(rows, b, s);
    }
    if s :| InSqes(rows, b, s) && s.record.identity == Some(id) {
      var c := CompletionOf(rows, setup, enters, s, id);
      BatchTimes(rows, setup, enters, c.batch, c);
      var t :| t in rows && t.batch == c.batch && t.record.kind.Sqe? && t.record.identity == c.record.identity;
      SameSubmission(rows, s, t, id);
    }
  }

  function SumReturned(enters: seq<Enter>): int {
    if enters == [] then 0
    else
      var e := enters[|enters| - 1];
      SumReturned(enters[..|enters| - 1]) + if e.returned.Some? then e.returned.value else 0
  }

  function SumSqes(rows: seq<Row>, n: nat): nat {
    if n == 0 then 0 else SumSqes(rows, n - 1) + |Sqes(GroupOf(rows, n))|
  }

  function SumCqes(rows: seq<Row>, n: nat): nat {
    if n == 0 then 0 else SumCqes(rows, n - 1) + |Cqes(GroupOf(rows, n))|
  }

  lemma CqesPush(group: seq<Row>, r: Row)
    ensures Cqes(group + [r]) == Cqes(group) + if r.record.kind.Cqe? then [r] else []
    ensures Cqes(group + []) == Cqes(group)
  {
    assert (group + [r])[..|group|] == group && group + [] == group;
  }

  lemma GroupPush(rows: seq<Row>, n: nat)
    requires rows != []
    ensures var last := rows[|rows| - 1];
            GroupOf(rows, n) == GroupOf(rows[..|rows| - 1], n) + if last.batch == n then [last] else []
  {
  }

  lemma {:induction false} SumCqesStep(rows: seq<Row>, n: nat)
    requires rows != []
    ensures var last := rows[|rows| - 1];
            SumCqes(rows, n) == SumCqes(rows[..|rows| - 1], n)
              + if 1 <= last.batch <= n && last.record.kind.Cqe? then 1 else 0
  {
    if n > 0 {
      SumCqesStep(rows, n - 1);
      var front, last := rows[..|rows| - 1], rows[|rows| - 1];
      GroupPush(rows, n);
      CqesPush(GroupOf(front, n), last);
      hide GroupOf, Cqes;
    }
  }

  lemma {:induction false} EveryCqeInABatch(rows: seq<Row>, n: nat)
    requires forall r :: r in rows ==> 1 <= r.batch <= n
    ensures SumCqes(rows, n) == |Completions(Records(rows), |rows|)|
  {
    if rows == [] {
      NoCqes(n);
    } else {
      var front := rows[..|rows| - 1];
      EveryCqeInABatch(front, n);
      SumCqesStep(rows, n);
      CompletionsPrefix(Records(front), Records(rows), |front|);
    }
  }

  lemma {:induction false} NoCqes(n: nat)
    ensures SumCqes([], n) == 0
  {
    if n > 0 { NoCqes(n - 1); }
  }

  lemma {:induction false} CompletionsPrefix(a: seq<Record>, b: seq<Record>, n: nat)
    requires n <= |a| && n <= |b| && a[..n] == b[..n]
    ensures Completions(a, n) == Completions(b, n)
  {
    if n > 0 {
      assert a[n - 1] == a[..n][n - 1] && b[n - 1] == b[..n][n - 1];
      assert a[..n - 1] == a[..n][..n - 1] && b[..n - 1] == b[..n][..n - 1];
      CompletionsPrefix(a, b, n - 1);
    }
  }

  lemma {:induction false} ReturnsAreCqes(rows: seq<Row>, setup: Setup, enters: seq<Enter>)
    requires forall b :: 1 <= b <= |enters| ==> BatchAt(rows, setup, enters, b)
    ensures SumReturned(enters) == SumCqes(rows, |enters|)
  {
    if enters != [] {
      var n := |enters|;
      var front := enters[..n - 1];
      forall b | 1 <= b <= |front| ensures BatchAt(rows, setup, front, b) { assert BatchAt(rows, setup, enters, b); }
      ReturnsAreCqes(rows, setup, front);
      assert BatchAt(rows, setup, enters, n);
    }
  }

  /** The enters' return values sum to the number of operations. */
  lemma ReturnsAreOperations(rows: seq<Row>, setup: Setup, enters: seq<Enter>, operations: seq<Operation>)
    requires Accepts(rows, setup, enters) && JoinedUpTo(Records(rows), |rows|, operations)
    ensures SumReturned(enters) == |operations|
  {
    hide BatchAt, WellFormed, GroupOf;
    ReturnsAreCqes(rows, setup, enters);
    EveryCqeInABatch(rows, |enters|);
  }

  /** Clocks run forwards. */
  predicate Forward(rows: seq<Row>, enters: seq<Enter>) {
    && (forall r :: r in rows ==> r.seen.completion.Some? ==> r.seen.start <= r.seen.completion.value)
    && (forall e :: e in enters ==> e.completion.Some? ==> e.start <= e.completion.value)
  }

  lemma BatchTimes(rows: seq<Row>, setup: Setup, enters: seq<Enter>, b: int, r: Row)
    requires Accepts(rows, setup, enters) && 1 <= b <= |enters|
    ensures InSqes(rows, b, r) ==> SqeInTime(r, Previous(rows, setup, b), enters[b - 1])
    ensures InCqes(rows, b, r) ==> CqeInTime(rows, b, r, enters[b - 1]) && Done(r.seen) <= Previous(rows, setup, b + 1)
  {
    hide SqeInTime, CqeInTime, Full, GroupOf, Sqes, Cqes, WellFormed, Latest, Distinct, Numbered;
    assert BatchAt(rows, setup, enters, b);
    BatchMembers(rows, b);
    var cqes := Cqes(GroupOf(rows, b));
    if InCqes(rows, b, r) { LatestIsUpper(cqes, r); }
  }

  /** Every batch has a submission and a completion. */
  lemma BatchInhabited(rows: seq<Row>, setup: Setup, enters: seq<Enter>, b: int) returns (s: Row, c: Row)
    requires Accepts(rows, setup, enters) && 1 <= b <= |enters|
    ensures InSqes(rows, b, s) && InCqes(rows, b, c)
  {
    hide SqeInTime, CqeInTime, Full, GroupOf, Sqes, Cqes, WellFormed, Latest, Distinct, Numbered;
    assert BatchAt(rows, setup, enters, b);
    BatchMembers(rows, b);
    s, c := Sqes(GroupOf(rows, b))[0], Cqes(GroupOf(rows, b))[0];
    assert s in Sqes(GroupOf(rows, b)) && c in Cqes(GroupOf(rows, b));
  }

  /** A batch takes time: what it waited for is over before its own last completion. */
  lemma BatchTakesTime(rows: seq<Row>, setup: Setup, enters: seq<Enter>, b: int)
    requires Accepts(rows, setup, enters) && Forward(rows, enters) && 1 <= b <= |enters|
    ensures Previous(rows, setup, b) <= Previous(rows, setup, b + 1)
  {
    hide Accepts, Previous;
    var s, c := BatchInhabited(rows, setup, enters, b);
    BatchTimes(rows, setup, enters, b, s);
    BatchTimes(rows, setup, enters, b, c);
    assert enters[b - 1] in enters;
  }

  lemma {:induction false} BatchesInOrder(rows: seq<Row>, setup: Setup, enters: seq<Enter>, b: int, c: int)
    requires Accepts(rows, setup, enters) && Forward(rows, enters) && 1 <= b <= c <= |enters|
    ensures Previous(rows, setup, b) <= Previous(rows, setup, c)
    decreases c
  {
    hide Accepts, Forward, Previous;
    if b < c {
      BatchesInOrder(rows, setup, enters, b, c - 1);
      BatchTakesTime(rows, setup, enters, c - 1);
    }
  }

  /** Time is totally ordered: a batch's submissions are written before its enter, its completions
      after the enter returned, and all of it before any submission of a later batch. */
  lemma TimeOrder(rows: seq<Row>, setup: Setup, enters: seq<Enter>, b: int, r: Row)
    requires Accepts(rows, setup, enters) && Forward(rows, enters) && 1 <= b <= |enters|
    ensures InSqes(rows, b, r) ==> Previous(rows, setup, 1) <= r.seen.start <= Done(r.seen) <= enters[b - 1].start
    ensures InCqes(rows, b, r) ==>
            enters[b - 1].completion.Some? && enters[b - 1].completion.value <= r.seen.start <= Done(r.seen)
    ensures InSqes(rows, b, r) || InCqes(rows, b, r) ==>
              forall c, s :: b < c <= |enters| && InSqes(rows, c, s) ==> Done(r.seen) <= s.seen.start
  {
    hide Accepts, Previous;
    BatchTimes(rows, setup, enters, b, r);
    var first, done := BatchInhabited(rows, setup, enters, b);
    BatchTimes(rows, setup, enters, b, done);
    assert enters[b - 1] in enters;
    BatchesInOrder(rows, setup, enters, 1, b);
    forall c, s | b < c <= |enters| && InSqes(rows, c, s) && (InSqes(rows, b, r) || InCqes(rows, b, r))
      ensures Done(r.seen) <= s.seen.start
    {
      BatchesInOrder(rows, setup, enters, b + 1, c);
      BatchTimes(rows, setup, enters, c, s);
    }
  }
}
