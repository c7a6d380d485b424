/** Joining submission and completion records of one ring by identity. */
module JoinObservations {
  import opened Trace

  datatype RecordKind = Sqe | Cqe | OtherRecord

  /** One observation; a field that is not an integer is None. */
  datatype Record = Record(kind: RecordKind, identity: Option<int>, fields: Fields)
  datatype Fields = Fields(flags: Option<int>, opcode: Option<int>, fd: Option<int>, offset: Option<int>,
                           length: Option<int>, result: Option<int>)

  datatype Operation = Operation(identity: int, opcode: int, fd: int, offset: int, requested: int, result: int,
                                 succeeded: bool)

  datatype Joined = Operations(operations: seq<Operation>) | Refused

  const TWO31: int := 0x8000_0000
  const TWO32: int := 0x1_0000_0000
  const TWO64: int := 0x1_0000_0000_0000_0000

  predicate Within(x: Option<int>, lo: int, hi: int) { x.Some? && lo <= x.value < hi }

  predicate SqeFields(f: Fields) {
    && f.flags == Some(0) && (f.opcode == Some(22) || f.opcode == Some(23))
    && Within(f.fd, -TWO31, TWO31) && Within(f.offset, 0, TWO64) && Within(f.length, 0, TWO32)
  }

  predicate CqeFields(f: Fields) { f.flags == Some(0) && Within(f.result, -TWO31, TWO31) }

  /** Record i is the submission (completion) of `id`. */
  predicate IsSqe(records: seq<Record>, i: nat, id: int) {
    i < |records| && records[i].kind.Sqe? && records[i].identity == Some(id)
  }
  predicate IsCqe(records: seq<Record>, i: nat, id: int) {
    i < |records| && records[i].kind.Cqe? && records[i].identity == Some(id)
  }

  ghost predicate Submitted(records: seq<Record>, n: nat, id: int) { exists i: nat :: i < n && IsSqe(records, i, id) }
  ghost predicate Completed(records: seq<Record>, n: nat, id: int) { exists i: nat :: i < n && IsCqe(records, i, id) }

  /** Record j is right where it stands: a new submission, or the first completion of an
      earlier submission, not longer than requested. */
  ghost predicate Right(records: seq<Record>, j: nat)
    requires j < |records|
  {
    var r := records[j];
    && r.identity.Some? && 0 <= r.identity.value < 0x1_0000_0000_0000_0000
    && match r.kind
       case Sqe =>
         && r.fields.flags == Some(0) && (r.fields.opcode == Some(22) || r.fields.opcode == Some(23))
         && r.fields.fd.Some? && -0x8000_0000 <= r.fields.fd.value < 0x8000_0000
         && r.fields.offset.Some? && 0 <= r.fields.offset.value < 0x1_0000_0000_0000_0000
         && r.fields.length.Some? && 0 <= r.fields.length.value < 0x1_0000_0000
         && !Submitted(records, j, r.identity.value)
       case Cqe =>
         && r.fields.flags == Some(0) && r.fields.result.Some? && -0x8000_0000 <= r.fields.result.value < 0x8000_0000
         && Submitted(records, j, r.identity.value) && !Completed(records, j, r.identity.value)
         && forall i: nat :: i < j && IsSqe(records, i, r.identity.value) ==>
              records[i].fields.length.Some? && r.fields.result.value <= records[i].fields.length.value
       case OtherRecord => false
  }

  ghost predicate RightUpTo(records: seq<Record>, n: nat)
    requires n <= |records|
  {
    forall j: nat :: j < n ==> Right(records, j)
  }

  ghost predicate WellFormed(records: seq<Record>) {
    && RightUpTo(records, |records|)
    && forall i: nat, id :: IsSqe(records, i, id) ==> Completed(records, |records|, id)
  }

  /** The operation a submission and its completion make together. */
  function Combine(sqe: Record, cqe: Record): Operation
    requires Within(sqe.identity, 0, TWO64) && SqeFields(sqe.fields) && CqeFields(cqe.fields)
  {
    Operation(sqe.identity.value, sqe.fields.opcode.value, sqe.fields.fd.value, sqe.fields.offset.value,
              sqe.fields.length.value, cqe.fields.result.value, cqe.fields.result.value >= 0)
  }

  /** `operation` joins submission i with the later completion j: it asks for what the submission asked
      for and got what the completion says. */
  ghost predicate Joins(records: seq<Record>, i: nat, j: nat, operation: Operation) {
    && i < j < |records| && IsSqe(records, i, operation.identity) && IsCqe(records, j, operation.identity)
    && records[i].fields.opcode == Some(operation.opcode) && records[i].fields.fd == Some(operation.fd)
    && records[i].fields.offset == Some(operation.offset) && records[i].fields.length == Some(operation.requested)
    && records[j].fields.result == Some(operation.result)
    && (operation.succeeded <==> 0 <= operation.result)
  }

  ghost predicate JoinedAt(records: seq<Record>, j: nat, operation: Operation) {
    exists i: nat :: Joins(records, i, j, operation)
  }

  /** The completions among the first n records, in order. */
  function Completions(records: seq<Record>, n: nat): seq<nat>
    requires n <= |records|
  {
    if n == 0 then []
    else Completions(records, n - 1) + if records[n - 1].kind.Cqe? then [n - 1] else []
  }

  /** One operation per completion, in completion order, each with its own submission's fields. */
  ghost predicate JoinedUpTo(records: seq<Record>, n: nat, operations: seq<Operation>)
    requires n <= |records|
  {
    && |operations| == |Completions(records, n)|
    && forall k :: 0 <= k < |operations| ==> JoinedAt(records, Completions(records, n)[k], operations[k])
  }

  /** Submissions still waiting after n records, and the identities completed. */
  ghost predicate Bookkeeping(records: seq<Record>, n: nat, pending: map<int, Record>, completed: set<int>) {
    && (forall id :: id in pending <==> Submitted(records, n, id) && !Completed(records, n, id))
    && (forall id :: id in completed <==> Completed(records, n, id))
    && (forall id :: id in pending ==> PendingFrom(records, n, id, pending[id]))
  }

  ghost predicate PendingFrom(records: seq<Record>, n: nat, id: int, r: Record) {
    exists i: nat ::
      i < n && IsSqe(records, i, id) && records[i] == r && SqeFields(r.fields) && Within(r.identity, 0, TWO64)
  }

  lemma SubmittedStep(records: seq<Record>, n: nat, id: int)
    requires n < |records|
    ensures Submitted(records, n + 1, id) <==> Submitted(records, n, id) || IsSqe(records, n, id)
    ensures Completed(records, n + 1, id) <==> Completed(records, n, id) || IsCqe(records, n, id)
  {
    if Submitted(records, n, id) { var i: nat :| i < n && IsSqe(records, i, id); assert i < n + 1; }
    if Completed(records, n, id) { var i: nat :| i < n && IsCqe(records, i, id); assert i < n + 1; }
  }

  /** Identities are submitted at most once. */
  lemma OneSubmission(records: seq<Record>, n: nat, i: nat, j: nat, id: int)
    requires n <= |records| && RightUpTo(records, n) && i < n && j < n && IsSqe(records, i, id) && IsSqe(records, j, id)
    ensures i == j
  {
    assert Right(records, i) && Right(records, j);
    SubmittedBy(records, i, j, id);
    SubmittedBy(records, j, i, id);
  }

  lemma SubmittedBy(records: seq<Record>, i: nat, n: nat, id: int)
    ensures i < n && IsSqe(records, i, id) ==> Submitted(records, n, id)
  {
  }

  lemma PendingKept(records: seq<Record>, n: nat, id: int, r: Record)
    requires PendingFrom(records, n, id, r)
    ensures PendingFrom(records, n + 1, id, r)
  {
    var i: nat :| i < n && IsSqe(records, i, id) && records[i] == r && SqeFields(r.fields)
      && Within(r.identity, 0, TWO64);
    assert i < n + 1;
  }

  lemma SubmissionStep(records: seq<Record>, n: nat, pending: map<int, Record>, completed: set<int>)
    requires n < |records| && records[n].kind.Sqe? && RightUpTo(records, n)
             && Bookkeeping(records, n, pending, completed)
    requires Within(records[n].identity, 0, TWO64) && SqeFields(records[n].fields)
    requires records[n].identity.value !in pending && records[n].identity.value !in completed
    ensures Right(records, n)
            && Bookkeeping(records, n + 1, pending[records[n].identity.value := records[n]], completed)
  {
    var id := records[n].identity.value;
    var grown := pending[id := records[n]];
    forall x { SubmittedStep(records, n, x); }
    forall x | x in grown ensures PendingFrom(records, n + 1, x, grown[x]) {
      if x == id {
        assert IsSqe(records, n, id) && n < n + 1;
      } else {
        PendingKept(records, n, x, pending[x]);
      }
    }
    hide PendingFrom, SqeFields;
  }

  lemma CompletionStep(records: seq<Record>, n: nat, pending: map<int, Record>, completed: set<int>)
    requires n < |records| && records[n].kind.Cqe? && RightUpTo(records, n)
             && Bookkeeping(records, n, pending, completed)
    requires Within(records[n].identity, 0, TWO64) && CqeFields(records[n].fields)
             && records[n].identity.value in pending
    ensures var id := records[n].identity.value;
            && Bookkeeping(records, n + 1, pending - {id}, completed + {id})
            && SqeFields(pending[id].fields) && Within(pending[id].identity, 0, TWO64)
            && (Right(records, n) <==> records[n].fields.result.value <= pending[id].fields.length.value)
            && JoinedAt(records, n, Combine(pending[id], records[n]))
  {
    var id := records[n].identity.value;
    var i: nat :| i < n && IsSqe(records, i, id) && records[i] == pending[id] && SqeFields(pending[id].fields)
      && Within(pending[id].identity, 0, TWO64);
    assert Joins(records, i, n, Combine(pending[id], records[n]));
    forall j: nat | j < n && IsSqe(records, j, id) ensures j == i { OneSubmission(records, n, i, j, id); }
    CompletionBookkeeping(records, n, pending, completed);
  }

  lemma CompletionBookkeeping(records: seq<Record>, n: nat, pending: map<int, Record>, completed: set<int>)
    requires n < |records| && records[n].kind.Cqe? && Bookkeeping(records, n, pending, completed)
    requires records[n].identity.Some?
    ensures Bookkeeping(records, n + 1, pending - {records[n].identity.value}, completed + {records[n].identity.value})
  {
    hide PendingFrom;
    var left := pending - {records[n].identity.value};
    forall x { SubmittedStep(records, n, x); }
    forall x | x in left ensures PendingFrom(records, n + 1, x, left[x]) { PendingKept(records, n, x, pending[x]); }
  }

  lemma JoinedMore(records: seq<Record>, n: nat, operations: seq<Operation>, operation: Operation)
    requires n < |records| && JoinedUpTo(records, n, operations)
    ensures !records[n].kind.Cqe? ==> JoinedUpTo(records, n + 1, operations)
    ensures records[n].kind.Cqe? && JoinedAt(records, n, operation) ==>
            JoinedUpTo(records, n + 1, operations + [operation])
  {
    hide JoinedAt;
  }

  /** Accepts exactly the well-formed record lists; the output is one operation per completion,
      in completion order. */
  method Join(records: seq<Record>) returns (r: Joined)
    ensures r.Operations? <==> WellFormed(records)
    ensures r.Operations? ==> JoinedUpTo(records, |records|, r.operations)
  {
    hide JoinedUpTo, PendingFrom, JoinedAt;
    var pending: map<int, Record> := map[];
    var completed: set<int> := {};
    var operations: seq<Operation> := [];
    var n := 0;
    NothingJoined(records);
    while n < |records|
      invariant 0 <= n <= |records| && RightUpTo(records, n)
      invariant Bookkeeping(records, n, pending, completed)
      invariant JoinedUpTo(records, n, operations)
    {
      var row := records[n];
      if !Within(row.identity, 0, TWO64) {
        assert !Right(records, n);
        return Refused;
      }
      var id := row.identity.value;
      match row.kind {
        case Sqe =>
          if !SqeFields(row.fields) || id in pending || id in completed {
            if id in completed { CompletedWasSubmitted(records, n, id); }
            assert !Right(records, n);
            return Refused;
          }
          SubmissionStep(records, n, pending, completed);
          JoinedMore(records, n, operations, Operation(0, 0, 0, 0, 0, 0, false));
          pending := pending[id := row];
        case Cqe =>
          if id !in pending || !CqeFields(row.fields) {
            assert !Right(records, n);
            return Refused;
          }
          CompletionStep(records, n, pending, completed);
          Lengths(pending[id], row);
          if row.fields.result.value > pending[id].fields.length.value {
            assert !Right(records, n);
            return Refused;
          }
          JoinedMore(records, n, operations, Combine(pending[id], row));
          operations := operations + [Combine(pending[id], row)];
          pending := pending - {id};
          completed := completed + {id};
        case OtherRecord =>
          assert !Right(records, n);
          return Refused;
      }
      n := n + 1;
    }
    if id :| id in pending {
      assert Submitted(records, n, id);
      return Refused;
    }
    forall i: nat, id | IsSqe(records, i, id) ensures Completed(records, |records|, id) {
      assert Submitted(records, n, id);
    }
    return Operations(operations);
  }

  lemma Lengths(sqe: Record, cqe: Record)
    requires SqeFields(sqe.fields) && CqeFields(cqe.fields)
    ensures sqe.fields.length.Some? && cqe.fields.result.Some?
  {
  }

  lemma NothingJoined(records: seq<Record>)
    ensures JoinedUpTo(records, 0, []) && Bookkeeping(records, 0, map[], {})
  {
  }

  lemma CompletedWasSubmitted(records: seq<Record>, n: nat, id: int)
    requires n <= |records| && RightUpTo(records, n) && Completed(records, n, id)
    ensures Submitted(records, n, id)
  {
    var j: nat :| j < n && IsCqe(records, j, id);
    assert Right(records, j);
    var i: nat :| i < j && IsSqe(records, i, id);
    assert i < n;
  }

  // ----- what the join means ------------------------------------------------------------------------

  lemma {:induction false} CompletionIndex(records: seq<Record>, n: nat)
    requires n <= |records|
    ensures forall k ::
            0 <= k < |Completions(records, n)| ==>
              Completions(records, n)[k] < n && records[Completions(records, n)[k]].kind.Cqe?
    ensures forall j, k ::
            0 <= j < k < |Completions(records, n)| ==> Completions(records, n)[j] < Completions(records, n)[k]
    ensures forall j: nat :: j < n && records[j].kind.Cqe? ==> j in Completions(records, n)
  {
    if n > 0 { CompletionIndex(records, n - 1); }
  }

  /** The join is a bijection: every submission is joined, with its own completion, by exactly
      one operation. */
  lemma EverySubmissionOnce(records: seq<Record>, operations: seq<Operation>, i: nat, id: int)
    requires WellFormed(records) && JoinedUpTo(records, |records|, operations) && IsSqe(records, i, id)
    ensures exists k ::
            0 <= k < |operations| && operations[k].identity == id
              && Joins(records, i, Completions(records, |records|)[k], operations[k])
    ensures forall k, l ::
            0 <= k < |operations| && 0 <= l < |operations| && operations[k].identity == operations[l].identity ==>
              k == l
  {
    var indices := Completions(records, |records|);
    CompletionIndex(records, |records|);
    var j: nat :| j < |records| && IsCqe(records, j, id);
    var k :| 0 <= k < |indices| && indices[k] == j;
    JoinedIdentity(records, j, operations[k]);
    var i2: nat :| Joins(records, i2, j, operations[k]);
    OneSubmission(records, |records|, i, i2, id);
    forall a, b | 0 <= a < |operations| && 0 <= b < |operations| && operations[a].identity == operations[b].identity
      ensures a == b {
      JoinedIdentity(records, indices[a], operations[a]);
      JoinedIdentity(records, indices[b], operations[b]);
      OneCompletion(records, indices[a], indices[b], operations[a].identity);
    }
  }

  lemma JoinedIdentity(records: seq<Record>, j: nat, operation: Operation)
    requires JoinedAt(records, j, operation)
    ensures IsCqe(records, j, operation.identity)
  {
  }

  lemma OneCompletion(records: seq<Record>, i: nat, j: nat, id: int)
    requires RightUpTo(records, |records|) && IsCqe(records, i, id) && IsCqe(records, j, id)
    ensures i == j
  {
    assert Right(records, i) && Right(records, j);
    CompletedBy(records, i, j, id);
    CompletedBy(records, j, i, id);
  }

  lemma CompletedBy(records: seq<Record>, i: nat, n: nat, id: int)
    ensures i < n && IsCqe(records, i, id) ==> Completed(records, n, id)
  {
  }

  /** No operation got more than it asked for, and every one is a read or a write within the ranges. */
  lemma WithinRequest(records: seq<Record>, operations: seq<Operation>, k: nat)
    requires WellFormed(records) && JoinedUpTo(records, |records|, operations) && k < |operations|
    ensures operations[k].result <= operations[k].requested && 0 <= operations[k].requested < 0x1_0000_0000
    ensures 0 <= operations[k].identity < 0x1_0000_0000_0000_0000
    ensures operations[k].opcode == 22 || operations[k].opcode == 23
    ensures 0 <= operations[k].offset < 0x1_0000_0000_0000_0000
    ensures -0x8000_0000 <= operations[k].fd < 0x8000_0000 && -0x8000_0000 <= operations[k].result < 0x8000_0000
  {
    var j := Completions(records, |records|)[k];
    CompletionIndex(records, |records|);
    var i: nat :| Joins(records, i, j, operations[k]);
    assert Right(records, i) && Right(records, j);
  }

  /** Two captures with the same submissions, in any order, and the same completions in the same
      order. */
  ghost predicate Reordered(a: seq<Record>, b: seq<Record>) {
    && (forall r :: r in a && r.kind.Sqe? <==> r in b && r.kind.Sqe?)
    && |Completions(a, |a|)| == |Completions(b, |b|)|
    && forall k :: 0 <= k < |Completions(a, |a|)| ==> SameCompletion(a, b, k)
  }

  ghost predicate SameCompletion(a: seq<Record>, b: seq<Record>, k: nat)
    requires k < |Completions(a, |a|)| && k < |Completions(b, |b|)|
  {
    var i, j := Completions(a, |a|)[k], Completions(b, |b|)[k];
    i < |a| && j < |b| && a[i] == b[j]
  }

  /** The order of submissions is irrelevant. */
  lemma OrderIrrelevant(a: seq<Record>, b: seq<Record>, p: seq<Operation>, q: seq<Operation>)
    requires WellFormed(a) && WellFormed(b) && Reordered(a, b)
    requires JoinedUpTo(a, |a|, p) && JoinedUpTo(b, |b|, q)
    ensures p == q
  {
    forall k | 0 <= k < |p| ensures p[k] == q[k] {
      var i, j := Completions(a, |a|)[k], Completions(b, |b|)[k];
      assert SameCompletion(a, b, k);
      var s: nat :| Joins(a, s, i, p[k]);
      var t: nat :| Joins(b, t, j, q[k]);
      assert a[s] in a && a[s] in b;
      var u :| 0 <= u < |b| && b[u] == a[s];
      OneSubmission(b, |b|, t, u, q[k].identity);
    }
  }
}
