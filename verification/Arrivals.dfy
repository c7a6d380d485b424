/** Peak concurrency from an arrival sweep. */
module Arrivals {

  /** A request is active from its start until just before its end. */
  datatype Interval = Interval(start: int, end: int)

  /** A start (+1) or an end (-1). */
  datatype Point = Point(at: int, change: int)

  predicate Upright(intervals: seq<Interval>) {
    forall i :: 0 <= i < |intervals| ==> intervals[i].start <= intervals[i].end
  }

  predicate Covers(x: Interval, t: int) { x.start <= t < x.end }

  function Coverage(intervals: seq<Interval>, t: int): nat {
    if intervals == [] then 0
    else Coverage(intervals[..|intervals| - 1], t) + if Covers(intervals[|intervals| - 1], t) then 1 else 0
  }

  predicate Overlap(a: Interval, b: Interval) { a.start < b.end && b.start < a.end }

  function OverlapsWith(intervals: seq<Interval>, x: Interval): nat {
    if intervals == [] then 0
    else OverlapsWith(intervals[..|intervals| - 1], x) + if Overlap(intervals[|intervals| - 1], x) then 1 else 0
  }

  /** The number of overlapping pairs. */
  function OverlappingPairs(intervals: seq<Interval>): nat {
    if intervals == [] then 0
    else
      OverlappingPairs(intervals[..|intervals| - 1])
      + OverlapsWith(intervals[..|intervals| - 1], intervals[|intervals| - 1])
  }

  // ----- sorted points ---------------------------------------------------------------------------------

  /** Earlier first; at the same time, ends first. */
  predicate Before(p: Point, q: Point) { p.at < q.at || (p.at == q.at && p.change <= q.change) }

  function Insert(p: Point, sorted: seq<Point>): seq<Point> {
    if sorted == [] then [p]
    else
      var n := |sorted| - 1;
      if Before(sorted[n], p) then sorted + [p] else Insert(p, sorted[..n]) + [sorted[n]]
  }

  function Points(intervals: seq<Interval>): seq<Point> {
    if intervals == [] then []
    else
      var x := intervals[|intervals| - 1];
      Insert(Point(x.end, -1), Insert(Point(x.start, 1), Points(intervals[..|intervals| - 1])))
  }

  predicate InOrder(s: seq<Point>) { forall i, j :: 0 <= i < j < |s| ==> Before(s[i], s[j]) }

  predicate Signed(s: seq<Point>) { forall i :: 0 <= i < |s| ==> s[i].change == 1 || s[i].change == -1 }

  /** How many points of a kind lie at or before t. */
  function CountUpTo(s: seq<Point>, change: int, t: int): nat {
    if s == [] then 0
    else CountUpTo(s[..|s| - 1], change, t) + if s[|s| - 1].change == change && s[|s| - 1].at <= t then 1 else 0
  }

  lemma CountPush(s: seq<Point>, p: Point, change: int, t: int)
    ensures CountUpTo(s + [p], change, t) == CountUpTo(s, change, t) + if p.change == change && p.at <= t then 1 else 0
  {
    assert (s + [p])[..|s|] == s;
  }

  lemma {:induction false} InsertOrders(p: Point, s: seq<Point>)
    requires InOrder(s) && Signed(s) && (p.change == 1 || p.change == -1)
    ensures InOrder(Insert(p, s)) && Signed(Insert(p, s))
    ensures forall q :: q in Insert(p, s) ==> q == p || q in s
  {
    if s != [] {
      var n := |s| - 1;
      if !Before(s[n], p) {
        InsertOrders(p, s[..n]);
        var r := Insert(p, s[..n]);
        forall i | 0 <= i < |r| ensures Before(r[i], s[n]) { assert r[i] in r; }
      }
    }
  }

  lemma {:induction false} InsertCounts(p: Point, s: seq<Point>, change: int, t: int)
    ensures CountUpTo(Insert(p, s), change, t) == CountUpTo(s, change, t)
            + if p.change == change && p.at <= t then 1 else 0
  {
    CountPush(s, p, change, t);
    if s != [] && !Before(s[|s| - 1], p) {
      var n := |s| - 1;
      InsertCounts(p, s[..n], change, t);
      CountPush(Insert(p, s[..n]), s[n], change, t);
    }
  }

  /** Coverage is starts minus ends. */
  lemma {:induction false} PointsCount(intervals: seq<Interval>, t: int)
    requires Upright(intervals)
    ensures InOrder(Points(intervals)) && Signed(Points(intervals))
    ensures Coverage(intervals, t) == CountUpTo(Points(intervals), 1, t) - CountUpTo(Points(intervals), -1, t)
  {
    if intervals != [] {
      var front := intervals[..|intervals| - 1];
      var x := intervals[|intervals| - 1];
      PointsCount(front, t);
      var started := Insert(Point(x.start, 1), Points(front));
      InsertOrders(Point(x.start, 1), Points(front));
      InsertOrders(Point(x.end, -1), started);
      InsertCounts(Point(x.start, 1), Points(front), 1, t);
      InsertCounts(Point(x.start, 1), Points(front), -1, t);
      InsertCounts(Point(x.end, -1), started, 1, t);
      InsertCounts(Point(x.end, -1), started, -1, t);
    }
  }

  // ----- the sweep ---------------------------------------------------------------------------------------

  function Active(points: seq<Point>, k: nat): int
    requires k <= |points|
  {
    if k == 0 then 0 else Active(points, k - 1) + points[k - 1].change
  }

  /** Splitting a count at k. */
  lemma {:induction false} CountSplit(s: seq<Point>, k: nat, change: int, t: int)
    requires k <= |s|
    ensures CountUpTo(s, change, t) == CountUpTo(s[..k], change, t) + CountUpTo(s[k..], change, t)
  {
    hide CountUpTo;
    if k == |s| {
      assert s[..k] == s && s[k..] == [];
      CountNone([], change, t);
    } else {
      var n := |s| - 1;
      CountSplit(s[..n], k, change, t);
      assert s[..n][..k] == s[..k] && s[..n][k..] == s[k..n];
      CountPush(s[k..n], s[n], change, t);
      CountPush(s[..n], s[n], change, t);
      assert s[k..] == s[k..n] + [s[n]] && s == s[..n] + [s[n]];
    }
  }

  lemma {:induction false} CountNone(s: seq<Point>, change: int, t: int)
    requires forall p :: p in s ==> !(p.change == change && p.at <= t)
    ensures CountUpTo(s, change, t) == 0
  {
    if s != [] { CountNone(s[..|s| - 1], change, t); }
  }

  lemma {:induction false} ActiveCounts(points: seq<Point>, k: nat, t: int)
    requires k <= |points| && Signed(points) && forall i :: 0 <= i < k ==> points[i].at <= t
    ensures Active(points, k) == CountUpTo(points[..k], 1, t) - CountUpTo(points[..k], -1, t)
  {
    if k > 0 {
      ActiveCounts(points, k - 1, t);
      assert points[..k] == points[..k - 1] + [points[k - 1]];
      CountPush(points[..k - 1], points[k - 1], 1, t);
      CountPush(points[..k - 1], points[k - 1], -1, t);
    }
  }

  /** After a start the number active is at most the coverage of that instant. */
  lemma StartBounded(intervals: seq<Interval>, k: nat)
    requires Upright(intervals) && 0 < k <= |Points(intervals)| && Points(intervals)[k - 1].change == 1
    ensures Active(Points(intervals), k) <= Coverage(intervals, Points(intervals)[k - 1].at)
  {
    var points := Points(intervals);
    var t := points[k - 1].at;
    PointsCount(intervals, t);
    forall i | 0 <= i < k ensures points[i].at <= t { if i < k - 1 { assert Before(points[i], points[k - 1]); } }
    ActiveCounts(points, k, t);
    CountSplit(points, k, 1, t);
    CountSplit(points, k, -1, t);
    forall p | p in points[k..] ensures !(p.change == -1 && p.at <= t) {
      var j :| 0 <= j < |points[k..]| && points[k..][j] == p;
      assert p == points[k + j] && Before(points[k - 1], points[k + j]);
    }
    CountNone(points[k..], -1, t);
  }

  lemma {:induction false} UpToCount(points: seq<Point>, t: int, k: nat) returns (n: nat)
    requires InOrder(points) && k <= |points| && forall i :: 0 <= i < k ==> points[i].at <= t
    ensures n <= |points| && (forall i :: 0 <= i < n ==> points[i].at <= t)
            && forall i :: n <= i < |points| ==> points[i].at > t
    decreases |points| - k
  {
    if k < |points| && points[k].at <= t {
      n := UpToCount(points, t, k + 1);
    } else {
      n := k;
      forall i | n <= i < |points| ensures points[i].at > t { if i > k { assert Before(points[k], points[i]); } }
    }
  }

  /** Every coverage is the number active after some prefix. */
  lemma CoverageIsActive(intervals: seq<Interval>, t: int) returns (k: nat)
    requires Upright(intervals)
    ensures k <= |Points(intervals)| && Active(Points(intervals), k) == Coverage(intervals, t)
  {
    var points := Points(intervals);
    PointsCount(intervals, t);
    k := UpToCount(points, t, 0);
    ActiveCounts(points, k, t);
    CountSplit(points, k, 1, t);
    CountSplit(points, k, -1, t);
    forall p | p in points[k..] ensures p.at > t {
      var j :| 0 <= j < |points[k..]| && points[k..][j] == p;
      assert p == points[k + j];
    }
    CountNone(points[k..], 1, t);
    CountNone(points[k..], -1, t);
  }

  /** The peak of the sweep is the greatest number of requests active at any instant. */
  method Sweep(intervals: seq<Interval>) returns (peak: int)
    requires Upright(intervals)
    ensures forall t :: Coverage(intervals, t) <= peak
    ensures peak == 0 || exists t :: Coverage(intervals, t) == peak
  {
    hide Points, Coverage, CountUpTo, InOrder, Before;
    var points := Points(intervals);
    var active := 0;
    peak := 0;
    ghost var when := 0;
    var k := 0;
    PointsCount(intervals, 0);
    while k < |points|
      invariant 0 <= k <= |points| && active == Active(points, k)
      invariant forall j :: 0 <= j <= k ==> Active(points, j) <= peak
      invariant peak == 0 || peak <= Coverage(intervals, when)
    {
      active := active + points[k].change;
      k := k + 1;
      if active > peak {
        StartBounded(intervals, k);
        when := points[k - 1].at;
        peak := active;
      }
    }
    forall t ensures Coverage(intervals, t) <= peak { var j := CoverageIsActive(intervals, t); }
  }

  /** Overlapping means sharing an instant; an empty interval overlaps what it lies strictly inside. */
  lemma OverlapMeans(a: Interval, b: Interval)
    ensures a.start < a.end && b.start < b.end ==> (Overlap(a, b) <==> exists t :: Covers(a, t) && Covers(b, t))
    ensures a.start == a.end ==> (Overlap(a, b) <==> b.start < a.start < b.end)
  {
    if Overlap(a, b) && a.start < a.end && b.start < b.end {
      var t := if a.start <= b.start then b.start else a.start;
      assert Covers(a, t) && Covers(b, t);
    }
  }

  // ----- overlap -----------------------------------------------------------------------------------------

  lemma {:induction false} CoveringOverlap(intervals: seq<Interval>, x: Interval, t: int)
    requires Covers(x, t)
    ensures Coverage(intervals, t) <= OverlapsWith(intervals, x)
  {
    if intervals != [] { CoveringOverlap(intervals[..|intervals| - 1], x, t); }
  }

  lemma Triangle(c: int)
    ensures (c + 1) * c == c * (c - 1) + 2 * c
  {
  }

  /** Requests active at one instant overlap pairwise. */
  lemma {:induction false} PeakNeedsPairs(intervals: seq<Interval>, t: int)
    ensures Coverage(intervals, t) * (Coverage(intervals, t) - 1) <= 2 * OverlappingPairs(intervals)
  {
    if intervals != [] {
      var front := intervals[..|intervals| - 1];
      var x := intervals[|intervals| - 1];
      PeakNeedsPairs(front, t);
      if Covers(x, t) {
        CoveringOverlap(front, x, t);
        var c := Coverage(front, t);
        Triangle(c);
      }
    }
  }

  method CountOverlaps(intervals: seq<Interval>) returns (pairs: nat)
    ensures pairs == OverlappingPairs(intervals)
  {
    pairs := 0;
    var j := 0;
    while j < |intervals|
      invariant 0 <= j <= |intervals| && pairs == OverlappingPairs(intervals[..j])
    {
      assert intervals[..j + 1][..j] == intervals[..j];
      var i := 0;
      ghost var before := pairs;
      while i < j
        invariant 0 <= i <= j && pairs == before + OverlapsWith(intervals[..i], intervals[j])
      {
        assert intervals[..i + 1][..i] == intervals[..i];
        if Overlap(intervals[i], intervals[j]) { pairs := pairs + 1; }
        i := i + 1;
      }
      j := j + 1;
    }
    assert intervals[..j] == intervals;
  }

  /** The report's two figures agree: the peak cannot exceed what the pairs allow. */
  method Report(intervals: seq<Interval>) returns (peak: int, pairs: nat)
    requires Upright(intervals)
    ensures forall t :: Coverage(intervals, t) <= peak
    ensures peak == 0 || exists t :: Coverage(intervals, t) == peak
    ensures pairs == OverlappingPairs(intervals)
    ensures peak * (peak - 1) <= 2 * pairs
  {
    pairs := CountOverlaps(intervals);
    peak := Sweep(intervals);
    if peak != 0 {
      ghost var t :| Coverage(intervals, t) == peak;
      PeakNeedsPairs(intervals, t);
    }
  }
}
