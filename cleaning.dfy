/**
 * Cleaning of the combined table: the rows outside the bounding box of the
 * target region are dropped, keeping the order of the rest.
 */
module Cleaning {
  import opened Extraction

  /** Longitude bounds, inclusive. */
  const LonMin: real := 120.0
  const LonMax: real := 122.0
  /** Latitude bounds, inclusive. */
  const LatMin: real := 30.0
  const LatMax: real := 32.0

  predicate LonInRange(p: Point) { LonMin <= p.lon <= LonMax }
  predicate LatInRange(p: Point) { LatMin <= p.lat <= LatMax }
  predicate InBox(p: Point) { LonInRange(p) && LatInRange(p) }

  /** Keeps the elements satisfying `keep`, in their original order. */
  function Filter(s: seq<Point>, keep: Point -> bool): (r: seq<Point>)
    ensures |r| <= |s|
    ensures forall x :: x in r <==> x in s && keep(x)
  {
    if s == [] then []
    else
      assert s == [s[0]] + s[1..];
      (if keep(s[0]) then [s[0]] else []) + Filter(s[1..], keep)
  }

  /** Filtering distributes over concatenation: the relative order of kept rows is unchanged. */
  lemma {:induction false} FilterAppend(a: seq<Point>, b: seq<Point>, keep: Point -> bool)
    ensures Filter(a + b, keep) == Filter(a, keep) + Filter(b, keep)
  {
    if a == [] {
      assert a + b == b;
    } else {
      assert (a + b)[0] == a[0];
      assert (a + b)[1..] == a[1..] + b;
      FilterAppend(a[1..], b, keep);
    }
  }

  /** A filter removes nothing exactly when every element passes it. */
  lemma {:induction false} FilterKeepsAll(s: seq<Point>, keep: Point -> bool)
    ensures Filter(s, keep) == s <==> forall i :: 0 <= i < |s| ==> keep(s[i])
  {
    if s != [] {
      FilterKeepsAll(s[1..], keep);
      assert forall i :: 1 <= i < |s| ==> s[1..][i - 1] == s[i];
      if !keep(s[0]) {
        assert |Filter(s, keep)| < |s|;
      }
    }
  }

  /** Two filters in sequence are one filter on the conjunction of their conditions. */
  lemma {:induction false} FilterFilter(s: seq<Point>, p: Point -> bool, q: Point -> bool, both: Point -> bool)
    requires forall x :: both(x) == (p(x) && q(x))
    ensures Filter(Filter(s, p), q) == Filter(s, both)
  {
    if s != [] {
      FilterFilter(s[1..], p, q, both);
      var head := if p(s[0]) then [s[0]] else [];
      FilterAppend(head, Filter(s[1..], p), q);
      if p(s[0]) {
        assert Filter(head, q) == if q(s[0]) then [s[0]] else [] by {
          assert head[1..] == [];
        }
      }
    }
  }

  /**
   * The cleaning steps in the source's order: drop rows with a missing
   * coordinate (none remain after extraction, and a `Point` has none), then
   * the longitude filter, then the latitude filter.
   */
  function Clean(data: seq<Point>): (r: seq<Point>)
    ensures |r| <= |data|
    ensures forall p :: p in r ==> LonMin <= p.lon <= LonMax && LatMin <= p.lat <= LatMax
    ensures forall p :: p in data && InBox(p) ==> p in r
  {
    Filter(Filter(data, LonInRange), LatInRange)
  }

  /** Cleaning keeps exactly the in-box rows, as an order-preserving subsequence. */
  lemma CleanIsBoxFilter(data: seq<Point>)
    ensures Clean(data) == Filter(data, InBox)
  {
    FilterFilter(data, LonInRange, LatInRange, InBox);
  }

  /** Cleaning a concatenation cleans each part, in order. */
  lemma CleanAppend(a: seq<Point>, b: seq<Point>)
    ensures Clean(a + b) == Clean(a) + Clean(b)
  {
    CleanIsBoxFilter(a + b);
    CleanIsBoxFilter(a);
    CleanIsBoxFilter(b);
    FilterAppend(a, b, InBox);
  }

  /** Cleaning removes nothing exactly when every row is in the box; so cleaning twice is cleaning once. */
  lemma CleanIdempotent(data: seq<Point>)
    ensures Clean(data) == data <==> forall i :: 0 <= i < |data| ==> InBox(data[i])
    ensures Clean(Clean(data)) == Clean(data)
  {
    CleanIsBoxFilter(data);
    FilterKeepsAll(data, InBox);
    var r := Clean(data);
    CleanIsBoxFilter(r);
    FilterKeepsAll(r, InBox);
    assert forall i :: 0 <= i < |r| ==> r[i] in r;
  }

  /** The box's bounds are inclusive: its corners are kept, a point just west of it is not. */
  lemma BoundsInclusive()
    ensures InBox(Point(120.0, 32.0)) && InBox(Point(122.0, 30.0))
    ensures !InBox(Point(119.999999, 31.0)) && !InBox(Point(121.0, 32.000001))
  {
  }
}
