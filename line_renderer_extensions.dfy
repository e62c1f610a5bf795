/**
  Polyline helpers over a line renderer's points (LineRendererExtensions.cs):
  total length, sum of squared segment lengths and the closest point.
*/
module LineRendererExtensions {
  import opened Wrappers
  import opened Geometry

  /** `float.MaxValue`, the initial "closest so far" squared distance. */
  const FloatMaxValue: real := 340282346638528859811704183484516925440.0

  /** Sum of `distance(p[i], p[i + 1])` for `lo <= i < hi`. */
  function SegmentSum(p: seq<Vector3>, m: Metric, lo: nat, hi: nat): real
    requires lo <= hi < |p|
    decreases hi - lo
  {
    if lo == hi then 0.0 else SegmentSum(p, m, lo, hi - 1) + m.distance(p[hi - 1], p[hi])
  }

  /** Length of the polyline; zero for fewer than two points. */
  function TotalLength(p: seq<Vector3>, m: Metric): real {
    if |p| < 2 then 0.0 else SegmentSum(p, m, 0, |p| - 1)
  }

  /** Sum of `(p[i] - p[i + 1]).sqrMagnitude` for `i < hi`. */
  function SqrSum(p: seq<Vector3>, hi: nat): real
    requires hi < |p|
  {
    if hi == 0 then 0.0 else SqrSum(p, hi - 1) + SqrMagnitude(Sub(p[hi - 1], p[hi]))
  }

  /** Sum of squared segment lengths; zero for fewer than two points. */
  function TotalSqrMagnitude(p: seq<Vector3>): real {
    if |p| < 2 then 0.0 else SqrSum(p, |p| - 1)
  }

  /** The sum can be unrolled from its first segment as well as from its last. */
  lemma {:induction false} SegmentSumFromFront(p: seq<Vector3>, m: Metric, lo: nat, hi: nat)
    requires lo < hi < |p|
    ensures SegmentSum(p, m, lo, hi) == m.distance(p[lo], p[lo + 1]) + SegmentSum(p, m, lo + 1, hi)
    decreases hi - lo
  {
    if hi > lo + 1 {
      SegmentSumFromFront(p, m, lo, hi - 1);
    }
  }

  lemma {:induction false} SegmentSumNonNegative(p: seq<Vector3>, m: Metric, lo: nat, hi: nat)
    requires m.Valid() && lo <= hi < |p|
    ensures SegmentSum(p, m, lo, hi) >= 0.0
    decreases hi - lo
  {
    if lo < hi {
      SegmentSumNonNegative(p, m, lo, hi - 1);
    }
  }

  lemma {:induction false} SqrSumNonNegative(p: seq<Vector3>, hi: nat)
    requires hi < |p|
    ensures SqrSum(p, hi) >= 0.0
  {
    if hi > 0 {
      SqrSumNonNegative(p, hi - 1);
      var v := Sub(p[hi - 1], p[hi]);
      assert v.x * v.x >= 0.0 && v.y * v.y >= 0.0 && v.z * v.z >= 0.0;
    }
  }

  /** `GetTotalLength`: the sum of the segment lengths, never negative. */
  method GetTotalLength(p: seq<Vector3>, m: Metric) returns (totalLength: real)
    ensures totalLength == TotalLength(p, m)
    ensures |p| < 2 ==> totalLength == 0.0
    ensures m.Valid() ==> totalLength >= 0.0
  {
    if |p| < 2 {
      return 0.0;
    }
    totalLength := 0.0;
    var i := 0;
    while i < |p| - 1
      invariant 0 <= i <= |p| - 1
      invariant totalLength == SegmentSum(p, m, 0, i)
    {
      var start := p[i];
      var end := p[i + 1];
      totalLength := totalLength + m.distance(start, end);
      i := i + 1;
    }
    if m.Valid() {
      SegmentSumNonNegative(p, m, 0, |p| - 1);
    }
  }

  /** `GetTotalSqrMagnitude`: the sum of the squared segment lengths, never negative. */
  method GetTotalSqrMagnitude(p: seq<Vector3>) returns (totalMagnitude: real)
    ensures totalMagnitude == TotalSqrMagnitude(p)
    ensures |p| < 2 ==> totalMagnitude == 0.0
    ensures totalMagnitude >= 0.0
  {
    if |p| < 2 {
      return 0.0;
    }
    totalMagnitude := 0.0;
    var i := 0;
    while i < |p| - 1
      invariant 0 <= i <= |p| - 1
      invariant totalMagnitude == SqrSum(p, i)
    {
      var start := p[i];
      var end := p[i + 1];
      totalMagnitude := totalMagnitude + SqrMagnitude(Sub(start, end));
      i := i + 1;
    }
    SqrSumNonNegative(p, |p| - 1);
  }

  function Clamp01(t: real): (r: real)
    ensures 0.0 <= r <= 1.0
  {
    if t < 0.0 then 0.0 else if t > 1.0 then 1.0 else t
  }

  /** The parameter along `start..end` of the point `GetClosestPointOnSegment` returns. */
  function ClosestParameter(start: Vector3, end: Vector3, position: Vector3): (t: real)
    ensures 0.0 <= t <= 1.0
  {
    var segmentDirection := Sub(end, start);
    var segmentLengthSqr := SqrMagnitude(segmentDirection);
    if segmentLengthSqr == 0.0 then 0.0
    else Clamp01(Dot(Sub(position, start), segmentDirection) / segmentLengthSqr)
  }

  /** `GetClosestPointOnSegment`: a point of the segment; `start` when the segment is degenerate. */
  function GetClosestPointOnSegment(start: Vector3, end: Vector3, position: Vector3): (r: Vector3)
    ensures r == PointAt(start, end, ClosestParameter(start, end, position))
    ensures SqrMagnitude(Sub(end, start)) == 0.0 ==> r == start
  {
    var segmentDirection := Sub(end, start);
    var segmentLengthSqr := SqrMagnitude(segmentDirection);
    if segmentLengthSqr == 0.0 then start
    else
      var t := Clamp01(Dot(Sub(position, start), segmentDirection) / segmentLengthSqr);
      Add(start, Scale(t, segmentDirection))
  }

  /** The squared distance from `position` to the point at parameter `t`, as a quadratic in `t`. */
  lemma SqrDistanceQuadratic(start: Vector3, end: Vector3, position: Vector3, t: real)
    ensures var w, d := Sub(start, position), Sub(end, start);
      SqrMagnitude(Sub(PointAt(start, end, t), position))
        == SqrMagnitude(w) + 2.0 * t * Dot(w, d) + t * t * SqrMagnitude(d)
  {
    var w, d := Sub(start, position), Sub(end, start);
    assert Sub(PointAt(start, end, t), position) == Add(w, Scale(t, d));
    var v := Add(w, Scale(t, d));
    assert v.x * v.x == w.x * w.x + 2.0 * t * (w.x * d.x) + t * t * (d.x * d.x);
    assert v.y * v.y == w.y * w.y + 2.0 * t * (w.y * d.y) + t * t * (d.y * d.y);
    assert v.z * v.z == w.z * w.z + 2.0 * t * (w.z * d.z) + t * t * (d.z * d.z);
  }

  lemma ProductPositive(a: real, b: real, p: real)
    requires a > 0.0 && b > 0.0 && p == a * b
    ensures p > 0.0
  {
  }

  lemma SquareNonNegative(a: real, sq: real)
    requires sq == a * a
    ensures sq >= 0.0
  {
    if a > 0.0 {
      ProductPositive(a, a, sq);
    } else if a < 0.0 {
      ProductPositive(-a, -a, sq);
    }
  }

  lemma SquareZero(a: real, sq: real)
    requires sq == a * a && sq == 0.0
    ensures a == 0.0
  {
    if a > 0.0 {
      ProductPositive(a, a, sq);
    } else if a < 0.0 {
      ProductPositive(-a, -a, sq);
    }
  }

  /** A vector of squared magnitude zero is the zero vector. */
  lemma ZeroSqrMagnitude(v: Vector3)
    requires SqrMagnitude(v) == 0.0
    ensures v.x == 0.0 && v.y == 0.0 && v.z == 0.0
  {
    var xx, yy, zz := v.x * v.x, v.y * v.y, v.z * v.z;
    SquareNonNegative(v.x, xx);
    SquareNonNegative(v.y, yy);
    SquareNonNegative(v.z, zz);
    assert xx + yy + zz == 0.0;
    SquareZero(v.x, xx);
    SquareZero(v.y, yy);
    SquareZero(v.z, zz);
  }

  lemma PositiveSqrMagnitude(v: Vector3)
    requires SqrMagnitude(v) != 0.0
    ensures SqrMagnitude(v) > 0.0
  {
    SquareNonNegative(v.x, v.x * v.x);
    SquareNonNegative(v.y, v.y * v.y);
    SquareNonNegative(v.z, v.z * v.z);
  }

  /** A segment of squared length zero has coinciding end points. */
  lemma ZeroLengthSegment(start: Vector3, end: Vector3)
    requires SqrMagnitude(Sub(end, start)) == 0.0
    ensures end == start
  {
    ZeroSqrMagnitude(Sub(end, start));
  }

  /** Every point of a segment from a point to itself is that point. */
  lemma PointSegment(p: Vector3, t: real)
    ensures PointAt(p, p, t) == p
  {
  }

  /**
    The quadratic `2 t b + t^2 a` (with `a > 0`) takes its least value over
    `[0, 1]` at the clamped vertex.
  */
  lemma ClampedVertexIsMinimum(a: real, b: real, t: real)
    requires a > 0.0 && 0.0 <= t <= 1.0
    ensures var tc := Clamp01(-b / a);
      2.0 * tc * b + tc * tc * a <= 2.0 * t * b + t * t * a
  {
    var raw := -b / a;
    var tc := Clamp01(raw);
    assert b == -raw * a;
    var diff := (2.0 * t * b + t * t * a) - (2.0 * tc * b + tc * tc * a);
    assert diff == (t - tc) * (2.0 * b + a * (t + tc));
    if raw < 0.0 {
      assert b > 0.0 by {
        assert raw * a < 0.0;
      }
      assert diff == t * (2.0 * b + a * t);
      assert a * t >= 0.0;
    } else if raw > 1.0 {
      assert raw * a > a;
      assert 2.0 * b + a * (t + 1.0) == a * (t - 1.0) - 2.0 * (raw * a - a);
      assert a * (t - 1.0) <= 0.0;
      assert diff == (t - 1.0) * (2.0 * b + a * (t + 1.0));
      assert (1.0 - t) * -(2.0 * b + a * (t + 1.0)) >= 0.0;
    } else {
      assert tc == raw;
      assert 2.0 * b + a * (t + tc) == a * (t - tc);
      assert diff == a * ((t - tc) * (t - tc));
      assert (t - tc) * (t - tc) >= 0.0;
    }
  }

  /** Compares the squared distances of two points of a segment through their quadratics. */
  lemma CompareParameters(start: Vector3, end: Vector3, position: Vector3, b: real, len: real, s: real, t: real)
    requires b == Dot(Sub(start, position), Sub(end, start)) && len == SqrMagnitude(Sub(end, start))
    requires 2.0 * s * b + s * s * len <= 2.0 * t * b + t * t * len
    ensures SqrMagnitude(Sub(PointAt(start, end, s), position)) <= SqrMagnitude(Sub(PointAt(start, end, t), position))
  {
    SqrDistanceQuadratic(start, end, position, s);
    SqrDistanceQuadratic(start, end, position, t);
  }

  /**
    The point `GetClosestPointOnSegment` returns is no farther from `position`
    than any other point of the segment.
  */
  lemma ClosestPointOnSegmentIsClosest(start: Vector3, end: Vector3, position: Vector3, t: real)
    requires 0.0 <= t <= 1.0
    ensures SqrMagnitude(Sub(GetClosestPointOnSegment(start, end, position), position))
         <= SqrMagnitude(Sub(PointAt(start, end, t), position))
  {
    var tc := ClosestParameter(start, end, position);
    assert GetClosestPointOnSegment(start, end, position) == PointAt(start, end, tc);
    ClosestParameterIsBest(start, end, position, tc, t);
  }

  lemma ClosestParameterIsBest(start: Vector3, end: Vector3, position: Vector3, tc: real, t: real)
    requires tc == ClosestParameter(start, end, position) && 0.0 <= t <= 1.0
    ensures SqrMagnitude(Sub(PointAt(start, end, tc), position)) <= SqrMagnitude(Sub(PointAt(start, end, t), position))
  {
    var w, d := Sub(start, position), Sub(end, start);
    var len := SqrMagnitude(d);
    if len == 0.0 {
      ZeroLengthSegment(start, end);
      PointSegment(start, t);
      PointSegment(start, tc);
    } else {
      PositiveSqrMagnitude(d);
      var b := Dot(w, d);
      assert Dot(Sub(position, start), d) == -b;
      assert tc == Clamp01(-b / len);
      ClampedVertexIsMinimum(len, b, t);
      CompareParameters(start, end, position, b, len, tc, t);
    }
  }

  /** The closest point of segment `i` (from `p[i]` to `p[i + 1]`). */
  function SegmentPoint(p: seq<Vector3>, position: Vector3, i: nat): Vector3
    requires i + 1 < |p|
  {
    GetClosestPointOnSegment(p[i], p[i + 1], position)
  }

  function SegmentDistanceSqr(p: seq<Vector3>, position: Vector3, i: nat): real
    requires i + 1 < |p|
  {
    SqrMagnitude(Sub(SegmentPoint(p, position, i), position))
  }

  /**
    Segment `i` is the first segment whose closest point is nearest to
    `position` among the first `n` segments, and it beats `float.MaxValue`.
  */
  predicate FirstNearest(p: seq<Vector3>, position: Vector3, i: nat, n: nat)
    requires n < |p|
  {
    && i < n
    && SegmentDistanceSqr(p, position, i) < FloatMaxValue
    && (forall j :: 0 <= j < n ==> SegmentDistanceSqr(p, position, i) <= SegmentDistanceSqr(p, position, j))
    && (forall j :: 0 <= j < i ==> SegmentDistanceSqr(p, position, i) < SegmentDistanceSqr(p, position, j))
  }

  /** No segment among the first `n` gets below the initial `float.MaxValue`. */
  predicate NoneBelowMax(p: seq<Vector3>, position: Vector3, n: nat)
    requires n < |p|
  {
    forall j :: 0 <= j < n ==> SegmentDistanceSqr(p, position, j) >= FloatMaxValue
  }

  /**
    `GetClosestPoint`: fails on a line without points; otherwise returns the
    closest point of the first nearest segment, or `p[0]` when there is no
    segment or none comes closer than `float.MaxValue`.
  */
  method GetClosestPoint(p: seq<Vector3>, position: Vector3) returns (r: Result<Vector3>)
    ensures r.Failure? <==> |p| == 0
    ensures r.Failure? ==> r.error == InvalidOperation
    ensures |p| == 1 ==> r == Success(p[0])
    ensures r.Success? ==>
      || (exists i :: FirstNearest(p, position, i, |p| - 1) && r.value == SegmentPoint(p, position, i))
      || (NoneBelowMax(p, position, |p| - 1) && r.value == p[0])
  {
    if |p| == 0 {
      return Failure(InvalidOperation);
    }
    var closestPoint := p[0];
    var closestDistanceSqr := FloatMaxValue;
    ghost var best: int := -1;
    var i := 0;
    while i < |p| - 1
      invariant 0 <= i <= |p| - 1
      invariant -1 <= best < i
      invariant best == -1 ==> closestPoint == p[0] && closestDistanceSqr == FloatMaxValue && NoneBelowMax(p, position, i)
      invariant best >= 0 ==>
                  && FirstNearest(p, position, best, i)
                  && closestPoint == SegmentPoint(p, position, best)
                  && closestDistanceSqr == SegmentDistanceSqr(p, position, best)
    {
      var start := p[i];
      var end := p[i + 1];
      var segmentClosestPoint := GetClosestPointOnSegment(start, end, position);
      var segmentDistanceSqr := SqrMagnitude(Sub(segmentClosestPoint, position));
      assert segmentDistanceSqr == SegmentDistanceSqr(p, position, i);
      if segmentDistanceSqr < closestDistanceSqr {
        closestDistanceSqr := segmentDistanceSqr;
        closestPoint := segmentClosestPoint;
        best := i;
      }
      i := i + 1;
    }
    return Success(closestPoint);
  }

  /**
    The point of the first nearest segment is no farther from `position` than
    any point of any segment of the line.
  */
  lemma FirstNearestIsClosest(p: seq<Vector3>, position: Vector3, i: nat, j: nat, t: real)
    requires |p| >= 2 && FirstNearest(p, position, i, |p| - 1)
    requires j + 1 < |p| && 0.0 <= t <= 1.0
    ensures SqrMagnitude(Sub(SegmentPoint(p, position, i), position))
         <= SqrMagnitude(Sub(PointAt(p[j], p[j + 1], t), position))
  {
    assert SegmentDistanceSqr(p, position, i) <= SegmentDistanceSqr(p, position, j);
    ClosestPointOnSegmentIsClosest(p[j], p[j + 1], position, t);
  }
}
