/** 2D geometry shared by the renderer: the Point2 type, the MAX/MIN macros,
    line and segment intersection, linear interpolation and the scalar helpers.
    map.c and math.c carry identical bodies for these functions; they are modelled
    once here. Values are real numbers; the {NAN, NAN} "no intersection" sentinel
    becomes None. */
module Geometry {

  datatype Option<T> = None | Some(value: T)

  /** A point or vector in any of the renderer's coordinate spaces. */
  datatype Point2 = Point2(x: real, y: real)

  const Origin: Point2 := Point2(0.0, 0.0)

  /** Below this determinant magnitude two lines count as parallel. */
  const Epsilon: real := 0.00001

  /** MAX(a, b) on the ints render_room applies it to. */
  function Max(a: int, b: int): (r: int)
    ensures r >= a && r >= b
    ensures r == a || r == b
  {
    if a > b then a else b
  }

  /** MIN(a, b): yields b when a > b, a otherwise. */
  function Min(a: int, b: int): (r: int)
    ensures r <= a && r <= b
    ensures r == a || r == b
  {
    if a > b then b else a
  }

  function Abs(v: real): real
  {
    if v < 0.0 then -v else v
  }

  function Sub(a: Point2, b: Point2): Point2
  {
    Point2(a.x - b.x, a.y - b.y)
  }

  /** The determinant d = -v1.x*v0.y + v0.x*v1.y of the intersection routines. */
  function Cross(v0: Point2, v1: Point2): real
  {
    -v1.x * v0.y + v0.x * v1.y
  }

  /** The point a0 + s*(a1 - a0): a fraction s of the way from a0 to a1. */
  function Along(a0: Point2, a1: Point2, s: real): Point2
  {
    Point2(a0.x + s * (a1.x - a0.x), a0.y + s * (a1.y - a0.y))
  }

  /** p lies on the infinite line through a0 and a1. */
  ghost predicate OnLine(p: Point2, a0: Point2, a1: Point2)
  {
    exists s :: p == Along(a0, a1, s)
  }

  /** p lies on the closed segment from a0 to a1. */
  ghost predicate OnSegment(p: Point2, a0: Point2, a1: Point2)
  {
    exists s :: 0.0 <= s <= 1.0 && p == Along(a0, a1, s)
  }

  /** The determinant of the system a0 + u*(a1-a0) == b0 + t*(b1-b0). */
  function Determinant(a0: Point2, a1: Point2, b0: Point2, b1: Point2): real
  {
    Cross(Sub(a1, a0), Sub(b1, b0))
  }

  /** Cramer's rule for u, the parameter along a0..a1. */
  function ParamA(a0: Point2, a1: Point2, b0: Point2, b1: Point2): real
    requires Determinant(a0, a1, b0, b1) != 0.0
  {
    var v1 := Sub(b1, b0);
    (v1.x * (a0.y - b0.y) - v1.y * (a0.x - b0.x)) / Determinant(a0, a1, b0, b1)
  }

  /** Cramer's rule for t, the parameter along b0..b1. */
  function ParamB(a0: Point2, a1: Point2, b0: Point2, b1: Point2): real
    requires Determinant(a0, a1, b0, b1) != 0.0
  {
    var v0 := Sub(a1, a0);
    (-v0.y * (a0.x - b0.x) + v0.x * (a0.y - b0.y)) / Determinant(a0, a1, b0, b1)
  }

  /** The two Cramer parameters name one and the same point. */
  lemma CramerMeets(a0: Point2, a1: Point2, b0: Point2, b1: Point2)
    requires Determinant(a0, a1, b0, b1) != 0.0
    ensures Along(a0, a1, ParamA(a0, a1, b0, b1)) == Along(b0, b1, ParamB(a0, a1, b0, b1))
  {
    var v0, v1 := Sub(a1, a0), Sub(b1, b0);
    var d := Determinant(a0, a1, b0, b1);
    var wx, wy := a0.x - b0.x, a0.y - b0.y;
    var u, t := ParamA(a0, a1, b0, b1), ParamB(a0, a1, b0, b1);
    assert u * d == v1.x * wy - v1.y * wx;
    assert t * d == v0.x * wy - v0.y * wx;
    assert (wx + u * v0.x - t * v1.x) * d == wx * d + (u * d) * v0.x - (t * d) * v1.x;
    assert (wx + u * v0.x - t * v1.x) * d == 0.0;
    assert (wy + u * v0.y - t * v1.y) * d == wy * d + (u * d) * v0.y - (t * d) * v1.y;
    assert (wy + u * v0.y - t * v1.y) * d == 0.0;
  }

  /** When the determinant is nonzero, the Cramer parameters are the only ones
      naming a common point. */
  lemma CramerUnique(a0: Point2, a1: Point2, b0: Point2, b1: Point2, u: real, t: real)
    requires Determinant(a0, a1, b0, b1) != 0.0
    requires Along(a0, a1, u) == Along(b0, b1, t)
    ensures u == ParamA(a0, a1, b0, b1) && t == ParamB(a0, a1, b0, b1)
  {
    var v0, v1 := Sub(a1, a0), Sub(b1, b0);
    var d := Determinant(a0, a1, b0, b1);
    var wx, wy := a0.x - b0.x, a0.y - b0.y;
    // a0 + u*v0 == b0 + t*v1, component by component
    assert wx + u * v0.x - t * v1.x == 0.0;
    assert wy + u * v0.y - t * v1.y == 0.0;
    assert u * d == v1.x * wy - v1.y * wx by {
      assert u * d == u * (-v1.x * v0.y + v0.x * v1.y);
      assert v1.x * wy - v1.y * wx == v1.x * (t * v1.y - u * v0.y) - v1.y * (t * v1.x - u * v0.x);
    }
    assert t * d == v0.x * wy - v0.y * wx by {
      assert v0.x * wy - v0.y * wx == v0.x * (t * v1.y - u * v0.y) - v0.y * (t * v1.x - u * v0.x);
    }
  }

  /** intersect_line_segments: the common point of the segments a0..a1 and b0..b1,
      or None when they are (nearly) parallel or meet outside either segment. */
  function IntersectLineSegments(a0: Point2, a1: Point2, b0: Point2, b1: Point2): (r: Option<Point2>)
    ensures Abs(Determinant(a0, a1, b0, b1)) < Epsilon ==> r == None
    ensures r.Some? ==> OnSegment(r.value, a0, a1) && OnSegment(r.value, b0, b1)
  {
    var d := Determinant(a0, a1, b0, b1);
    if Abs(d) < Epsilon then None
    else
      var t := ParamB(a0, a1, b0, b1);
      var u := ParamA(a0, a1, b0, b1);
      if 0.0 <= t <= 1.0 && 0.0 <= u <= 1.0 then
        CramerMeets(a0, a1, b0, b1);
        Some(Along(a0, a1, u))
      else None
  }

  /** intersect_lines: the common point of the two infinite lines, or None exactly
      when they are (nearly) parallel. */
  function IntersectLines(a0: Point2, a1: Point2, b0: Point2, b1: Point2): (r: Option<Point2>)
    ensures r.None? <==> Abs(Determinant(a0, a1, b0, b1)) < Epsilon
    ensures r.Some? ==> OnLine(r.value, a0, a1) && OnLine(r.value, b0, b1)
  {
    var d := Determinant(a0, a1, b0, b1);
    if Abs(d) < Epsilon then None
    else
      var u := ParamA(a0, a1, b0, b1);
      CramerMeets(a0, a1, b0, b1);
      Some(Along(a0, a1, u))
  }

  /** Segments whose determinant has magnitude at least 0.00001 and that share a
      point are reported, at that point. */
  lemma SegmentsThatMeetAreFound(a0: Point2, a1: Point2, b0: Point2, b1: Point2, u: real, t: real)
    requires Abs(Determinant(a0, a1, b0, b1)) >= Epsilon
    requires 0.0 <= u <= 1.0 && 0.0 <= t <= 1.0
    requires Along(a0, a1, u) == Along(b0, b1, t)
    ensures IntersectLineSegments(a0, a1, b0, b1) == Some(Along(a0, a1, u))
  {
    CramerUnique(a0, a1, b0, b1, u, t);
  }

  /** For segments whose determinant has magnitude at least 0.00001, None is
      returned exactly when the segments share no point. */
  lemma SegmentIntersectionIff(a0: Point2, a1: Point2, b0: Point2, b1: Point2)
    requires Abs(Determinant(a0, a1, b0, b1)) >= Epsilon
    ensures IntersectLineSegments(a0, a1, b0, b1).Some?
        <==> exists p :: OnSegment(p, a0, a1) && OnSegment(p, b0, b1)
  {
    if p :| OnSegment(p, a0, a1) && OnSegment(p, b0, b1) {
      var u :| 0.0 <= u <= 1.0 && p == Along(a0, a1, u);
      var t :| 0.0 <= t <= 1.0 && p == Along(b0, b1, t);
      SegmentsThatMeetAreFound(a0, a1, b0, b1, u, t);
    }
  }

  /** Collinear overlapping segments: (0,0)..(2,0) and (1,0)..(3,0) share the point
      (1,0) (CollinearOverlapShares), yet the determinant test reports no
      intersection. */
  lemma CollinearOverlapIsNotReported()
    ensures IntersectLineSegments(Point2(0.0, 0.0), Point2(2.0, 0.0), Point2(1.0, 0.0), Point2(3.0, 0.0)) == None
  {
    CollinearDeterminant(Point2(0.0, 0.0), Point2(2.0, 0.0), Point2(1.0, 0.0), Point2(3.0, 0.0));
  }

  lemma CollinearOverlapShares(p: Point2, a0: Point2, a1: Point2, b0: Point2, b1: Point2)
    requires p == Point2(1.0, 0.0)
    requires a0 == Point2(0.0, 0.0) && a1 == Point2(2.0, 0.0) && b0 == Point2(1.0, 0.0) && b1 == Point2(3.0, 0.0)
    ensures OnSegment(p, a0, a1) && OnSegment(p, b0, b1)
  {
    OnSegmentAt(p, a0, a1, 0.5);
    OnSegmentAt(p, b0, b1, 0.0);
  }

  /** The threshold is absolute: two short segments that cross at right angles have
      a determinant of 0.000002, below it, and are not reported although they share
      the point (0.0005, 0). */
  lemma ShortCrossingIsMissed(p: Point2, a0: Point2, a1: Point2, b0: Point2, b1: Point2)
    requires p.x == 0.0005 && p.y == 0.0
    requires a0.x == 0.0 && a0.y == 0.0 && a1.x == 0.001 && a1.y == 0.0
    requires b0.x == 0.0005 && b0.y == -0.001 && b1.x == 0.0005 && b1.y == 0.001
    ensures IntersectLineSegments(a0, a1, b0, b1) == None
    ensures OnSegment(p, a0, a1) && OnSegment(p, b0, b1)
  {
    ShortCrossingDeterminant(a0, a1, b0, b1);
    ShortCrossingOnFirst(p, a0, a1);
    ShortCrossingOnSecond(p, b0, b1);
  }

  lemma ShortCrossingOnFirst(p: Point2, a0: Point2, a1: Point2)
    requires p.x == 0.0005 && p.y == 0.0
    requires a0.x == 0.0 && a0.y == 0.0 && a1.x == 0.001 && a1.y == 0.0
    ensures OnSegment(p, a0, a1)
  {
    OnSegmentAt(p, a0, a1, 0.5);
  }

  lemma ShortCrossingOnSecond(p: Point2, b0: Point2, b1: Point2)
    requires p.x == 0.0005 && p.y == 0.0
    requires b0.x == 0.0005 && b0.y == -0.001 && b1.x == 0.0005 && b1.y == 0.001
    ensures OnSegment(p, b0, b1)
  {
    OnSegmentAt(p, b0, b1, 0.5);
  }

  lemma ShortCrossingDeterminant(a0: Point2, a1: Point2, b0: Point2, b1: Point2)
    requires a0.x == 0.0 && a0.y == 0.0 && a1.x == 0.001 && a1.y == 0.0
    requires b0.x == 0.0005 && b0.y == -0.001 && b1.x == 0.0005 && b1.y == 0.001
    ensures Abs(Determinant(a0, a1, b0, b1)) < Epsilon
  {
    assert Determinant(a0, a1, b0, b1) == 0.001 * 0.002;
  }

  /** A point s of the way along a segment, for s in [0, 1], is on it. */
  lemma OnSegmentAt(p: Point2, a0: Point2, a1: Point2, s: real)
    requires 0.0 <= s <= 1.0
    requires p.x == a0.x + s * (a1.x - a0.x) && p.y == a0.y + s * (a1.y - a0.y)
    ensures OnSegment(p, a0, a1)
  {
    assert p == Along(a0, a1, s);
  }

  /** Segments with a zero determinant are never reported, even when a point p
      lies on both. */
  lemma ParallelOverlapIsMissed(a0: Point2, a1: Point2, b0: Point2, b1: Point2, p: Point2, u: real, t: real)
    requires Determinant(a0, a1, b0, b1) == 0.0
    requires 0.0 <= u <= 1.0 && 0.0 <= t <= 1.0
    requires p == Along(a0, a1, u) == Along(b0, b1, t)
    ensures IntersectLineSegments(a0, a1, b0, b1) == None
    ensures OnSegment(p, a0, a1) && OnSegment(p, b0, b1)
  {
  }

  lemma CollinearDeterminant(a0: Point2, a1: Point2, b0: Point2, b1: Point2)
    requires a0 == Point2(0.0, 0.0) && a1 == Point2(2.0, 0.0) && b0 == Point2(1.0, 0.0) && b1 == Point2(3.0, 0.0)
    ensures Determinant(a0, a1, b0, b1) == 0.0
  {
  }

  /** The diagonals of the square (0,0)-(2,2) cross at (1,1). */
  lemma CrossingDiagonalsExample()
    ensures IntersectLineSegments(Point2(0.0, 0.0), Point2(2.0, 2.0), Point2(0.0, 2.0), Point2(2.0, 0.0))
         == Some(Point2(1.0, 1.0))
  {
    CrossingDiagonalsFacts(Point2(0.0, 0.0), Point2(2.0, 2.0), Point2(0.0, 2.0), Point2(2.0, 0.0));
    SegmentsThatMeetAreFound(Point2(0.0, 0.0), Point2(2.0, 2.0), Point2(0.0, 2.0), Point2(2.0, 0.0), 0.5, 0.5);
  }

  lemma CrossingDiagonalsFacts(a0: Point2, a1: Point2, b0: Point2, b1: Point2)
    requires a0 == Point2(0.0, 0.0) && a1 == Point2(2.0, 2.0) && b0 == Point2(0.0, 2.0) && b1 == Point2(2.0, 0.0)
    ensures Determinant(a0, a1, b0, b1) == -8.0
    ensures Along(a0, a1, 0.5) == Point2(1.0, 1.0) == Along(b0, b1, 0.5)
  {
  }

  /** Non-parallel segments whose lines meet outside one of them give None. */
  lemma DisjointSegmentsExample()
    ensures IntersectLineSegments(Point2(0.0, 0.0), Point2(1.0, 0.0), Point2(2.0, -1.0), Point2(2.0, 1.0))
         == None
  {
    DisjointSegmentsDeterminant(Point2(0.0, 0.0), Point2(1.0, 0.0), Point2(2.0, -1.0), Point2(2.0, 1.0));
    DisjointSegmentsMeet(Point2(0.0, 0.0), Point2(1.0, 0.0), Point2(2.0, -1.0), Point2(2.0, 1.0));
    CramerUnique(Point2(0.0, 0.0), Point2(1.0, 0.0), Point2(2.0, -1.0), Point2(2.0, 1.0), 2.0, 0.5);
  }

  lemma DisjointSegmentsDeterminant(a0: Point2, a1: Point2, b0: Point2, b1: Point2)
    requires a0 == Point2(0.0, 0.0) && a1 == Point2(1.0, 0.0) && b0 == Point2(2.0, -1.0) && b1 == Point2(2.0, 1.0)
    ensures Determinant(a0, a1, b0, b1) == 2.0
  {
  }

  lemma DisjointSegmentsMeet(a0: Point2, a1: Point2, b0: Point2, b1: Point2)
    requires a0 == Point2(0.0, 0.0) && a1 == Point2(1.0, 0.0) && b0 == Point2(2.0, -1.0) && b1 == Point2(2.0, 1.0)
    ensures Along(a0, a1, 2.0) == Point2(2.0, 0.0) == Along(b0, b1, 0.5)
  {
  }

  /** Lines that are not parallel meet at exactly one point. */
  lemma LinesMeetOnlyThere(a0: Point2, a1: Point2, b0: Point2, b1: Point2, p: Point2)
    requires IntersectLines(a0, a1, b0, b1).Some?
    requires OnLine(p, a0, a1) && OnLine(p, b0, b1)
    ensures p == IntersectLines(a0, a1, b0, b1).value
  {
    var u :| p == Along(a0, a1, u);
    var t :| p == Along(b0, b1, t);
    CramerUnique(a0, a1, b0, b1, u, t);
  }

  /** A segment intersection is the intersection of the lines through them. */
  lemma SegmentHitIsLineHit(a0: Point2, a1: Point2, b0: Point2, b1: Point2)
    requires IntersectLineSegments(a0, a1, b0, b1).Some?
    ensures IntersectLines(a0, a1, b0, b1) == IntersectLineSegments(a0, a1, b0, b1)
  {
  }

  /** lerp: hits x0 at d = 0 and x1 at d = 1, and stays between them in between. */
  function Lerp(x0: real, x1: real, d: real): (r: real)
    ensures d == 0.0 ==> r == x0
    ensures d == 1.0 ==> r == x1
    ensures 0.0 <= d <= 1.0 ==> (x0 <= r <= x1 || x1 <= r <= x0)
  {
    LerpOffset(x0, x1, d);
    x1 * d + x0 * (1.0 - d)
  }

  lemma LerpOffset(x0: real, x1: real, d: real)
    ensures x1 * d + x0 * (1.0 - d) == x0 + d * (x1 - x0)
    ensures 0.0 <= d <= 1.0 && x0 <= x1 ==> 0.0 <= d * (x1 - x0) <= x1 - x0
    ensures 0.0 <= d <= 1.0 && x1 <= x0 ==> x1 - x0 <= d * (x1 - x0) <= 0.0
  {
    if 0.0 <= d <= 1.0 {
      assert (1.0 - d) * (x1 - x0) == (x1 - x0) - d * (x1 - x0);
      if x0 <= x1 {
        MulNonneg(d, x1 - x0);
        MulNonneg(1.0 - d, x1 - x0);
      } else {
        MulNonneg(d, x0 - x1);
        MulNonneg(1.0 - d, x0 - x1);
      }
    }
  }

  /** Interpolating between larger endpoints gives a larger value. */
  lemma LerpMonotone(x0: real, x1: real, y0: real, y1: real, d: real)
    requires 0.0 <= d <= 1.0
    requires x0 <= y0 && x1 <= y1
    ensures Lerp(x0, x1, d) <= Lerp(y0, y1, d)
  {
    assert Lerp(y0, y1, d) - Lerp(x0, x1, d) == (y1 - x1) * d + (y0 - x0) * (1.0 - d);
    MulNonneg(y1 - x1, d);
    MulNonneg(y0 - x0, 1.0 - d);
  }

  lemma MulNonneg(a: real, b: real)
    requires 0.0 <= a && 0.0 <= b
    ensures 0.0 <= a * b
    ensures 0.0 < a && 0.0 < b ==> 0.0 < a * b
  {
  }

  /** point2_mul_scaler: both coordinates multiplied by scale. */
  function MulScaler(l: Point2, scale: real): (r: Point2)
    ensures scale == 1.0 ==> r == l
    ensures scale == 0.0 ==> r == Origin
    ensures scale > 0.0 ==> (r.x < 0.0 <==> l.x < 0.0) && (r.y < 0.0 <==> l.y < 0.0)
  {
    Point2(l.x * scale, l.y * scale)
  }

  /** point2_div_scaler as written: it multiplies, exactly like point2_mul_scaler. */
  function DivScaler(l: Point2, scale: real): (r: Point2)
    ensures r == MulScaler(l, scale)
  {
    Point2(l.x * scale, l.y * scale)
  }

  /** What point2_div_scaler's name promises: both coordinates divided by scale. */
  function DivScalerIntended(l: Point2, scale: real): (r: Point2)
    requires scale != 0.0
    ensures MulScaler(r, scale) == l
  {
    Point2(l.x / scale, l.y / scale)
  }

  /** Scaling twice scales by the product. */
  lemma MulScalerComposes(l: Point2, a: real, b: real)
    ensures MulScaler(MulScaler(l, a), b) == MulScaler(l, a * b)
  {
    assert l.x * a * b == l.x * (a * b);
    assert l.y * a * b == l.y * (a * b);
  }

  /** The as-written division helper does not undo a multiplication: the round trip
      gives back l only for the origin or a scale of 1 or -1, and (1,1) scaled by 2
      and "divided" by 2 is (4,4). */
  lemma DivScalerMultiplies(l: Point2, scale: real)
    ensures DivScaler(MulScaler(l, scale), scale) == l <==> l == Origin || scale * scale == 1.0
    ensures DivScaler(MulScaler(Point2(1.0, 1.0), 2.0), 2.0) == Point2(4.0, 4.0)
  {
    MulScalerComposes(l, scale, scale);
    var s2 := scale * scale;
    assert (l.x * s2 == l.x <==> l.x * (s2 - 1.0) == 0.0) && (l.y * s2 == l.y <==> l.y * (s2 - 1.0) == 0.0);
    ProductZero(l.x, s2 - 1.0);
    ProductZero(l.y, s2 - 1.0);
  }

  lemma ProductZero(a: real, b: real)
    ensures a * b == 0.0 <==> a == 0.0 || b == 0.0
  {
  }

  /** The corrected division undoes point2_mul_scaler for every nonzero scale. */
  lemma DivScalerIntendedUndoesMul(l: Point2, scale: real)
    requires scale != 0.0
    ensures DivScalerIntended(MulScaler(l, scale), scale) == l
  {
  }
}
