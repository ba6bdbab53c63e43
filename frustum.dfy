/** clip_to_frustum: cutting a camera-space wall to the trapezoid between the near
    and far planes and inside the 90-degree field of view. The corners are numbered
    as in main.c: F0 near right, F1 far right, F2 far left, F3 near left. The
    procedure is modelled as written, including its "sort by y", whose two branches
    are the same, so that the lower endpoint is always w1 and the higher one w0. */
module Frustum {
  import opened Geometry

  const NearPlane: real := 0.1
  const FarPlane: real := 100.0
  const Fov: real := 1.0

  const F0: Point2 := Point2(NearPlane * Fov, NearPlane)
  const F1: Point2 := Point2(FarPlane * Fov, FarPlane)
  const F2: Point2 := Point2(FarPlane * -Fov, FarPlane)
  const F3: Point2 := Point2(NearPlane * -Fov, NearPlane)

  /** The frustum as a region: between the planes and inside the field of view. */
  ghost predicate InFrustum(p: Point2)
  {
    NearPlane <= p.y <= FarPlane && -p.y * Fov <= p.x <= p.y * Fov
  }

  /** isnormal(hit.x) on the sentinel-returning intersection: a point was found and
      its x is neither NaN nor zero. */
  predicate IsNormalX(hit: Option<Point2>)
  {
    hit.Some? && hit.value.x != 0.0
  }

  /** One clipping step: the endpoint e is replaced by the intersection of the wall
      w0..w1 with the frustum edge edge0..edge1, when that intersection exists and has
      a nonzero x; otherwise e stays. */
  function ClipAgainst(e: Point2, edge0: Point2, edge1: Point2, w0: Point2, w1: Point2): (r: Point2)
    ensures IsNormalX(IntersectLineSegments(edge0, edge1, w0, w1)) ==>
      OnSegment(r, edge0, edge1) && OnSegment(r, w0, w1) && r.x != 0.0
    ensures !IsNormalX(IntersectLineSegments(edge0, edge1, w0, w1)) ==> r == e
  {
    var hit := IntersectLineSegments(edge0, edge1, w0, w1);
    if IsNormalX(hit) then hit.value else e
  }

  /** The outcome of clip_to_frustum: its return value and the two endpoints as they
      are left behind, whether or not the wall is visible. */
  datatype Clipped = Clipped(visible: bool, w0: Point2, w1: Point2)

  /** The endpoints after the left and right clips, the first two steps. */
  function SideClip(w0: Point2, w1: Point2): (r: (Point2, Point2))
    ensures r.0 == w0 || OnSegment(r.0, F2, F3)
    ensures r.1 == w1 || OnSegment(r.1, F0, F1)
  {
    var a0 := ClipAgainst(w0, F2, F3, w0, w1);
    var a1 := ClipAgainst(w1, F0, F1, a0, w1);
    (a0, a1)
  }

  /** What clip_to_frustum computes. After the side clips the wall is rejected when
      its ends are out of x order, when w1 (taken as the lower end) is beyond the far
      plane, or when w0 (taken as the higher end) is before the near plane, and it is
      rejected in no other case. A visible wall then has w1 clipped to the near edge
      and w0 to the far edge. */
  function ClipSpec(w0: Point2, w1: Point2): (c: Clipped)
    ensures var (a0, a1) := SideClip(w0, w1);
      c.visible <==> a0.x <= a1.x && a1.y <= FarPlane && a0.y >= NearPlane
  {
    var (a0, a1) := SideClip(w0, w1);
    if a0.x > a1.x then Clipped(false, a0, a1)
    else if a1.y > FarPlane then Clipped(false, a0, a1)
    else if a0.y < NearPlane then Clipped(false, a0, a1)
    else
      var b1 := ClipAgainst(a1, F0, F3, a0, a1);
      var b0 := ClipAgainst(a0, F1, F2, a0, b1);
      Clipped(true, b0, b1)
  }

  /** clip_to_frustum, step by step: the endpoints are overwritten in place, and the
      lowest/highest aliases are a flag saying which endpoint each one names. */
  method ClipToFrustum(w0: Point2, w1: Point2) returns (visible: bool, r0: Point2, r1: Point2)
    ensures Clipped(visible, r0, r1) == ClipSpec(w0, w1)
    ensures var (a0, a1) := SideClip(w0, w1);
      visible <==> a0.x <= a1.x && a1.y <= FarPlane && a0.y >= NearPlane
  {
    r0, r1 := w0, w1;
    var leftClip := IntersectLineSegments(F2, F3, r0, r1);
    if IsNormalX(leftClip) {
      r0 := leftClip.value;
    }
    var rightClip := IntersectLineSegments(F0, F1, r0, r1);
    if IsNormalX(rightClip) {
      r1 := rightClip.value;
    }
    if r0.x > r1.x {
      return false, r0, r1;
    }

    // true when lowest_y names w0; both branches of the source pick w1
    var lowestIsW0: bool;
    if r0.y > r1.y {
      lowestIsW0 := false;
    } else {
      lowestIsW0 := false;
    }
    var lowest, highest := if lowestIsW0 then r0 else r1, if lowestIsW0 then r1 else r0;
    if lowest.y > FarPlane {
      return false, r0, r1;
    }
    if highest.y < NearPlane {
      return false, r0, r1;
    }

    var nearClip := IntersectLineSegments(F0, F3, r0, r1);
    if IsNormalX(nearClip) {
      var clipped := nearClip.value;
      if lowestIsW0 { r0 := clipped; } else { r1 := clipped; }
    }
    var farClip := IntersectLineSegments(F1, F2, r0, r1);
    if IsNormalX(farClip) {
      var clipped := farClip.value;
      if lowestIsW0 { r1 := clipped; } else { r0 := clipped; }
    }
    visible := true;
  }

  /** p lies on the segment whose ends lie on w0..w1: it lies on w0..w1. */
  lemma SubSegment(p: Point2, a: Point2, b: Point2, w0: Point2, w1: Point2)
    requires OnSegment(p, a, b) && OnSegment(a, w0, w1) && OnSegment(b, w0, w1)
    ensures OnSegment(p, w0, w1)
  {
    var s :| 0.0 <= s <= 1.0 && p == Along(a, b, s);
    var sa :| 0.0 <= sa <= 1.0 && a == Along(w0, w1, sa);
    var sb :| 0.0 <= sb <= 1.0 && b == Along(w0, w1, sb);
    AlongAlong(w0, w1, sa, sb, s);
    ConvexParameter(sa, sb, s);
  }

  /** The point a fraction s between the points at sa and sb of a segment is the
      point at sa + s * (sb - sa). */
  lemma AlongAlong(w0: Point2, w1: Point2, sa: real, sb: real, s: real)
    ensures Along(Along(w0, w1, sa), Along(w0, w1, sb), s) == Along(w0, w1, sa + s * (sb - sa))
  {
    var a, b, r := Along(w0, w1, sa), Along(w0, w1, sb), sa + s * (sb - sa);
    AlongAlongCoord(w0.x, w1.x, sa, sb, s);
    AlongAlongCoord(w0.y, w1.y, sa, sb, s);
    assert Along(a, b, s).x == Along(w0, w1, r).x;
    assert Along(a, b, s).y == Along(w0, w1, r).y;
  }

  /** AlongAlong for one coordinate. */
  lemma AlongAlongCoord(p: real, q: real, sa: real, sb: real, s: real)
    ensures (p + sa * (q - p)) + s * ((p + sb * (q - p)) - (p + sa * (q - p)))
         == p + (sa + s * (sb - sa)) * (q - p)
  {
    var d := q - p;
    assert (p + sb * d) - (p + sa * d) == (sb - sa) * d;
    assert s * ((sb - sa) * d) == (s * (sb - sa)) * d;
    assert sa * d + (s * (sb - sa)) * d == (sa + s * (sb - sa)) * d;
  }

  lemma ConvexParameter(sa: real, sb: real, s: real)
    requires 0.0 <= sa <= 1.0 && 0.0 <= sb <= 1.0 && 0.0 <= s <= 1.0
    ensures 0.0 <= sa + s * (sb - sa) <= 1.0
  {
    LerpOffset(sa, sb, s);
  }

  lemma EndsOnSegment(w0: Point2, w1: Point2)
    ensures OnSegment(w0, w0, w1) && OnSegment(w1, w0, w1)
  {
    assert w0 == Along(w0, w1, 0.0);
    assert w1 == Along(w0, w1, 1.0);
  }

  /** A step that clips the segment a..b, whose ends lie on w0..w1, to a point of a..b
      or keeps e, which lies on w0..w1, leaves a point of w0..w1. */
  lemma ClipAgainstStaysOnWall(e: Point2, edge0: Point2, edge1: Point2, a: Point2, b: Point2, w0: Point2, w1: Point2)
    requires OnSegment(e, w0, w1) && OnSegment(a, w0, w1) && OnSegment(b, w0, w1)
    ensures OnSegment(ClipAgainst(e, edge0, edge1, a, b), w0, w1)
  {
    if IsNormalX(IntersectLineSegments(edge0, edge1, a, b)) {
      SubSegment(ClipAgainst(e, edge0, edge1, a, b), a, b, w0, w1);
    }
  }

  /** Clipping never lengthens a wall: both endpoints it leaves behind lie on the
      original wall, whether the wall is visible or not. */
  lemma ClipStaysOnWall(w0: Point2, w1: Point2)
    ensures OnSegment(ClipSpec(w0, w1).w0, w0, w1) && OnSegment(ClipSpec(w0, w1).w1, w0, w1)
  {
    EndsOnSegment(w0, w1);
    var a0 := ClipAgainst(w0, F2, F3, w0, w1);
    ClipAgainstStaysOnWall(w0, F2, F3, w0, w1, w0, w1);
    var a1 := ClipAgainst(w1, F0, F1, a0, w1);
    ClipAgainstStaysOnWall(w1, F0, F1, a0, w1, w0, w1);
    if a0.x <= a1.x && a1.y <= FarPlane && a0.y >= NearPlane {
      var b1 := ClipAgainst(a1, F0, F3, a0, a1);
      ClipAgainstStaysOnWall(a1, F0, F3, a0, a1, w0, w1);
      ClipAgainstStaysOnWall(a0, F1, F2, a0, b1, w0, w1);
    }
  }

  /** Every endpoint clipping replaces ends up on a frustum edge with a nonzero x: w0
      on the left or the far edge, w1 on the right or the near edge. */
  lemma ClipMovesEndpointsOntoEdges(w0: Point2, w1: Point2)
    ensures var c := ClipSpec(w0, w1);
      c.w0 == w0 || (c.w0.x != 0.0 && (OnSegment(c.w0, F2, F3) || OnSegment(c.w0, F1, F2)))
    ensures var c := ClipSpec(w0, w1);
      c.w1 == w1 || (c.w1.x != 0.0 && (OnSegment(c.w1, F0, F1) || OnSegment(c.w1, F0, F3)))
  {
  }

  /** a*x + b*y + c: which side of the line a*x + b*y + c == 0 a point is on. */
  function Side(p: Point2, a: real, b: real, c: real): real
  {
    a * p.x + b * p.y + c
  }

  lemma SideAlong(p: Point2, q: Point2, s: real, a: real, b: real, c: real)
    ensures Side(Along(p, q, s), a, b, c) == Lerp(Side(p, a, b, c), Side(q, a, b, c), s)
  {
    LerpOffset(Side(p, a, b, c), Side(q, a, b, c), s);
    assert a * (p.x + s * (q.x - p.x)) + b * (p.y + s * (q.y - p.y)) + c
        == Side(p, a, b, c) + s * (Side(q, a, b, c) - Side(p, a, b, c));
  }

  /** A wall strictly on the positive side of a line misses every frustum edge on
      its non-positive side: the clip against that edge keeps the endpoint. */
  lemma SeparatedSegmentsMiss(e0: Point2, e1: Point2, w0: Point2, w1: Point2, a: real, b: real, c: real)
    requires Side(e0, a, b, c) <= 0.0 && Side(e1, a, b, c) <= 0.0
    requires Side(w0, a, b, c) > 0.0 && Side(w1, a, b, c) > 0.0
    ensures IntersectLineSegments(e0, e1, w0, w1) == None
  {
    var hit := IntersectLineSegments(e0, e1, w0, w1);
    if hit.Some? {
      var p := hit.value;
      var s :| 0.0 <= s <= 1.0 && p == Along(e0, e1, s);
      var t :| 0.0 <= t <= 1.0 && p == Along(w0, w1, t);
      SideAlong(e0, e1, s, a, b, c);
      SideAlong(w0, w1, t, a, b, c);
      assert false;
    }
  }

  /** The wall (0, 0.05)..(0.5, 1.05) runs through (0.25, 0.55), well inside the
      frustum, but its w0 is before the near plane, and w0 is the only end that test
      looks at: it is rejected. */
  lemma RejectsWallCrossingView(w0: Point2, w1: Point2)
    requires w0 == Point2(0.0, 0.05) && w1 == Point2(0.5, 1.05)
    ensures !ClipSpec(w0, w1).visible
    ensures OnSegment(Point2(0.25, 0.55), w0, w1) && InFrustum(Point2(0.25, 0.55))
  {
    CrossingViewMissesLeft(w0, w1);
    CrossingViewMissesRight(w0, w1);
    RejectedBeforeNearPlane(w0, w1);
    OnSegmentAt(Point2(0.25, 0.55), w0, w1, 0.5);
  }

  /** The line x + y == 0 separates the wall (0, 0.05)..(0.5, 1.05) from the left
      frustum edge. */
  lemma CrossingViewMissesLeft(w0: Point2, w1: Point2)
    requires w0 == Point2(0.0, 0.05) && w1 == Point2(0.5, 1.05)
    ensures IntersectLineSegments(F2, F3, w0, w1) == None
  {
    SeparatedSegmentsMiss(F2, F3, w0, w1, 1.0, 1.0, 0.0);
  }

  /** The line x == y separates it from the right frustum edge. */
  lemma CrossingViewMissesRight(w0: Point2, w1: Point2)
    requires w0 == Point2(0.0, 0.05) && w1 == Point2(0.5, 1.05)
    ensures IntersectLineSegments(F0, F1, w0, w1) == None
  {
    SeparatedSegmentsMiss(F0, F1, w0, w1, -1.0, 1.0, 0.0);
  }

  /** A wall that meets neither side edge leaves the side clips unchanged. */
  lemma SidesMissedKeepEnds(w0: Point2, w1: Point2)
    requires IntersectLineSegments(F2, F3, w0, w1) == None && IntersectLineSegments(F0, F1, w0, w1) == None
    ensures SideClip(w0, w1) == (w0, w1)
  {
  }

  /** Such a wall whose w0 is before the near plane is rejected. */
  lemma RejectedBeforeNearPlane(w0: Point2, w1: Point2)
    requires IntersectLineSegments(F2, F3, w0, w1) == None && IntersectLineSegments(F0, F1, w0, w1) == None
    requires w0.y < NearPlane
    ensures !ClipSpec(w0, w1).visible
  {
    SidesMissedKeepEnds(w0, w1);
  }

  /** A wall in x order, not beyond the far plane at w1 nor before the near plane at
      w0, that meets no frustum edge is accepted unchanged. */
  lemma KeptWhenEdgesMissed(w0: Point2, w1: Point2)
    requires IntersectLineSegments(F2, F3, w0, w1) == None && IntersectLineSegments(F0, F1, w0, w1) == None
    requires IntersectLineSegments(F0, F3, w0, w1) == None && IntersectLineSegments(F1, F2, w0, w1) == None
    requires w0.x <= w1.x && w1.y <= FarPlane && w0.y >= NearPlane
    ensures ClipSpec(w0, w1) == Clipped(true, w0, w1)
  {
    SidesMissedKeepEnds(w0, w1);
  }

  /** The wall (5, 1)..(6, 1) lies wholly to the right of the field of view, yet
      nothing rejects it and nothing clips it. */
  lemma AcceptsWallOutsideView(w0: Point2, w1: Point2)
    requires w0 == Point2(5.0, 1.0) && w1 == Point2(6.0, 1.0)
    ensures ClipSpec(w0, w1) == Clipped(true, w0, w1)
    ensures forall p :: OnSegment(p, w0, w1) ==> !InFrustum(p)
  {
    OutsideViewMissesEdges(w0, w1);
    KeptWhenEdgesMissed(w0, w1);
    forall p | OnSegment(p, w0, w1)
      ensures !InFrustum(p)
    {
      var s :| 0.0 <= s <= 1.0 && p == Along(w0, w1, s);
      assert p.x == 5.0 + s && p.y == 1.0;
    }
  }

  lemma OutsideViewMissesEdges(w0: Point2, w1: Point2)
    requires w0 == Point2(5.0, 1.0) && w1 == Point2(6.0, 1.0)
    ensures IntersectLineSegments(F2, F3, w0, w1) == None && IntersectLineSegments(F0, F1, w0, w1) == None
    ensures IntersectLineSegments(F0, F3, w0, w1) == None && IntersectLineSegments(F1, F2, w0, w1) == None
  {
    SeparatedSegmentsMiss(F2, F3, w0, w1, 1.0, 1.0, 0.0);
    SeparatedSegmentsMiss(F0, F1, w0, w1, 1.0, -1.0, 0.0);
    SeparatedSegmentsMiss(F0, F3, w0, w1, 0.0, 1.0, -NearPlane);
    SeparatedSegmentsMiss(F1, F2, w0, w1, 0.0, -1.0, FarPlane);
  }

  /** The wall (-5, 1)..(-4, -1) lies wholly to the left of the field of view and
      reaches behind the camera; it is accepted unchanged, with w1 at negative depth. */
  lemma AcceptsWallBehindCamera(w0: Point2, w1: Point2)
    requires w0 == Point2(-5.0, 1.0) && w1 == Point2(-4.0, -1.0)
    ensures ClipSpec(w0, w1) == Clipped(true, w0, w1)
    ensures w1.y < 0.0
    ensures forall p :: OnSegment(p, w0, w1) ==> !InFrustum(p)
  {
    BehindCameraMissesEdges(w0, w1);
    KeptWhenEdgesMissed(w0, w1);
    forall p | OnSegment(p, w0, w1)
      ensures !InFrustum(p)
    {
      var s :| 0.0 <= s <= 1.0 && p == Along(w0, w1, s);
    }
  }

  /** The line x + y == 0 separates the wall (-5, 1)..(-4, -1) from all four
      frustum edges. */
  lemma BehindCameraMissesEdges(w0: Point2, w1: Point2)
    requires w0 == Point2(-5.0, 1.0) && w1 == Point2(-4.0, -1.0)
    ensures IntersectLineSegments(F2, F3, w0, w1) == None && IntersectLineSegments(F0, F1, w0, w1) == None
    ensures IntersectLineSegments(F0, F3, w0, w1) == None && IntersectLineSegments(F1, F2, w0, w1) == None
  {
    SeparatedSegmentsMiss(F2, F3, w0, w1, -1.0, -1.0, 0.0);
    SeparatedSegmentsMiss(F0, F1, w0, w1, -1.0, -1.0, 0.0);
    SeparatedSegmentsMiss(F0, F3, w0, w1, -1.0, -1.0, 0.0);
    SeparatedSegmentsMiss(F1, F2, w0, w1, -1.0, -1.0, 0.0);
  }
}
