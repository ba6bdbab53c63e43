/** The coordinate spaces of main.c. World space is the map's plane. Camera space
    puts the camera at the origin looking along +y with +x to its right. Normalised
    screen space divides by depth, so the field of view |x| <= y lands in
    [-1, 1]. Pixel space is the screen's: x grows rightwards, y grows downwards. */
module Transform {
  import opened Geometry
  import opened World

  function SqNorm(v: Point2): real
  {
    v.x * v.x + v.y * v.y
  }

  /** The camera's position in world space. */
  function Position(camera: Camera): Point2
    reads camera
  {
    Point2(camera.location.x, camera.location.y)
  }

  /** The cached cosine and sine describe a true rotation. cos and sin make this so;
      they are outside this model. */
  predicate UnitAngle(cosA: real, sinA: real)
  {
    cosA * cosA + sinA * sinA == 1.0
  }

  /** The rotation world_to_camera_space applies after translating. */
  function Rotate(v: Point2, cosA: real, sinA: real): Point2
  {
    Point2(v.x * cosA - v.y * sinA, v.x * sinA + v.y * cosA)
  }

  lemma RotationKeepsNorm(v: Point2, cosA: real, sinA: real)
    ensures UnitAngle(cosA, sinA) ==> SqNorm(Rotate(v, cosA, sinA)) == SqNorm(v)
  {
    var r := Rotate(v, cosA, sinA);
    calc {
      SqNorm(r);
      (v.x * cosA - v.y * sinA) * (v.x * cosA - v.y * sinA) + (v.x * sinA + v.y * cosA) * (v.x * sinA + v.y * cosA);
      v.x * v.x * (cosA * cosA + sinA * sinA) + v.y * v.y * (cosA * cosA + sinA * sinA);
    }
  }

  /** Rotating both vectors keeps their cross product, so a turn seen from the
      camera keeps its direction. */
  lemma RotationKeepsCross(a: Point2, b: Point2, cosA: real, sinA: real)
    requires UnitAngle(cosA, sinA)
    ensures Cross(Rotate(a, cosA, sinA), Rotate(b, cosA, sinA)) == Cross(a, b)
  {
    var ra, rb := Rotate(a, cosA, sinA), Rotate(b, cosA, sinA);
    calc {
      Cross(ra, rb);
      -(b.x * cosA - b.y * sinA) * (a.x * sinA + a.y * cosA) + (a.x * cosA - a.y * sinA) * (b.x * sinA + b.y * cosA);
      (-b.x * a.y + a.x * b.y) * (cosA * cosA + sinA * sinA);
    }
  }

  /** Rotating by the opposite angle undoes a rotation. */
  lemma RotationInverts(v: Point2, cosA: real, sinA: real)
    requires UnitAngle(cosA, sinA)
    ensures Rotate(Rotate(v, cosA, sinA), cosA, -sinA) == v
  {
    var r := Rotate(v, cosA, sinA);
    assert r.x * cosA + r.y * sinA == v.x * (cosA * cosA + sinA * sinA);
    assert -r.x * sinA + r.y * cosA == v.y * (cosA * cosA + sinA * sinA);
  }

  /** world_to_camera_space: translate so that the camera is at the origin, then
      rotate by the camera's cached angle. The camera's own position lands on the
      origin, and a true rotation keeps every distance from the camera. */
  function WorldToCamera(camera: Camera, world: Point2): (r: Point2)
    reads camera
    ensures world == Position(camera) ==> r == Origin
    ensures UnitAngle(camera.angleCos, camera.angleSin) ==>
      SqNorm(r) == SqNorm(Sub(world, Position(camera)))
  {
    var translated := Point2(world.x - camera.location.x, world.y - camera.location.y);
    RotationKeepsNorm(translated, camera.angleCos, camera.angleSin);
    Rotate(translated, camera.angleCos, camera.angleSin)
  }

  /** The inverse of world_to_camera_space for a true rotation. */
  function CameraToWorld(camera: Camera, p: Point2): Point2
    reads camera
  {
    var back := Rotate(p, camera.angleCos, -camera.angleSin);
    Point2(back.x + camera.location.x, back.y + camera.location.y)
  }

  lemma WorldToCameraRoundTrip(camera: Camera, world: Point2)
    requires UnitAngle(camera.angleCos, camera.angleSin)
    ensures CameraToWorld(camera, WorldToCamera(camera, world)) == world
  {
    RotationInverts(Sub(world, Position(camera)), camera.angleCos, camera.angleSin);
  }

  /** Whether a wall turns clockwise around the camera does not depend on the space it
      is measured in. */
  lemma WorldToCameraKeepsTurn(camera: Camera, a: Point2, b: Point2)
    requires UnitAngle(camera.angleCos, camera.angleSin)
    ensures Cross(WorldToCamera(camera, a), WorldToCamera(camera, b))
         == Cross(Sub(a, Position(camera)), Sub(b, Position(camera)))
  {
    RotationKeepsCross(Sub(a, Position(camera)), Sub(b, Position(camera)), camera.angleCos, camera.angleSin);
  }

  /** The camera looks along (sin, cos): the point k units ahead of it is at depth k
      straight ahead in camera space. */
  lemma CameraLooksAlongAngle(camera: Camera, k: real)
    requires UnitAngle(camera.angleCos, camera.angleSin)
    ensures WorldToCamera(camera, Point2(camera.location.x + k * camera.angleSin,
                                         camera.location.y + k * camera.angleCos))
         == Point2(0.0, k)
  {
    var s, c := camera.angleSin, camera.angleCos;
    assert (k * s) * s + (k * c) * c == k * (c * c + s * s);
  }

  /** camera_to_screen_space: the perspective divide by the depth y. It needs a
      nonzero depth; the frustum edges x = y and x = -y land on screen x 1 and -1,
      and everything between them inside [-1, 1]. */
  function CameraToScreen(c: Point2, z: real): (r: Point2)
    requires c.y != 0.0
    ensures r.x * c.y == c.x && r.y * c.y == z
    ensures c.x == c.y ==> r.x == 1.0
    ensures c.x == -c.y ==> r.x == -1.0
    ensures c.y > 0.0 && -c.y <= c.x <= c.y ==> -1.0 <= r.x <= 1.0
  {
    DivideWithin(c.x, c.y);
    Point2(c.x / c.y, z / c.y)
  }

  lemma DivideWithin(x: real, y: real)
    requires y != 0.0
    ensures y > 0.0 && -y <= x <= y ==> -1.0 <= x / y <= 1.0
  {
    if y > 0.0 && -y <= x <= y {
      assert (x / y) * y == x;
    }
  }

  /** normalized_screen_to_pixel: the affine map from [-1, 1] x [-1, 1] onto the
      screen, flipping y. The corners of the normalised square go to the screen's. */
  function NormalizedScreenToPixel(s: Point2, screenh: real, screenw: real): (r: Point2)
    ensures s.x == -1.0 ==> r.x == 0.0
    ensures s.x == 1.0 ==> r.x == screenw
    ensures s.y == 1.0 ==> r.y == 0.0
    ensures s.y == -1.0 ==> r.y == screenh
  {
    Point2((s.x + 1.0) * (screenw / 2.0), ((-s.y) + 1.0) * (screenh / 2.0))
  }

  /** Further right on screen is further right in pixels; higher up on screen is a
      smaller pixel row. */
  lemma PixelMapMonotone(a: Point2, b: Point2, screenh: real, screenw: real)
    requires screenh > 0.0 && screenw > 0.0
    ensures a.x < b.x ==> NormalizedScreenToPixel(a, screenh, screenw).x < NormalizedScreenToPixel(b, screenh, screenw).x
    ensures a.y < b.y ==> NormalizedScreenToPixel(a, screenh, screenw).y > NormalizedScreenToPixel(b, screenh, screenw).y
  {
    PixelColumnsIncrease(a, b, screenh, screenw);
    PixelRowsDecrease(a, b, screenh, screenw);
  }

  lemma PixelColumnsIncrease(a: Point2, b: Point2, screenh: real, screenw: real)
    requires screenw > 0.0
    ensures a.x < b.x ==> NormalizedScreenToPixel(a, screenh, screenw).x < NormalizedScreenToPixel(b, screenh, screenw).x
  {
    if a.x < b.x {
      var k := screenw / 2.0;
      ScaleIncreasing(a.x + 1.0, b.x + 1.0, k);
      assert NormalizedScreenToPixel(a, screenh, screenw).x == (a.x + 1.0) * k;
      assert NormalizedScreenToPixel(b, screenh, screenw).x == (b.x + 1.0) * k;
    }
  }

  lemma PixelRowsDecrease(a: Point2, b: Point2, screenh: real, screenw: real)
    requires screenh > 0.0
    ensures a.y < b.y ==> NormalizedScreenToPixel(a, screenh, screenw).y > NormalizedScreenToPixel(b, screenh, screenw).y
  {
    if a.y < b.y {
      var k := screenh / 2.0;
      ScaleIncreasing((-b.y) + 1.0, (-a.y) + 1.0, k);
      assert NormalizedScreenToPixel(a, screenh, screenw).y == ((-a.y) + 1.0) * k;
      assert NormalizedScreenToPixel(b, screenh, screenw).y == ((-b.y) + 1.0) * k;
    }
  }

  lemma ScaleIncreasing(u: real, v: real, k: real)
    requires k > 0.0
    ensures u < v ==> u * k < v * k
  {
    if u < v {
      assert v * k - u * k == (v - u) * k;
      MulNonneg(v - u, k);
    }
  }

  /** The inverse of normalized_screen_to_pixel on a screen of nonzero size. */
  function PixelToNormalizedScreen(p: Point2, screenh: real, screenw: real): Point2
    requires screenh != 0.0 && screenw != 0.0
  {
    Point2(p.x / (screenw / 2.0) - 1.0, 1.0 - p.y / (screenh / 2.0))
  }

  lemma PixelMapRoundTrip(s: Point2, p: Point2, screenh: real, screenw: real)
    requires screenh != 0.0 && screenw != 0.0
    ensures PixelToNormalizedScreen(NormalizedScreenToPixel(s, screenh, screenw), screenh, screenw) == s
    ensures NormalizedScreenToPixel(PixelToNormalizedScreen(p, screenh, screenw), screenh, screenw) == p
  {
  }

  /** camera_to_pixel_space: projection followed by the pixel map. The right and left
      frustum edges land on the screen's right and left borders, the line straight
      ahead on its middle column, and every point in between in a column from 0 to
      screenw; its row is not bounded, which is why render_room clamps the rows. */
  function CameraToPixel(c: Point2, z: real, screenh: real, screenw: real): (r: Point2)
    requires c.y != 0.0
    ensures c.x == c.y ==> r.x == screenw
    ensures c.x == -c.y ==> r.x == 0.0
    ensures c.x == 0.0 ==> r.x == screenw / 2.0
    ensures screenw > 0.0 && c.y > 0.0 && -c.y <= c.x <= c.y ==> 0.0 <= r.x <= screenw
  {
    var s := CameraToScreen(c, z);
    ScaleWithin(s.x, screenw);
    NormalizedScreenToPixel(s, screenh, screenw)
  }

  lemma ScaleWithin(sx: real, screenw: real)
    ensures screenw > 0.0 && -1.0 <= sx <= 1.0 ==> 0.0 <= (sx + 1.0) * (screenw / 2.0) <= screenw
  {
    if screenw > 0.0 && -1.0 <= sx <= 1.0 {
      MulNonneg(sx + 1.0, screenw / 2.0);
      MulNonneg(1.0 - sx, screenw / 2.0);
    }
  }

  /** For a wall corner in front of the camera, the corner at height 0.5 is drawn
      above the middle row and the one at -0.5 below it, in the same column. Behind
      the camera the two swap. */
  lemma WallTopAboveBottom(c: Point2, screenh: real, screenw: real)
    requires c.y != 0.0 && screenh > 0.0
    ensures CameraToPixel(c, 0.5, screenh, screenw).x == CameraToPixel(c, -0.5, screenh, screenw).x
    ensures c.y > 0.0 ==> CameraToPixel(c, 0.5, screenh, screenw).y < screenh / 2.0 < CameraToPixel(c, -0.5, screenh, screenw).y
    ensures c.y < 0.0 ==> CameraToPixel(c, 0.5, screenh, screenw).y > screenh / 2.0 > CameraToPixel(c, -0.5, screenh, screenw).y
  {
    assert CameraToScreen(c, 0.5).x == CameraToScreen(c, -0.5).x;
    WallCornerRows(c, screenh, screenw);
  }

  lemma WallCornerRows(c: Point2, screenh: real, screenw: real)
    requires c.y != 0.0 && screenh > 0.0
    ensures c.y > 0.0 ==> CameraToPixel(c, 0.5, screenh, screenw).y < screenh / 2.0 < CameraToPixel(c, -0.5, screenh, screenw).y
    ensures c.y < 0.0 ==> CameraToPixel(c, 0.5, screenh, screenw).y > screenh / 2.0 > CameraToPixel(c, -0.5, screenh, screenw).y
  {
    var up, low := CameraToScreen(c, 0.5), CameraToScreen(c, -0.5);
    assert CameraToPixel(c, 0.5, screenh, screenw).y == ((-up.y) + 1.0) * (screenh / 2.0);
    assert CameraToPixel(c, -0.5, screenh, screenw).y == ((-low.y) + 1.0) * (screenh / 2.0);
    assert low.y == -up.y;
    HeightSign(c);
    RowsAroundMiddle(up.y, low.y, screenh / 2.0);
  }

  /** Screen heights a and -a land on either side of the middle row, the positive
      one above it. */
  lemma RowsAroundMiddle(a: real, b: real, half: real)
    requires b == -a && half > 0.0
    ensures a > 0.0 ==> ((-a) + 1.0) * half < half < ((-b) + 1.0) * half
    ensures a < 0.0 ==> ((-a) + 1.0) * half > half > ((-b) + 1.0) * half
  {
    assert ((-a) + 1.0) * half == half - a * half;
    assert ((-b) + 1.0) * half == (a + 1.0) * half == half + a * half;
    if a > 0.0 { MulNonneg(a, half); }
    if a < 0.0 { MulNonneg(-a, half); assert (-a) * half == -(a * half); }
  }

  /** Height 0.5 divided by the depth has the depth's sign. */
  lemma HeightSign(c: Point2)
    requires c.y != 0.0
    ensures c.y > 0.0 ==> CameraToScreen(c, 0.5).y > 0.0
    ensures c.y < 0.0 ==> CameraToScreen(c, 0.5).y < 0.0
  {
    var u := CameraToScreen(c, 0.5).y;
    assert u * c.y == 0.5;
    if c.y > 0.0 && u <= 0.0 { MulNonneg(-u, c.y); }
    if c.y < 0.0 && u >= 0.0 { MulNonneg(u, -c.y); }
  }

  /** Two wall ends in front of the camera that turn clockwise around it (the order
      map.h asks of a room's vertices) are drawn left to right. */
  lemma FrontFacingWallAscends(a: Point2, b: Point2, za: real, zb: real, screenh: real, screenw: real)
    requires a.y > 0.0 && b.y > 0.0 && screenw > 0.0
    requires Cross(a, b) < 0.0
    ensures CameraToPixel(a, za, screenh, screenw).x < CameraToPixel(b, zb, screenh, screenw).x
  {
    var sa, sb := CameraToScreen(a, za), CameraToScreen(b, zb);
    // sa.x * a.y == a.x and sb.x * b.y == b.x, so the cross product is
    // (sa.x - sb.x) * a.y * b.y, and the product of the depths is positive
    assert Cross(a, b) == (sa.x - sb.x) * (a.y * b.y);
    MulNonneg(a.y, b.y);
    if sa.x >= sb.x {
      MulNonneg(sa.x - sb.x, a.y * b.y);
    }
    PixelMapMonotone(sa, sb, 1.0, screenw);
  }
}
