/** render_room: every wall of the camera's room is brought into camera space,
    clipped to the frustum, projected, and drawn column by column as a white
    trapezoid. Three outcomes are told apart:
    - Completed: the frame was drawn;
    - AssertionFailed: the assert(y0 <= y1) of the column loop aborts the program;
    - Undefined: the C code reaches undefined behaviour and the model stops there.
      This happens on a zero depth, where the projection divides by zero and an
      infinity or NaN (0/0 for a clipped end at x = y = 0) is converted to int,
      or on a write outside the pixel buffer. */
module Render {
  import opened Geometry
  import opened World
  import opened Transform
  import opened Frustum
  import opened Raster

  const ScreenWidth: int := 1280
  const ScreenHeight: int := 720

  datatype Status = Completed | AssertionFailed | Undefined

  /** A C conversion from float to int: the fraction is dropped, rounding toward
      zero. */
  function Trunc(v: real): (r: int)
    ensures 0.0 <= v ==> r as real <= v < r as real + 1.0
    ensures v < 0.0 ==> r as real - 1.0 < v <= r as real
  {
    if v >= 0.0 then v.Floor else -((-v).Floor)
  }

  lemma TruncMonotone(a: real, b: real)
    requires a <= b
    ensures Trunc(a) <= Trunc(b)
  {
  }

  /** The vertex that ends wall wallid: the next one, wrapping to vertex 0 after the
      last. */
  function WallEnd(wallid: int, length: int): (r: int)
    requires 0 <= wallid < length
    ensures 0 <= r < length
    ensures r == (wallid + 1) % length
  {
    if wallid == length - 1 then 0 else wallid + 1
  }

  /** The four projected corners of a wall: top and bottom at each end. */
  datatype WallProjection = WallProjection(upper0: Point2, lower0: Point2, upper1: Point2, lower1: Point2)

  /** The four camera_to_pixel_space calls of render_room, at heights 0.5 and -0.5.
      Each end's top and bottom share a column, and an end in front of the camera
      has its top above the middle row and its bottom below it. */
  function ProjectWall(c0: Point2, c1: Point2): (p: WallProjection)
    requires c0.y != 0.0 && c1.y != 0.0
    ensures p.upper0.x == p.lower0.x && p.upper1.x == p.lower1.x
    ensures c0.y > 0.0 ==> p.upper0.y < 360.0 < p.lower0.y
    ensures c1.y > 0.0 ==> p.upper1.y < 360.0 < p.lower1.y
  {
    var h, w := ScreenHeight as real, ScreenWidth as real;
    WallTopAboveBottom(c0, h, w);
    WallTopAboveBottom(c1, h, w);
    WallProjection(CameraToPixel(c0, 0.5, h, w), CameraToPixel(c0, -0.5, h, w),
                   CameraToPixel(c1, 0.5, h, w), CameraToPixel(c1, -0.5, h, w))
  }

  /** The number of columns drawn for a wall. */
  function Lines(p: WallProjection): int
  {
    Trunc(p.upper1.x - p.upper0.x)
  }

  /** The screen column of column number line. */
  function ColumnX(p: WallProjection, line: int): int
  {
    Trunc(p.upper0.x + line as real)
  }

  /** The first row drawn and the row after the last one. */
  datatype Rows = Rows(top: int, bottom: int)

  /** The rows of column number line: the interpolated top and bottom, truncated,
      then clamped to the screen from above and below. */
  function ColumnRows(p: WallProjection, line: int): (r: Rows)
    requires 0 <= line < Lines(p)
    ensures 0 <= r.top && r.bottom <= ScreenHeight
  {
    var d := line as real / Lines(p) as real;
    var y0 := Trunc(Lerp(p.upper0.y, p.upper1.y, d));
    var y1 := Trunc(Lerp(p.lower0.y, p.lower1.y, d));
    Rows(Max(y0, 0), Min(y1, ScreenHeight))
  }

  /** Column number line gets drawn: its rows pass the assert, and all of its pixels
      lie inside the buffer. */
  predicate ColumnDrawable(canvas: Canvas, p: WallProjection, line: int)
    requires canvas.Valid()
  {
    0 <= line < Lines(p)
    && var rows := ColumnRows(p, line);
    rows.top <= rows.bottom && canvas.SpanInBuffer(ColumnX(p, line), rows.top, rows.bottom)
  }

  /** Byte i is part of column number line. */
  ghost predicate InColumn(canvas: Canvas, p: WallProjection, line: int, i: int)
  {
    0 <= line < Lines(p)
    && var rows := ColumnRows(p, line);
    InSpan(i, ColumnX(p, line), rows.top, rows.bottom, canvas.pitch)
  }

  /** Byte i is part of one of the first n columns. */
  ghost predicate PaintedBefore(canvas: Canvas, p: WallProjection, n: int, i: int)
  {
    exists line :: 0 <= line < n && InColumn(canvas, p, line, i)
  }

  /** Column number line is the first one that cannot be drawn. */
  ghost predicate ColumnFailsFirstAt(canvas: Canvas, p: WallProjection, line: int)
    requires canvas.Valid()
  {
    0 <= line < Lines(p)
    && (forall k :: 0 <= k < line ==> ColumnDrawable(canvas, p, k))
    && !ColumnDrawable(canvas, p, line)
  }

  /** The first column that cannot be drawn fails the assert(y0 <= y1). */
  ghost predicate ColumnAssertFailsAt(canvas: Canvas, p: WallProjection, line: int)
    requires canvas.Valid()
  {
    ColumnFailsFirstAt(canvas, p, line) && ColumnRows(p, line).top > ColumnRows(p, line).bottom
  }

  /** The first column that cannot be drawn passes the assert, so part of it lies
      outside the buffer. */
  ghost predicate ColumnWriteFailsAt(canvas: Canvas, p: WallProjection, line: int)
    requires canvas.Valid()
  {
    ColumnFailsFirstAt(canvas, p, line) && ColumnRows(p, line).top <= ColumnRows(p, line).bottom
  }

  /** Only one column is the first to fail, so it fails in one way only. */
  lemma AssertFailureExcludesWriteFailure(canvas: Canvas, p: WallProjection, line: int)
    requires canvas.Valid() && ColumnAssertFailsAt(canvas, p, line)
    ensures !exists l :: ColumnWriteFailsAt(canvas, p, l)
  {
  }

  lemma WriteFailureExcludesAssertFailure(canvas: Canvas, p: WallProjection, line: int)
    requires canvas.Valid() && ColumnWriteFailsAt(canvas, p, line)
    ensures !exists l :: ColumnAssertFailsAt(canvas, p, l)
  {
  }

  /** When both ends of a wall are in front of the camera, every column passes the
      assert: 0 <= y0 <= y1 <= SCREEN_HEIGHT. */
  lemma ColumnRowsOrdered(c0: Point2, c1: Point2, line: int)
    requires c0.y > 0.0 && c1.y > 0.0
    requires 0 <= line < Lines(ProjectWall(c0, c1))
    ensures var rows := ColumnRows(ProjectWall(c0, c1), line);
      0 <= rows.top <= rows.bottom <= ScreenHeight
  {
    var p := ProjectWall(c0, c1);
    FractionInUnit(line, Lines(p));
    var d := line as real / Lines(p) as real;
    TruncBelowMiddle(Lerp(p.upper0.y, p.upper1.y, d));
    TruncFromMiddle(Lerp(p.lower0.y, p.lower1.y, d));
  }

  /** The rows the column loop computes for column number line are ColumnRows. */
  lemma ColumnRowsComputed(p: WallProjection, line: int, lines: int, y0: int, y1: int)
    requires lines == Lines(p) && 0 <= line < lines
    requires var d := line as real / lines as real;
      y0 == Max(Trunc(Lerp(p.upper0.y, p.upper1.y, d)), 0)
      && y1 == Min(Trunc(Lerp(p.lower0.y, p.lower1.y, d)), ScreenHeight)
    ensures Rows(y0, y1) == ColumnRows(p, line)
  {
  }

  /** The fraction of a wall already drawn is in [0, 1]. */
  lemma FractionInUnit(line: int, lines: int)
    requires 0 <= line < lines
    ensures 0.0 <= line as real / lines as real <= 1.0
  {
    var d := line as real / lines as real;
    assert d * (lines as real) == line as real;
  }

  lemma TruncBelowMiddle(v: real)
    requires v < 360.0
    ensures Trunc(v) < 360
  {
  }

  lemma TruncFromMiddle(v: real)
    requires v > 360.0
    ensures Trunc(v) >= 360
  {
  }

  /** drawing one wall: the column loop of render_room (main.c), for the wall whose
      corners project to p. */
  method DrawWallColumns(canvas: Canvas, p: WallProjection) returns (status: Status)
    requires canvas.Valid()
    modifies canvas.pixels
    ensures status == Completed <==> forall line :: 0 <= line < Lines(p) ==> ColumnDrawable(canvas, p, line)
    ensures status == Completed ==> forall i :: 0 <= i < canvas.pixels.Length ==>
      canvas.pixels[i] == (if PaintedBefore(canvas, p, Lines(p), i) then 255 else old(canvas.pixels[i]))
    ensures forall i :: 0 <= i < canvas.pixels.Length ==>
      canvas.pixels[i] == 255 || canvas.pixels[i] == old(canvas.pixels[i])
    ensures Lines(p) <= 0 ==> status == Completed && canvas.pixels[..] == old(canvas.pixels[..])
    ensures status == AssertionFailed <==> exists l :: ColumnAssertFailsAt(canvas, p, l)
    ensures status == Undefined <==> exists l :: ColumnWriteFailsAt(canvas, p, l)
  {
    ghost var original := canvas.pixels[..];
    var lines := Trunc(p.upper1.x - p.upper0.x);
    var line := 0;
    while line < lines
      invariant 0 <= line && (line <= lines || lines <= 0)
      invariant forall l :: 0 <= l < line ==> ColumnDrawable(canvas, p, l)
      invariant forall i :: 0 <= i < canvas.pixels.Length ==>
        canvas.pixels[i] == (if PaintedBefore(canvas, p, line, i) then 255 else original[i])
    {
      var pixelx := Trunc(p.upper0.x + line as real);
      var distanceDrawn := line as real / lines as real;
      var y0 := Trunc(Lerp(p.upper0.y, p.upper1.y, distanceDrawn));
      var y1 := Trunc(Lerp(p.lower0.y, p.lower1.y, distanceDrawn));
      y0 := Max(y0, 0);
      y1 := Min(y1, ScreenHeight);
      ColumnRowsComputed(p, line, lines, y0, y1);
      if !(y0 <= y1) {
        assert ColumnAssertFailsAt(canvas, p, line);
        AssertFailureExcludesWriteFailure(canvas, p, line);
        return AssertionFailed;
      }
      if !canvas.SpanInBuffer(pixelx, y0, y1) {
        assert ColumnWriteFailsAt(canvas, p, line);
        WriteFailureExcludesAssertFailure(canvas, p, line);
        return Undefined;
      }
      assert ColumnDrawable(canvas, p, line);
      canvas.VLine(pixelx, y0, y1, 255, 255, 255);
      assert ToByte(255) == 255;
      forall i | 0 <= i < canvas.pixels.Length
        ensures canvas.pixels[i] == (if PaintedBefore(canvas, p, line + 1, i) then 255 else original[i])
      {
        if InSpan(i, pixelx, y0, y1, canvas.pitch) {
          var y :| y0 <= y < y1 && InPixel(i, pixelx, y, canvas.pitch);
          assert canvas.PixelInBuffer(pixelx, y);
          assert canvas.PixelIs(pixelx, y, 255, 255, 255);
          canvas.WhiteByte(pixelx, y, i);
          assert InColumn(canvas, p, line, i);
        } else {
          assert !InColumn(canvas, p, line, i);
          assert PaintedBefore(canvas, p, line + 1, i) <==> PaintedBefore(canvas, p, line, i);
        }
      }
      line := line + 1;
    }
    status := Completed;
  }

  /** What render_room does with wall number w of a room. */
  datatype WallPlan =
    | Hidden                   // clip_to_frustum rejects it
    | ZeroDepth                // a clipped end has depth 0: undefined behaviour
    | Drawn(p: WallProjection) // it is drawn from these corners

  /** Wall w of the room, taken to camera space and clipped. */
  function ClipWall(camera: Camera, room: Room, w: int): Clipped
    requires room.Valid() && 0 <= w < room.length
    reads camera, room.walls
  {
    var c0 := WorldToCamera(camera, room.walls[w].location);
    var c1 := WorldToCamera(camera, room.walls[WallEnd(w, room.length)].location);
    ClipSpec(c0, c1)
  }

  function PlanWall(camera: Camera, room: Room, w: int): WallPlan
    requires room.Valid() && 0 <= w < room.length
    reads camera, room.walls
  {
    var clip := ClipWall(camera, room, w);
    if !clip.visible then Hidden
    else if clip.w0.y == 0.0 || clip.w1.y == 0.0 then ZeroDepth
    else Drawn(ProjectWall(clip.w0, clip.w1))
  }

  /** Wall w is processed without aborting and without undefined behaviour. */
  predicate WallRenders(canvas: Canvas, camera: Camera, room: Room, w: int)
    requires canvas.Valid() && room.Valid() && 0 <= w < room.length
    reads camera, room.walls
  {
    match PlanWall(camera, room, w)
    case Hidden => true
    case ZeroDepth => false
    case Drawn(p) => forall line :: 0 <= line < Lines(p) ==> ColumnDrawable(canvas, p, line)
  }

  /** Wall w is drawn, and the first of its columns that cannot be drawn fails the
      assert. */
  ghost predicate WallAssertFails(canvas: Canvas, camera: Camera, room: Room, w: int)
    requires canvas.Valid() && room.Valid() && 0 <= w < room.length
    reads camera, room.walls
  {
    PlanWall(camera, room, w).Drawn?
    && exists l :: ColumnAssertFailsAt(canvas, PlanWall(camera, room, w).p, l)
  }

  /** Wall w is the first wall of the room that is not drawn in full. */
  ghost predicate WallFailsFirstAt(canvas: Canvas, camera: Camera, room: Room, w: int)
    requires canvas.Valid() && room.Valid()
    reads camera, room.walls
  {
    0 <= w < room.length
    && (forall v :: 0 <= v < w ==> WallRenders(canvas, camera, room, v))
    && !WallRenders(canvas, camera, room, w)
  }

  /** Only one wall is the first to fail, so the room fails the way that wall does. */
  lemma RoomFailsAsWall(canvas: Canvas, camera: Camera, room: Room, w: int)
    requires canvas.Valid() && room.Valid() && WallFailsFirstAt(canvas, camera, room, w)
    ensures (exists v :: WallFailsFirstAt(canvas, camera, room, v) && WallAssertFails(canvas, camera, room, v))
      <==> WallAssertFails(canvas, camera, room, w)
    ensures (exists v :: WallFailsFirstAt(canvas, camera, room, v) && !WallAssertFails(canvas, camera, room, v))
      <==> !WallAssertFails(canvas, camera, room, w)
  {
    assert forall v :: WallFailsFirstAt(canvas, camera, room, v) ==> v == w;
  }

  /** A room whose walls all render has no failing wall. */
  lemma RoomWithoutFailure(canvas: Canvas, camera: Camera, room: Room)
    requires canvas.Valid() && room.Valid()
    requires forall w :: 0 <= w < room.length ==> WallRenders(canvas, camera, room, w)
    ensures !exists v :: WallFailsFirstAt(canvas, camera, room, v)
  {
  }

  /** Byte i is painted by wall w. */
  ghost predicate WallPaints(canvas: Canvas, camera: Camera, room: Room, w: int, i: int)
    requires room.Valid() && 0 <= w < room.length
    reads camera, room.walls
  {
    PlanWall(camera, room, w).Drawn?
    && PaintedBefore(canvas, PlanWall(camera, room, w).p, Lines(PlanWall(camera, room, w).p), i)
  }

  /** Byte i is painted by one of the first n walls of the room. */
  ghost predicate RoomPaintsBefore(canvas: Canvas, camera: Camera, room: Room, n: int, i: int)
    requires room.Valid() && n <= room.length
    reads camera, room.walls
  {
    exists w :: 0 <= w < n && WallPaints(canvas, camera, room, w, i)
  }

  lemma RoomPaintsStep(canvas: Canvas, camera: Camera, room: Room, n: int, i: int)
    requires room.Valid() && 0 <= n < room.length
    ensures RoomPaintsBefore(canvas, camera, room, n + 1, i)
        <==> RoomPaintsBefore(canvas, camera, room, n, i) || WallPaints(canvas, camera, room, n, i)
  {
  }

  /** One pass of render_room's wall loop: wall wallid runs from its vertex to the
      next one, wrapping to vertex 0 after the last; it is taken to camera space,
      clipped, projected and drawn. The pass goes through exactly when the wall
      renders, and then it paints exactly the wall's columns. */
  method DrawWall(canvas: Canvas, camera: Camera, room: Room, wallid: int) returns (status: Status)
    requires canvas.Valid() && room.Valid() && 0 <= wallid < room.length
    modifies canvas.pixels
    ensures status == Completed <==> WallRenders(canvas, camera, room, wallid)
    ensures status == AssertionFailed <==> WallAssertFails(canvas, camera, room, wallid)
    ensures forall w :: 0 <= w < room.length ==>
      WallRenders(canvas, camera, room, w) == old(WallRenders(canvas, camera, room, w))
    ensures status == Completed ==> forall i :: 0 <= i < canvas.pixels.Length ==>
      canvas.pixels[i] == (if WallPaints(canvas, camera, room, wallid, i) then 255 else old(canvas.pixels[i]))
    ensures forall i :: 0 <= i < canvas.pixels.Length ==>
      canvas.pixels[i] == 255 || canvas.pixels[i] == old(canvas.pixels[i])
  {
    var wallstart := room.walls[wallid];
    var wallend: WallVertex;
    if wallid == room.length - 1 {
      wallend := room.walls[0];
    } else {
      wallend := room.walls[wallid + 1];
    }
    var cspace0 := WorldToCamera(camera, wallstart.location);
    var cspace1 := WorldToCamera(camera, wallend.location);

    var visible;
    visible, cspace0, cspace1 := ClipToFrustum(cspace0, cspace1);
    if !visible {
      assert PlanWall(camera, room, wallid) == Hidden;
      return Completed;
    }
    if cspace0.y == 0.0 || cspace1.y == 0.0 {
      assert PlanWall(camera, room, wallid) == ZeroDepth;
      return Undefined;
    }

    var h, w := ScreenHeight as real, ScreenWidth as real;
    var wallCorner0U := CameraToPixel(cspace0, 0.5, h, w);
    var wallCorner0L := CameraToPixel(cspace0, -0.5, h, w);
    var wallCorner1U := CameraToPixel(cspace1, 0.5, h, w);
    var wallCorner1L := CameraToPixel(cspace1, -0.5, h, w);
    var p := WallProjection(wallCorner0U, wallCorner0L, wallCorner1U, wallCorner1L);
    assert PlanWall(camera, room, wallid) == Drawn(p);
    status := DrawWallColumns(canvas, p);
  }

  /** render_room: the cached sine and cosine are refreshed (their values are given,
      cos and sin being outside the model), then the room's walls are drawn. */
  method RenderRoom(canvas: Canvas, camera: Camera, roomid: int, m: Map, angleCos: real, angleSin: real)
    returns (status: Status)
    requires canvas.Valid() && m.Valid() && 0 <= roomid < m.length
    requires m.rooms[roomid] != null && m.rooms[roomid].Valid()
    modifies camera, canvas.pixels
    ensures camera.angleCos == angleCos && camera.angleSin == angleSin
    ensures camera.location == old(camera.location) && camera.angle == old(camera.angle)
    ensures var room := m.rooms[roomid];
      status == Completed <==> forall w :: 0 <= w < room.length ==> WallRenders(canvas, camera, room, w)
    ensures var room := m.rooms[roomid];
      status == Completed ==> forall i :: 0 <= i < canvas.pixels.Length ==>
        canvas.pixels[i] == (if RoomPaintsBefore(canvas, camera, room, room.length, i) then 255 else old(canvas.pixels[i]))
    ensures var room := m.rooms[roomid];
      status == AssertionFailed <==> exists w ::
        WallFailsFirstAt(canvas, camera, room, w) && WallAssertFails(canvas, camera, room, w)
    ensures var room := m.rooms[roomid];
      status == Undefined <==> exists w ::
        WallFailsFirstAt(canvas, camera, room, w) && !WallAssertFails(canvas, camera, room, w)
    ensures forall i :: 0 <= i < canvas.pixels.Length ==>
      canvas.pixels[i] == 255 || canvas.pixels[i] == old(canvas.pixels[i])
  {
    camera.angleCos := angleCos;
    camera.angleSin := angleSin;
    status := DrawRoomWalls(canvas, camera, m.rooms[roomid]);
  }

  /** The wall loop of render_room: the walls are drawn in order until one fails. The
      frame completes exactly when every wall renders; it then consists of the old
      bytes with every byte of every drawn column set to 255. Otherwise the outcome
      is that of the first wall that does not render. Whatever happens, no byte takes
      another value. */
  method DrawRoomWalls(canvas: Canvas, camera: Camera, room: Room) returns (status: Status)
    requires canvas.Valid() && room.Valid()
    modifies canvas.pixels
    ensures status == Completed <==> forall w :: 0 <= w < room.length ==> WallRenders(canvas, camera, room, w)
    ensures status == Completed ==> forall i :: 0 <= i < canvas.pixels.Length ==>
      canvas.pixels[i] == (if RoomPaintsBefore(canvas, camera, room, room.length, i) then 255 else old(canvas.pixels[i]))
    ensures status == AssertionFailed <==> exists w ::
      WallFailsFirstAt(canvas, camera, room, w) && WallAssertFails(canvas, camera, room, w)
    ensures status == Undefined <==> exists w ::
      WallFailsFirstAt(canvas, camera, room, w) && !WallAssertFails(canvas, camera, room, w)
    ensures forall i :: 0 <= i < canvas.pixels.Length ==>
      canvas.pixels[i] == 255 || canvas.pixels[i] == old(canvas.pixels[i])
  {
    var wallid := 0;
    while wallid < room.length
      invariant 0 <= wallid <= room.length
      invariant forall w :: 0 <= w < wallid ==> WallRenders(canvas, camera, room, w)
      invariant forall i :: 0 <= i < canvas.pixels.Length ==>
        canvas.pixels[i] == (if RoomPaintsBefore(canvas, camera, room, wallid, i) then 255 else old(canvas.pixels[i]))
    {
      var drawn := DrawWall(canvas, camera, room, wallid);
      if drawn != Completed {
        assert WallFailsFirstAt(canvas, camera, room, wallid);
        RoomFailsAsWall(canvas, camera, room, wallid);
        return drawn;
      }
      forall w | 0 <= w <= wallid
        ensures WallRenders(canvas, camera, room, w)
      {
      }
      forall i | 0 <= i < canvas.pixels.Length
        ensures canvas.pixels[i] == (if RoomPaintsBefore(canvas, camera, room, wallid + 1, i) then 255 else old(canvas.pixels[i]))
      {
        RoomPaintsStep(canvas, camera, room, wallid, i);
      }
      wallid := wallid + 1;
    }
    RoomWithoutFailure(canvas, camera, room);
    status := Completed;
  }

  /** A canvas the size of the screen, as main creates it. */
  ghost predicate ScreenSized(canvas: Canvas)
  {
    canvas.pitch == ScreenWidth * 4 && canvas.pixels.Length >= ScreenHeight * canvas.pitch
  }

  /** In front of the camera and inside the field of view. */
  ghost predicate InView(c: Point2)
  {
    c.y > 0.0 && -c.y <= c.x <= c.y
  }

  /** A wall whose ends are both in view is drawn in full: every column passes the
      assert and lies inside a screen-sized buffer. */
  lemma ColumnsInViewDrawable(canvas: Canvas, c0: Point2, c1: Point2, line: int)
    requires ScreenSized(canvas) && InView(c0) && InView(c1)
    requires 0 <= line < Lines(ProjectWall(c0, c1))
    ensures canvas.Valid() && ColumnDrawable(canvas, ProjectWall(c0, c1), line)
  {
    var p := ProjectWall(c0, c1);
    ColumnRowsOrdered(c0, c1, line);
    ColumnOnScreen(c0, c1, line);
    var rows := ColumnRows(p, line);
    OnScreenSpanInBuffer(canvas, ColumnX(p, line), rows.top, rows.bottom);
  }

  /** Every column of a wall in view is a column of the screen. */
  lemma ColumnOnScreen(c0: Point2, c1: Point2, line: int)
    requires InView(c0) && InView(c1)
    requires 0 <= line < Lines(ProjectWall(c0, c1))
    ensures 0 <= ColumnX(ProjectWall(c0, c1), line) < ScreenWidth
  {
    var p := ProjectWall(c0, c1);
    assert 0.0 <= p.upper0.x <= 1280.0 && 0.0 <= p.upper1.x <= 1280.0;
  }

  /** A run of rows of one screen column lies inside a screen-sized buffer. */
  lemma OnScreenSpanInBuffer(canvas: Canvas, x: int, top: int, bottom: int)
    requires ScreenSized(canvas)
    requires 0 <= x < ScreenWidth && 0 <= top <= bottom <= ScreenHeight
    ensures canvas.Valid() && canvas.SpanInBuffer(x, top, bottom)
  {
    if top < bottom {
      assert canvas.PixelInBuffer(x, top);
      assert canvas.PixelInBuffer(x, bottom - 1);
    }
  }

  /** A wall that clipping leaves wholly in view renders. */
  lemma WallInViewRenders(canvas: Canvas, camera: Camera, room: Room, w: int)
    requires ScreenSized(canvas) && room.Valid() && 0 <= w < room.length
    requires var c := ClipWall(camera, room, w); c.visible ==> InView(c.w0) && InView(c.w1)
    ensures canvas.Valid() && WallRenders(canvas, camera, room, w)
  {
    var c := ClipWall(camera, room, w);
    if c.visible {
      var p := ProjectWall(c.w0, c.w1);
      forall line | 0 <= line < Lines(p)
        ensures ColumnDrawable(canvas, p, line)
      {
        ColumnsInViewDrawable(canvas, c.w0, c.w1, line);
      }
    }
  }

  /** The corners of the camera-space wall (-5, 1)..(-4, -1), which clipping accepts
      unchanged: its second end is behind the camera, so its top and bottom swap. */
  lemma BehindCameraCorners(c0: Point2, c1: Point2)
    requires c0 == Point2(-5.0, 1.0) && c1 == Point2(-4.0, -1.0)
    ensures ProjectWall(c0, c1) == WallProjection(Point2(-2560.0, 180.0), Point2(-2560.0, 540.0),
                                                  Point2(3200.0, 540.0), Point2(3200.0, 180.0))
  {
  }

  /** Three quarters of the way along that wall the interpolated top is row 450 and
      the bottom row 270. */
  lemma BehindCameraColumn(p: WallProjection)
    requires p == WallProjection(Point2(-2560.0, 180.0), Point2(-2560.0, 540.0),
                                 Point2(3200.0, 540.0), Point2(3200.0, 180.0))
    ensures Lines(p) == 5760 && ColumnRows(p, 4320) == Rows(450, 270)
  {
    assert 4320 as real / 5760 as real == 0.75;
  }

  /** In the first half of that wall the interpolated top stays above the bottom,
      rows 180 to 540, and the column, whose x runs from -2560 to 320, stays inside a
      screen-sized buffer: every column up to number 2880 can be drawn. */
  lemma BehindCameraEarlyColumns(canvas: Canvas, p: WallProjection, line: int)
    requires ScreenSized(canvas)
    requires p == WallProjection(Point2(-2560.0, 180.0), Point2(-2560.0, 540.0),
                                 Point2(3200.0, 540.0), Point2(3200.0, 180.0))
    requires 0 <= line <= 2880
    ensures canvas.Valid() && ColumnDrawable(canvas, p, line)
  {
    assert Lines(p) == 5760;
    var d := line as real / 5760.0;
    var up := Lerp(180.0, 540.0, d);
    var low := Lerp(540.0, 180.0, d);
    assert up == 180.0 + 360.0 * d && low == 540.0 - 360.0 * d;
    assert 180.0 <= up <= low <= 540.0;
    TruncMonotone(up, low);
    TruncMonotone(180.0, up);
    TruncMonotone(low, 540.0);
    ColumnRowsComputed(p, line, 5760, Trunc(up), Trunc(low));
    var rows := ColumnRows(p, line);
    assert 180 <= rows.top <= rows.bottom <= 540;
    var x := ColumnX(p, line);
    assert x == line - 2560;
    EarlyColumnInBuffer(canvas, x, rows.top, rows.bottom);
  }

  /** A column with x in [-2560, 320] and rows from 180 to 540 has byte offsets
      within [911360, 3686400], inside a screen-sized buffer. */
  lemma EarlyColumnInBuffer(canvas: Canvas, x: int, top: int, bottom: int)
    requires ScreenSized(canvas)
    requires -2560 <= x <= 320 && 180 <= top <= bottom <= 540
    ensures canvas.Valid() && canvas.SpanInBuffer(x, top, bottom)
  {
    assert canvas.PixelInBuffer(x, top);
    assert canvas.PixelInBuffer(x, bottom - 1);
  }

  /** Column 2881 of that wall has the interpolated top at row 360 and the bottom at
      row 359. */
  lemma BehindCameraColumnCrosses(p: WallProjection)
    requires p == WallProjection(Point2(-2560.0, 180.0), Point2(-2560.0, 540.0),
                                 Point2(3200.0, 540.0), Point2(3200.0, 180.0))
    ensures Lines(p) == 5760 && ColumnRows(p, 2881) == Rows(360, 359)
  {
    assert Lerp(180.0, 540.0, 2881.0 / 5760.0) == 360.0625;
    assert Lerp(540.0, 180.0, 2881.0 / 5760.0) == 359.9375;
  }

  /** The assert(y0 <= y1) of render_room can fail. Seen from a camera at the origin
      looking along +y, a wall from (-5, 1) to (-4, -1) passes clip_to_frustum
      unchanged; on a screen-sized canvas its columns 0 to 2880 are drawn and column
      2881, with y0 = 360 > y1 = 359, is the first that is not, so by the contracts
      of DrawWall and RenderRoom drawing stops at the assert. */
  lemma ColumnAssertCanFail(canvas: Canvas, camera: Camera, room: Room)
    requires ScreenSized(canvas) && room.Valid() && room.length >= 2
    requires camera.location.x == 0.0 && camera.location.y == 0.0
    requires camera.angleCos == 1.0 && camera.angleSin == 0.0
    requires room.walls[0].location == Point2(-5.0, 1.0) && room.walls[1].location == Point2(-4.0, -1.0)
    ensures canvas.Valid() && WallAssertFails(canvas, camera, room, 0)
    ensures WallFailsFirstAt(canvas, camera, room, 0)
  {
    var c0 := WorldToCamera(camera, room.walls[0].location);
    var c1 := WorldToCamera(camera, room.walls[1].location);
    assert c0 == Point2(-5.0, 1.0) && c1 == Point2(-4.0, -1.0);
    AcceptsWallBehindCamera(c0, c1);
    BehindCameraCorners(c0, c1);
    var p := ProjectWall(c0, c1);
    assert PlanWall(camera, room, 0) == Drawn(p);
    forall k | 0 <= k < 2881
      ensures ColumnDrawable(canvas, p, k)
    {
      BehindCameraEarlyColumns(canvas, p, k);
    }
    BehindCameraColumnCrosses(p);
    assert ColumnAssertFailsAt(canvas, p, 2881);
  }

  /** The vertex order map.h asks of a room makes its walls run left to right on
      screen: if the room's outline turns clockwise around the camera and the
      camera's angle is a true rotation, a wall with both ends in front of the camera
      has its first end in a column left of its second. */
  lemma RoomWallsAscend(camera: Camera, room: Room, w: int)
    requires room.Valid() && 0 <= w < room.length
    requires UnitAngle(camera.angleCos, camera.angleSin)
    requires ClockwiseAround(Outline(room), Position(camera))
    requires var c0 := WorldToCamera(camera, room.walls[w].location);
      var c1 := WorldToCamera(camera, room.walls[WallEnd(w, room.length)].location);
      c0.y > 0.0 && c1.y > 0.0
    ensures var c0 := WorldToCamera(camera, room.walls[w].location);
      var c1 := WorldToCamera(camera, room.walls[WallEnd(w, room.length)].location);
      CameraToPixel(c0, 0.5, ScreenHeight as real, ScreenWidth as real).x
        < CameraToPixel(c1, 0.5, ScreenHeight as real, ScreenWidth as real).x
  {
    var a, b := room.walls[w].location, room.walls[WallEnd(w, room.length)].location;
    assert Turn(Outline(room), w, Position(camera)) < 0.0;
    WorldToCameraKeepsTurn(camera, a, b);
    FrontFacingWallAscends(WorldToCamera(camera, a), WorldToCamera(camera, b), 0.5, 0.5,
                           ScreenHeight as real, ScreenWidth as real);
  }
}
