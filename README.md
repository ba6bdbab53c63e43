# A verified model of a small C wall renderer

This project models the geometry and the one-room wall rasteriser of a small C
renderer. The renderer:

- takes the walls of the room the camera stands in to camera space;
- clips each wall to a fixed view trapezoid (near plane 0.1, far plane 100, field of view 1);
- projects the wall's four corners to pixels;
- fills the trapezoid between them column by column with white pixels in a 32-bit RGBA byte buffer.

Coordinates are modelled as mathematical reals rather than IEEE floats. A float-to-int conversion is an explicit truncation toward zero. A store into a `uint8_t` is an explicit reduction modulo 256.

The modules follow the source files:

- `Geometry` (geometry.dfy) covers map.c and math.c:
  - `Point2`, the `MAX`/`MIN` macros, segment and line intersection, `lerp`, and the two scalar helpers.
  - map.c and math.c carry identical bodies for these functions. They are modelled once, and the table cites either copy.
  - The `{NAN, NAN}` "no intersection" sentinel is `None`.
- `World` (world.dfy) covers map.h and map.c:
  - wall vertices, rooms, maps, locations and the camera;
  - `allocate_room`/`allocate_map` as constructors that record `length` and size the storage;
  - the test map built by `new_test_map`;
  - the vertex order map.h asks of a room, stated as a clockwise turn around an inside point.
- `Transform` (transform.dfy) covers main.c: world to camera space, camera to normalised screen space, normalised screen to pixels, and their composite.
- `Frustum` (frustum.dfy) covers `clip_to_frustum`:
  - a method that overwrites the two endpoints step by step, proved equal to a specification function `ClipSpec`;
  - lemmas about what the clip does and does not guarantee.
- `Raster` (raster.dfy) covers `set_pixel` and `vline` on a `Canvas` class holding a byte array and a pitch.
- `Render` (render.dfy) covers `render_room`:
  - the wall loop, including the wrap from the last vertex back to vertex 0;
  - the column loop with its interpolation, clamping and `assert(y0 <= y1)`.

`render_room` has three outcomes:

- `Completed`: the frame was drawn.
- `AssertionFailed`: the `assert` at main.c:217 would abort the program.
- `Undefined`: the C code reaches undefined behaviour and the model stops there. This happens on a zero depth, where the projection divides by zero and an infinity or NaN is converted to int, or on a pixel write outside the buffer.

`RenderRoom` is proved to complete exactly when every wall renders. When it completes, the buffer holds the old bytes with exactly the bytes of every drawn column set to 255. Otherwise the first wall that does not render decides the outcome:

- `AssertionFailed` exactly when that wall is drawn and the first of its columns that cannot be drawn has y0 > y1;
- `Undefined` in every other case: a zero depth, or a first failing column that passes the assert but leaves the buffer.

Whatever the outcome, no byte takes any other value.

Behaviour of the code that the model keeps as written and exhibits by lemmas:

- **The "sort by y" in `clip_to_frustum` (main.c:145-152) has two identical branches.** `lowest_y` is therefore always `w1` and `highest_y` always `w0`:
  - the far-plane rejection looks only at `w1` and the near-plane rejection only at `w0`;
  - the near clip always replaces `w1` and the far clip always replaces `w0`.
  - `Frustum.RejectsWallCrossingView` shows a wall that runs through the middle of the view being rejected.
- **The clip never rejects a wall for lying outside the field of view.** When a wall misses both side edges, the side clips leave it unchanged (`Frustum.SidesMissedKeepEnds`). It can still be rejected by the three tests, as in `Frustum.RejectsWallCrossingView`, or clipped at the near or far edge. It is accepted unchanged when it is in x order, w1.y <= 100, w0.y >= 0.1 and it misses the near and far edges as well (`Frustum.KeptWhenEdgesMissed`):
  - `Frustum.AcceptsWallOutsideView` shows a wall wholly to the right of the view;
  - `Frustum.AcceptsWallBehindCamera` shows a wall that reaches behind the camera.
- **The `assert(y0 <= y1)` of the column loop can fail.** From a camera at the origin looking along +y, the wall (-5, 1)..(-4, -1) passes the clip unchanged. On a screen-sized buffer its columns 0 to 2880 are drawn, and column 2881, with y0 = 360 and y1 = 359, is the first that is not: drawing stops at the assert (`Render.ColumnAssertCanFail`).
  - When both clipped ends are in front of the camera and inside the field of view, every column passes and lies on the screen (`Render.WallInViewRenders`).
- **`intersect_line_segments` misses some intersections.** Its header comment says it returns the sentinel when the segments do not intersect. It also returns the sentinel for collinear segments that do overlap (`Geometry.CollinearOverlapIsNotReported`, `Geometry.ParallelOverlapIsMissed`). Because the 0.00001 threshold on the determinant is absolute, it also misses short segments that cross: (0,0)..(0.001,0) and (0.0005,-0.001)..(0.0005,0.001) share (0.0005,0) but have determinant 0.000002 (`Geometry.ShortCrossingIsMissed`).
  - For segments whose determinant reaches the threshold, the sentinel is returned exactly when they share no point (`Geometry.SegmentIntersectionIff`).

Further facts about the code that the model keeps:

- `clip_to_frustum` has no field-of-view rejection and no near-plane pre-clip.
- `render_room` does not skip a wall behind the camera before projecting it; that test is commented out at main.c:199.
- The perspective divide in `camera_to_screen_space` has no field-of-view factor.

## Model

| member | source | states |
|---|---|---|
| Geometry.Max | map.h:66 | MAX(a, b) is at least a and at least b, and is one of them |
| Geometry.Min | math.h:10 | MIN(a, b) is at most a and at most b, and is one of them |
| Geometry.CramerMeets | map.c:74-75 | when the determinant is nonzero, the parameters u and t computed by Cramer's rule name one and the same point on both lines |
| Geometry.CramerUnique | math.c:35-36 | when the determinant is nonzero, the Cramer parameters are the only pair naming a common point |
| Geometry.IntersectLineSegments | map.c:62-86 | a determinant of magnitude below 0.00001 gives no intersection; a returned point lies on both closed segments |
| Geometry.SegmentsThatMeetAreFound | math.c:35-43 | segments whose determinant has magnitude at least 0.00001 and that share the point at parameters u, t in [0, 1] are reported at exactly that point |
| Geometry.SegmentIntersectionIff | math.h:15-16 | for a determinant at or above the threshold, a point is returned if and only if the two segments share a point |
| Geometry.CollinearOverlapIsNotReported | map.c:67-71 | the overlapping collinear segments (0,0)..(2,0) and (1,0)..(3,0) are reported as not intersecting |
| Geometry.CollinearOverlapShares | map.h:72-73 | yet those two segments share the point (1,0) |
| Geometry.ParallelOverlapIsMissed | math.c:28-32 | any segments with a zero determinant give no intersection even when a point lies on both |
| Geometry.ShortCrossingIsMissed | math.c:28-32 | the perpendicular segments (0,0)..(0.001,0) and (0.0005,-0.001)..(0.0005,0.001) share (0.0005,0), yet their determinant 0.000002 is below the absolute threshold, so no intersection is reported |
| Geometry.CrossingDiagonalsExample | map.c:78-82 | the diagonals (0,0)..(2,2) and (0,2)..(2,0) meet at (1,1) |
| Geometry.DisjointSegmentsExample | math.c:39-46 | the segments (0,0)..(1,0) and (2,-1)..(2,1), with determinant 2, whose lines meet outside the first, give no intersection |
| Geometry.IntersectLines | map.c:89-107 | no point exactly when the determinant's magnitude is below the threshold; otherwise the point lies on both infinite lines |
| Geometry.LinesMeetOnlyThere | math.h:18-19 | the point intersect_lines returns is the only point on both lines |
| Geometry.SegmentHitIsLineHit | math.c:50-68 | whenever the segment version finds a point, the line version returns the same point |
| Geometry.Lerp | map.c:109-111 | lerp is x0 at d = 0 and x1 at d = 1, and between x0 and x1 for d in [0, 1] |
| Geometry.LerpMonotone | math.c:70-72 | for d in [0, 1], larger endpoints give a larger interpolant |
| Geometry.MulScaler | map.c:51-54 | scaling by 1 is the identity, scaling by 0 gives the origin, and a positive scale keeps the sign of each coordinate |
| Geometry.MulScalerComposes | map.c:51-54 | scaling by a then b is scaling by a*b |
| Geometry.DivScaler | map.c:56-59 | point2_div_scaler as written returns exactly what point2_mul_scaler returns |
| Geometry.DivScalerMultiplies | math.c:13-16 | multiplying and then "dividing" by the same scale gives the point back if and only if the point is the origin or scale^2 = 1: (1,1) scaled by 2 and "divided" by 2 is (4,4) |
| Geometry.DivScalerIntended | math.c:13-16 | the corrected division: its result scaled by the same nonzero scale gives back the input |
| Geometry.DivScalerIntendedUndoesMul | map.c:56-59 | the corrected division undoes point2_mul_scaler for every nonzero scale |
| World.Room.constructor | map.c:7-11 | allocate_room(n): a room of length n with storage for exactly n wall vertices |
| World.Map.constructor | map.c:13-17 | allocate_map(n): a map of length n with storage for exactly n room pointers |
| World.Camera.constructor | main.c:236 | the initial camera is in room 0 at (0, 0) with angle, sine and cosine 0 |
| World.IsPortal | map.h:17-21 | a wall vertex is a portal exactly when its portal index is non-negative |
| World.NewTestMap | map.c:32-49 | a fresh one-room map whose room has the four vertices (1,2), (1,-2), (-1,-2), (-1,2) in that order |
| World.TestOutlineIsClockwise | map.h:28 | the test room has the vertex order map.h asks for, seen from every point strictly inside it |
| Transform.RotationKeepsNorm | main.c:88-91 | with cos^2 + sin^2 = 1 the rotation keeps lengths |
| Transform.RotationKeepsCross | main.c:88-91 | with cos^2 + sin^2 = 1 the rotation keeps cross products, so turn directions |
| Transform.RotationInverts | main.c:88-91 | rotating by the opposite angle undoes the rotation |
| Transform.WorldToCamera | main.c:85-92 | the camera's own location maps to (0, 0); with cos^2 + sin^2 = 1 every distance from the camera is preserved |
| Transform.WorldToCameraRoundTrip | main.c:85-92 | the inverse transform recovers the world point |
| Transform.WorldToCameraKeepsTurn | main.c:85-92 | the turn of two points around the camera is the same in world and camera space |
| Transform.CameraLooksAlongAngle | main.c:83-84 | the point k units ahead along (sin, cos) is at (0, k) in camera space: the camera faces +y |
| Transform.CameraToScreen | main.c:95-100 | for a nonzero depth the result times the depth gives back x and z; the frustum edges x = y and x = -y land on 1 and -1, and points between them inside [-1, 1] |
| Transform.NormalizedScreenToPixel | main.c:103-108 | screen x -1 and 1 go to pixel x 0 and screenw; screen y 1 and -1 go to pixel y 0 and screenh |
| Transform.PixelMapMonotone | main.c:103-108 | the pixel map is increasing in x and decreasing in y |
| Transform.PixelMapRoundTrip | main.c:103-108 | the pixel map is invertible on a screen of nonzero size, in both directions |
| Transform.CameraToPixel | main.c:111-113 | the frustum edges land on the right and left borders and the centre line on the middle column; points in view land in a column between 0 and screenw; the row is not bounded |
| Transform.WallTopAboveBottom | main.c:202-205 | both heights of one corner share a column; in front of the camera the top (z = 0.5) is above the middle row and the bottom below it, and behind the camera they swap |
| Transform.FrontFacingWallAscends | main.c:191-193 | two corners in front of the camera that turn clockwise around it are drawn in ascending pixel x |
| Frustum.ClipAgainst | main.c:129-132 | an endpoint is replaced exactly when the edge intersection exists and has nonzero x, and the replacement lies on both the edge and the wall; otherwise it is unchanged |
| Frustum.SideClip | main.c:128-138 | after the side clips w0 is unchanged or on the left edge, and w1 unchanged or on the right edge |
| Frustum.ClipSpec | main.c:140-155 | the wall is visible if and only if, after the side clips, w0.x <= w1.x, w1.y <= 100 and w0.y >= 0.1 |
| Frustum.ClipToFrustum | main.c:117-168 | the in-place procedure returns the visibility and endpoints of ClipSpec, and is visible under exactly the condition above |
| Frustum.ClipStaysOnWall | main.c:129-165 | both endpoints clipping leaves behind lie on the original wall |
| Frustum.ClipMovesEndpointsOntoEdges | main.c:157-165 | a replaced w0 lies on the left or far edge and a replaced w1 on the right or near edge, with nonzero x |
| Frustum.SidesMissedKeepEnds | main.c:128-138 | a wall that meets neither side edge leaves both side clips unchanged |
| Frustum.RejectedBeforeNearPlane | main.c:155 | such a wall whose w0 is before the near plane is rejected |
| Frustum.KeptWhenEdgesMissed | main.c:140-167 | such a wall in x order, with w1 not beyond the far plane, w0 not before the near plane, and meeting neither the near nor the far edge, is accepted unchanged |
| Frustum.RejectsWallCrossingView | main.c:145-155 | the wall (0,0.05)..(0.5,1.05) is rejected although its point (0.25,0.55) is inside the frustum |
| Frustum.AcceptsWallOutsideView | main.c:140-155 | the wall (5,1)..(6,1) is accepted unchanged although none of its points is inside the frustum |
| Frustum.AcceptsWallBehindCamera | main.c:154-167 | the wall (-5,1)..(-4,-1) is accepted unchanged with one end behind the camera, and none of its points is inside the frustum |
| Raster.ToByte | main.c:67-69 | an int stored into a byte keeps values 0..255 and otherwise differs from the stored byte by a multiple of 256 |
| Raster.Canvas.constructor | main.c:232 | a width x height canvas has pitch width*4 and height*pitch bytes |
| Raster.Canvas.SpanInBuffer | main.c:73-77 | checking the first and last row decides whether every pixel of a column run is inside the buffer |
| Raster.Canvas.SetPixel | main.c:66-71 | the four bytes at x*4 + y*pitch become r, g, b, 255 reduced to bytes, and no other byte changes |
| Raster.Canvas.VLine | main.c:73-77 | every pixel (x, y) with y0 <= y < y1 gets the colour, no byte outside those pixels changes, and nothing changes when y1 <= y0 |
| Render.Trunc | main.c:209-214 | float to int conversion truncates toward zero: the result is within 1 of the value, on the zero side |
| Render.TruncMonotone | main.c:209-214 | truncation is monotone |
| Render.WallEnd | main.c:180-186 | wall wallid ends at vertex (wallid + 1) mod length, which wraps to 0 after the last vertex |
| Render.ProjectWall | main.c:202-205 | each end's top and bottom share a column, and an end in front of the camera has its top above row 360 and its bottom below it |
| Render.ColumnRows | main.c:212-216 | the clamps keep every column's rows within the screen: top >= 0 and bottom <= 720 |
| Render.ColumnRowsOrdered | main.c:215-217 | with both ends in front of the camera every column satisfies 0 <= y0 <= y1 <= SCREEN_HEIGHT, so the assert holds |
| Render.DrawWallColumns | main.c:209-219 | the column loop completes if and only if every column passes the assert and lies in the buffer, and then sets exactly the bytes of the drawn columns to 255; it fails the assert exactly when the first column that cannot be drawn has y0 > y1, and is undefined exactly when that column passes the assert but leaves the buffer; it draws nothing when lines <= 0 |
| Render.DrawWall | main.c:177-219 | one pass of the wall loop completes exactly when the wall renders, and then paints exactly that wall's columns; it fails the assert exactly when the wall is drawn and its first undrawable column fails it; whether any wall renders is unchanged by the drawing |
| Render.RenderRoom | main.c:170-221 | the cached cos and sin are set and nothing else of the camera changes; the frame completes exactly when every wall renders, and then exactly the drawn columns are white; it fails the assert exactly when the first wall that does not render fails it, and is undefined exactly when that wall fails otherwise |
| Render.DrawRoomWalls | main.c:177-220 | the wall loop: the same outcomes and frame as render_room, with the camera untouched |
| Render.ColumnOnScreen | main.c:211 | every column of a wall whose ends are in view is a screen column |
| Render.ColumnsInViewDrawable | main.c:209-218 | every column of a wall whose ends are in view passes the assert and lies inside a screen-sized buffer |
| Render.WallInViewRenders | main.c:196-219 | a wall that clipping leaves wholly in view renders |
| Render.BehindCameraCorners | main.c:202-205 | the wall (-5,1)..(-4,-1) projects to corners (-2560,180), (-2560,540), (3200,540), (3200,180) |
| Render.BehindCameraColumn | main.c:209-216 | that wall has 5760 columns, and column 4320 has top row 450 and bottom row 270 |
| Render.BehindCameraEarlyColumns | main.c:209-218 | on a screen-sized buffer, columns 0 to 2880 of that wall pass the assert and lie inside the buffer |
| Render.BehindCameraColumnCrosses | main.c:212-217 | column 2881 of that wall has top row 360 and bottom row 359 |
| Render.ColumnAssertCanFail | main.c:217 | on a screen-sized buffer, a room with that wall as wall 0, seen from the origin looking along +y, has wall 0 as its first wall that does not render, and that wall stops at the assert: by RenderRoom's contract the frame ends in AssertionFailed |
| Render.RoomWallsAscend | map.h:28 | if the room turns clockwise around the camera and the angle is a true rotation, a wall in front of the camera runs left to right on screen |

## Left out

- SDL: window setup, the event loop, surface locking, blitting and `SDL_FillRect` are input/output through a foreign library. The canvas is a byte array with a pitch; main.c:232 only fixes its size.
- `do_input` reads the keyboard and nudges camera fields; it is input handling.
- `free_room`, `free_map`, `malloc` and `printf` are memory management and console output. `free_map` is never reached after the main loop.
- Render.RenderRoom: `cos` and `sin` of the camera angle are given as parameters, because the model has no trigonometry; properties that need a true rotation assume cos^2 + sin^2 = 1.
- IEEE float behaviour is not modelled: rounding, NaN propagation, infinities and subnormals. Values are reals, and `isnormal(x)` on an intersection result is "a point was found and its x is nonzero".
- Render.Trunc: a float-to-int conversion of a value out of int range is undefined in C; over reals the model truncates any value.
- Raster.Canvas.SetPixel: the offset `x*4 + y*pitch` is an unbounded integer, so a C int overflow of that expression is not modelled.
- World.NewTestMap: `portal_idx` is never written by the source, so the model leaves it unspecified.
- World.Room.constructor: the wall storage holds default values rather than uninitialised memory. `World.NewTestMap` writes only each wall's location, so the unwritten `portal_idx` keeps Dafny's default value, and no contract states anything about it.
- Frustum.ClipToFrustum: the `lowest_y`/`highest_y` pointer aliases are modelled by a flag saying which endpoint each names, not by aliasing.
- The duplicate definitions in map.c/math.c and map.h/math.h are a build conflict, not behaviour; each function is modelled once.
- The header comment that walls are in ascending x from inside a room is a precondition of `Render.RoomWallsAscend`, not something the code checks.

## Findings

| source | as written | input that shows it | evidently intended | confidence | as-written member | corrected member |
|---|---|---|---|---|---|---|
| map.c:56-59 | point2_div_scaler multiplies each coordinate by scale, exactly like point2_mul_scaler | (1,1) multiplied by 2 then "divided" by 2 gives (4,4) | each coordinate divided by scale, undoing point2_mul_scaler | high, not executed | Geometry.DivScalerMultiplies | Geometry.DivScalerIntendedUndoesMul |
