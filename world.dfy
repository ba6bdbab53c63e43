/** The map data of map.h: wall vertices, rooms, the map, the player's location and
    the camera, and the hard-coded test map of map.c. Only the bookkeeping of the
    allocators is modelled (the length field and the storage it describes). */
module World {
  import opened Geometry

  /** One corner of a room's outline. The wall from this vertex to the next one is
      a portal into room portalIdx when portalIdx is non-negative. */
  datatype WallVertex = WallVertex(location: Point2, portalIdx: int)

  predicate IsPortal(w: WallVertex)
  {
    w.portalIdx >= 0
  }

  /** A position on the map: the room it is in and its coordinates. */
  datatype Location = Location(roomid: int, x: real, y: real)

  /** A room: length wall vertices stored in walls, in outline order. */
  class Room {
    const length: int
    const walls: array<WallVertex>

    ghost predicate Valid()
    {
      0 <= length && walls.Length == length
    }

    /** allocate_room: storage for exactly length wall vertices, whose contents are
        left unspecified. */
    constructor(length: int)
      requires length >= 0
      ensures Valid() && this.length == length && fresh(walls)
    {
      this.length := length;
      walls := new WallVertex[length];
    }
  }

  /** A map: length room slots. */
  class Map {
    const length: int
    const rooms: array<Room?>

    ghost predicate Valid()
    {
      0 <= length && rooms.Length == length
    }

    /** allocate_map: storage for exactly length room pointers, unset. */
    constructor(length: int)
      requires length >= 0
      ensures Valid() && this.length == length && fresh(rooms)
    {
      this.length := length;
      rooms := new Room?[length];
    }
  }

  /** The viewer: where it stands, where it looks, and the cached sine and cosine
      of its angle that render_room refreshes every frame. */
  class Camera {
    var location: Location
    var angle: real
    var angleSin: real
    var angleCos: real

    /** The camera main starts with: in room 0 at (0, 0), every other field zero. */
    constructor()
      ensures location == Location(0, 0.0, 0.0)
      ensures angle == 0.0 && angleSin == 0.0 && angleCos == 0.0
    {
      location := Location(0, 0.0, 0.0);
      angle, angleSin, angleCos := 0.0, 0.0, 0.0;
    }
  }

  /** The corner points of a room's outline, in order. */
  function Outline(room: Room): seq<Point2>
    reads room.walls
  {
    seq(room.walls.Length, i reads room.walls requires 0 <= i < room.walls.Length => room.walls[i].location)
  }

  /** The order map.h asks of a room's vertices: from the inside point c, every wall
      i -> i+1 (the last one closing back to vertex 0) turns clockwise. Seen by a
      camera at c, each wall in front of it then runs in ascending screen x. */
  ghost predicate ClockwiseAround(outline: seq<Point2>, c: Point2)
  {
    forall i :: 0 <= i < |outline| ==> Turn(outline, i, c) < 0.0
  }

  /** The cross product, seen from c, of wall i of the outline and the next vertex. */
  function Turn(outline: seq<Point2>, i: int, c: Point2): real
    requires 0 <= i < |outline|
  {
    Cross(Sub(outline[i], c), Sub(outline[(i + 1) % |outline|], c))
  }

  /** The outline new_test_map builds. */
  const TestOutline: seq<Point2> :=
    [Point2(1.0, 2.0), Point2(1.0, -2.0), Point2(-1.0, -2.0), Point2(-1.0, 2.0)]

  /** new_test_map: one room, the 4 x 2 box around the origin. The portal indices are
      never written by the source and stay unspecified. */
  method NewTestMap() returns (m: Map)
    ensures fresh(m) && m.Valid() && m.length == 1
    ensures m.rooms[0] != null && fresh(m.rooms[0]) && m.rooms[0].Valid()
    ensures m.rooms[0].length == 4 && Outline(m.rooms[0]) == TestOutline
  {
    var room1 := new Room(4);
    room1.walls[0] := room1.walls[0].(location := Point2(1.0, 2.0));
    room1.walls[1] := room1.walls[1].(location := Point2(1.0, -2.0));
    room1.walls[2] := room1.walls[2].(location := Point2(-1.0, -2.0));
    room1.walls[3] := room1.walls[3].(location := Point2(-1.0, 2.0));
    m := new Map(1);
    m.rooms[0] := room1;
  }

  /** The test room keeps the vertex order of map.h from every point strictly inside
      it. */
  lemma TestOutlineIsClockwise(c: Point2)
    requires -1.0 < c.x < 1.0 && -2.0 < c.y < 2.0
    ensures ClockwiseAround(TestOutline, c)
  {
    var o := TestOutline;
    forall i | 0 <= i < |o|
      ensures Turn(o, i, c) < 0.0
    {
      // each turn is minus the wall's length times c's distance to the wall's line
      if i == 0 {
        assert Cross(Sub(o[0], c), Sub(o[1], c)) == -4.0 * (1.0 - c.x);
      } else if i == 1 {
        assert Cross(Sub(o[1], c), Sub(o[2], c)) == -2.0 * (2.0 + c.y);
      } else if i == 2 {
        assert Cross(Sub(o[2], c), Sub(o[3], c)) == -4.0 * (1.0 + c.x);
      } else {
        assert Cross(Sub(o[3], c), Sub(o[0], c)) == -2.0 * (2.0 - c.y);
      }
    }
  }
}
