/** Block positions, block ids and the world store that an edit session writes to. */
module Blocks {

  /** A block position. Two points are the same key exactly when all three coordinates agree. */
  datatype Point = Point(x: int, y: int, z: int)

  /** The position shifted by (dx, dy, dz), as `Point.add` does. */
  function Offset(p: Point, dx: int, dy: int, dz: int): Point {
    Point(p.x + dx, p.y + dy, p.z + dz)
  }

  function Below(p: Point): Point { Offset(p, 0, -1, 0) }

  function Above(p: Point): Point { Offset(p, 0, 1, 0) }

  /** Block ids that only survive when resting on a block: torch, yellow flower, red rose,
      brown and red mushroom, crops, sign, redstone torch (off and on), reed. */
  const QueuedBlocks: set<int> := {50, 37, 38, 39, 40, 59, 63, 75, 76, 84}

  /** The highest block row of the world. */
  const Ceiling: int := 127

  /** The world as the server reports it: a position never written reads as air (0). */
  function RawGet(world: map<Point, int>, p: Point): int {
    if p in world then world[p] else 0
  }
}
