/** The edit session itself: an object holding the world it edits, the undo baselines, the
    latest values, the queue of deferred blocks, the change limit and the queue switch. Each
    method updates these fields in place as the session does, and is proved to leave them as
    the matching function on `State` values says. */
module Session {
  import opened Blocks
  import opened Model
  import opened Regions
  import opened Fill
  import opened History
  import opened Runs

  class EditSession {
    var world: map<Point, int>
    var original: map<Point, int>
    var current: map<Point, int>
    var queue: map<Point, int>
    var maxBlocks: int
    var queued: bool

    /** The session and its world as a value. */
    function Snapshot(): State
      reads this
    {
      State(world, original, current, queue, maxBlocks, queued)
    }

    /** A session with no history, no change limit and the queue off. */
    constructor(world: map<Point, int>)
      ensures Snapshot() == State(world, map[], map[], map[], -1, false)
      ensures Valid(Snapshot())
    {
      this.world := world;
      original := map[];
      current := map[];
      queue := map[];
      maxBlocks := -1;
      queued := false;
    }

    /** A session with a change limit; a limit below -1 is refused. */
    static method WithLimit(world: map<Point, int>, maxBlocks: int) returns (e: EditSession?, status: Status)
      ensures maxBlocks < -1 ==> e == null && status == IllegalArgument
      ensures maxBlocks >= -1 ==>
        && status == Ok && e != null && fresh(e)
        && e.Snapshot() == State(world, map[], map[], map[], maxBlocks, false)
        && Valid(e.Snapshot())
    {
      if maxBlocks < -1 {
        return null, IllegalArgument;
      }
      e := new EditSession(world);
      e.maxBlocks := maxBlocks;
      status := Ok;
    }

    // -------------------------------------------------------------------------------------
    // Single blocks

    /** `rawSetBlock`: write the world directly, outside history and queue; answers whether
        the block differs from what the world held. */
    method RawSetBlock(p: Point, b: int) returns (changed: bool)
      modifies this
      ensures Snapshot() == old(Snapshot()).(world := old(world)[p := b])
      ensures changed == (RawGet(old(world), p) != b)
    {
      changed := RawGet(world, p) != b;
      world := world[p := b];
    }

    /** `rawGetBlock`: the world's block at p, air where nothing was ever placed. */
    function RawGetBlock(p: Point): (b: int)
      reads this
      ensures b == RawGet(world, p)
    {
      if p in world then world[p] else 0
    }

    /** `getBlock`: with the queue on, a point written in this session reads its latest value,
        which may still wait in the queue; otherwise the world is asked. */
    function GetBlock(p: Point): (b: int)
      reads this
      ensures b == ReadBlock(Snapshot(), p)
    {
      if queued && p in current then current[p] else RawGetBlock(p)
    }

    /** `smartSetBlock`: place b at p, deferring a support-dependent block over air while the
        queue is on, and first clearing such a block above p when p is cleared. */
    method SmartSetBlock(p: Point, b: int) returns (changed: bool)
      modifies this
      ensures (Snapshot(), changed) == SmartWrite(old(Snapshot()), p, b)
    {
      if queued {
        var below := RawGetBlock(Below(p));
        if b != 0 && b in QueuedBlocks && below == 0 {
          queue := queue[p := b];
          var now := GetBlock(p);
          return now != b;
        } else if b == 0 {
          var above := RawGetBlock(Above(p));
          if above in QueuedBlocks {
            var dropped := RawSetBlock(Above(p), 0);
          }
        }
      }
      changed := RawSetBlock(p, b);
    }

    /** `setBlock`: record p's baseline on its first write, enforce the change limit, record
        the latest value and place the block. */
    method SetBlock(p: Point, b: int) returns (changed: bool, status: Status)
      modifies this
      ensures Write(Snapshot(), changed, status) == TrackedWrite(old(Snapshot()), p, b)
    {
      if p !in original {
        var now := GetBlock(p);
        original := original[p := now];
        if maxBlocks != -1 && |original| > maxBlocks {
          return false, MaxChangedBlocks(maxBlocks);
        }
      }
      current := current[p := b];
      changed := SmartSetBlock(p, b);
      status := Ok;
    }

    // -------------------------------------------------------------------------------------
    // History, limit and queue

    /** The loop shared by `undo` and `redo`: `smartSetBlock(k, m[k])` for every key of m, in
        an order the method chooses, as a hash map's iteration does. */
    method ReplayAll(m: map<Point, int>) returns (ghost order: seq<Point>)
      modifies this
      ensures Enumerates(order, m.Keys)
      ensures Snapshot() == Replay(old(Snapshot()), order, m)
    {
      ghost var s0 := Snapshot();
      var rest := m.Keys;
      order := [];
      while rest != {}
        invariant forall k :: k in order ==> k in m && k !in rest
        invariant forall k :: k in m ==> k in order || k in rest
        invariant rest <= m.Keys
        invariant forall i, j :: 0 <= i < j < |order| ==> order[i] != order[j]
        invariant Snapshot() == Replay(s0, order, m)
        decreases |rest|
      {
        var k :| k in rest;
        var changed := SmartSetBlock(k, m[k]);
        ReplaySnoc(s0, order, k, m);
        rest := rest - {k};
        order := order + [k];
      }
    }

    /** `undo`: put every recorded baseline back, then flush the queue. */
    method Undo() returns (ghost order: seq<Point>)
      modifies this
      ensures Enumerates(order, old(original).Keys)
      ensures Snapshot() == Undone(old(Snapshot()), order)
    {
      order := ReplayAll(original);
      FlushQueue();
    }

    /** `redo`: put every latest value back, then flush the queue. */
    method Redo() returns (ghost order: seq<Point>)
      modifies this
      ensures Enumerates(order, old(current).Keys)
      ensures Snapshot() == Redone(old(Snapshot()), order)
    {
      order := ReplayAll(current);
      FlushQueue();
    }

    /** `size`: the number of points with a recorded baseline. */
    method Size() returns (n: int)
      ensures n == |original|
    {
      n := |original|;
    }

    method GetBlockChangeLimit() returns (limit: int)
      ensures limit == maxBlocks
    {
      limit := maxBlocks;
    }

    /** `setBlockChangeLimit`: -1 lifts the limit; a value below -1 is refused and changes
        nothing. */
    method SetBlockChangeLimit(limit: int) returns (status: Status)
      modifies this
      ensures limit < -1 ==> status == IllegalArgument && Snapshot() == old(Snapshot())
      ensures limit >= -1 ==> status == Ok && Snapshot() == old(Snapshot()).(maxBlocks := limit)
    {
      if limit < -1 {
        return IllegalArgument;
      }
      maxBlocks := limit;
      status := Ok;
    }

    method IsQueueEnabled() returns (on: bool)
      ensures on == queued
    {
      on := queued;
    }

    method EnableQueue()
      modifies this
      ensures Snapshot() == old(Snapshot()).(queued := true)
    {
      queued := true;
    }

    /** `disableQueue`: flush a switched-on queue, then switch it off. */
    method DisableQueue()
      modifies this
      ensures Snapshot() == Flush(old(Snapshot())).(queued := false)
    {
      if queued {
        FlushQueue();
      }
      queued := false;
    }

    /** `flushQueue`: with the queue on, write every queued block to the world, in an order
        the method chooses. The queue keeps its entries. */
    method FlushQueue()
      modifies this
      ensures Snapshot() == Flush(old(Snapshot()))
    {
      if !queued {
        return;
      }
      var rest := queue.Keys;
      ghost var done: map<Point, int> := map[];
      while rest != {}
        invariant rest <= queue.Keys
        invariant forall k :: k in queue ==> (k in done <==> k !in rest)
        invariant forall k :: k in done ==> k in queue && done[k] == queue[k]
        invariant Snapshot() == old(Snapshot()).(world := old(world) + done)
        decreases |rest|
      {
        var k :| k in rest;
        var changed := RawSetBlock(k, queue[k]);
        assert old(world) + done[k := queue[k]] == (old(world) + done)[k := queue[k]];
        done := done[k := queue[k]];
        rest := rest - {k};
      }
      assert done == queue;
    }
  
    // -------------------------------------------------------------------------------------
    // Flood fill

    /** `fillY`: fill column (x, z) downwards from row cy while the cells read air, down to
        minY, counting every filled cell. */
    method FillY(x: int, cy: int, z: int, b: int, minY: int) returns (affected: int, status: Status)
      modifies this
      ensures Outcome(Snapshot(), affected, status) == FillDown(old(Snapshot()), x, cy, z, b, minY)
    {
      ghost var s0 := Snapshot();
      affected, status := 0, Ok;
      var y := cy;
      while y >= minY
        invariant y <= cy && status == Ok
        invariant Plus(affected, FillDown(Snapshot(), x, y, z, b, minY)) == FillDown(s0, x, cy, z, b, minY)
        decreases y - minY + 1
      {
        ghost var sy := Snapshot();
        FillDownAt(sy, x, y, z, b, minY);
        var p := Point(x, y, z);
        var now := GetBlock(p);
        if now != 0 {
          break;
        }
        var changed;
        changed, status := SetBlock(p, b);
        if !status.Ok? {
          return;
        }
        affected := affected + 1;
        y := y - 1;
      }
    }

    /** `fillXZ`: if column (x, z) lies in the disc around the origin and is air at the
        origin's height, fill it downwards, then spread to x + 1, x - 1, z + 1 and z - 1. */
    method FillXZ(x: int, z: int, origin: Point, b: int, radius: int, depth: int) returns (affected: int, status: Status)
      requires b != 0 && depth >= 1
      modifies this
      ensures Outcome(Snapshot(), affected, status) == Fill.FillXZ(old(Snapshot()), x, z, origin, b, radius, depth)
      decreases |AirColumns(Snapshot(), origin, radius)|, 5
    {
      if !InDisc(x, z, origin, radius) {
        return 0, Ok;
      }
      var top := GetBlock(Point(x, origin.y, z));
      if top != 0 {
        return 0, Ok;
      }
      ghost var m := |AirColumns(Snapshot(), origin, radius)|;
      ghost var goal := Fill.FillXZ(Snapshot(), x, z, origin, b, radius, depth);
      affected, status := FillColumn(x, z, origin, b, radius, depth, m, goal);
      if !status.Ok? {
        return;
      }
      affected, status := SpreadTo(x, z, origin, b, radius, depth, 0, m, goal, affected);
    }

    /** The first column of `fillXZ`: fill downwards from the top of (x, z); goal is the
        outcome of the whole call. */
    method FillColumn(x: int, z: int, origin: Point, b: int, radius: int, depth: int,
                      ghost m: int, ghost goal: Outcome)
      returns (affected: int, status: Status)
      requires b != 0 && depth >= 1
      requires InDisc(x, z, origin, radius) && GetBlock(Point(x, origin.y, z)) == 0
      requires m == |AirColumns(Snapshot(), origin, radius)|
      requires goal == Fill.FillXZ(Snapshot(), x, z, origin, b, radius, depth)
      modifies this
      ensures status.Ok? ==> |AirColumns(Snapshot(), origin, radius)| < m
      ensures status.Ok? ==> goal == Plus(affected, Spread(Snapshot(), x, z, origin, b, radius, depth, 0, m))
      ensures !status.Ok? ==> goal == Outcome(Snapshot(), affected, status)
    {
      FillXZAt(Snapshot(), x, z, origin, b, radius, depth);
      affected, status := FillY(x, origin.y, z, b, origin.y - depth + 1);
    }

    /** The recursive calls of `fillXZ` on neighbours k .. 3 of (x, z), one after the other,
        adding their counts to the n blocks filled so far; goal is the outcome of the whole
        call. */
    method SpreadTo(x: int, z: int, origin: Point, b: int, radius: int, depth: int, k: nat,
                    ghost m: int, ghost goal: Outcome, n: int)
      returns (affected: int, status: Status)
      requires b != 0 && depth >= 1 && k <= 4 && |AirColumns(Snapshot(), origin, radius)| < m
      requires goal == Plus(n, Spread(Snapshot(), x, z, origin, b, radius, depth, k, m))
      modifies this
      ensures goal == Outcome(Snapshot(), affected, status)
      decreases m, 4 - k
    {
      if k == 4 {
        return n, Ok;
      }
      ghost var s0 := Snapshot();
      var (nx, nz) := Neighbour(x, z, k);
      SpreadAt(s0, x, z, origin, b, radius, depth, k, m);
      ghost var o := Fill.FillXZ(s0, nx, nz, origin, b, radius, depth);
      var sub;
      sub, status := FillXZ(nx, nz, origin, b, radius, depth);
      assert o.s == Snapshot() && o.affected == sub && o.status == status;
      if !status.Ok? {
        return n + sub, status;
      }
      affected, status := SpreadTo(x, z, origin, b, radius, depth, k + 1, m, goal, n + sub);
    }

    // -------------------------------------------------------------------------------------
    // Region operations

    /** `setBlocks`: write b at every position of the region, x then y then z for a cuboid,
        counting the writes that changed something. */
    method SetBlocks(region: Region, b: int) returns (affected: int, status: Status)
      modifies this
      ensures Outcome(Snapshot(), affected, status) == Run(old(Snapshot()), Points(region), Fill(b))
    {
      match region
      case Cuboid(min, max) =>
        affected, status := SweepBox(XYZ, min.x, max.x, min.y, max.y, min.z, max.z, false, Fill(b));
      case Shape(_, _, points) =>
        affected, status := SweepPoints(points, Fill(b));
    }

    /** `replaceBlocks`: write `to` at every position of the region that holds `from` (any
        non-air block when `from` is -1), counting the writes that changed something. */
    method ReplaceBlocks(region: Region, from: int, to: int) returns (affected: int, status: Status)
      modifies this
      ensures Outcome(Snapshot(), affected, status) == Run(old(Snapshot()), Points(region), Replace(from, to))
    {
      match region
      case Cuboid(min, max) =>
        affected, status := SweepBox(XYZ, min.x, max.x, min.y, max.y, min.z, max.z, false, Replace(from, to));
      case Shape(_, _, points) =>
        affected, status := SweepPoints(points, Replace(from, to));
    }

    /** `removeAbove`: clear every non-air block of the columns within size - 1 of pos, from
        pos.y up to height - 1 rows higher (at most the ceiling), counting each. */
    method RemoveAbove(pos: Point, size: int, height: int) returns (affected: int, status: Status)
      modifies this
      ensures Outcome(Snapshot(), affected, status) == Run(old(Snapshot()), AboveArea(pos, size, height), Clear)
    {
      var r := size - 1;
      affected, status := SweepBox(XZY, pos.x - r, pos.x + r, pos.z - r, pos.z + r, pos.y, AboveTop(pos, height), false, Clear);
    }

    /** `removeBelow`: the same, from pos.y down to height rows lower (at least row 0). */
    method RemoveBelow(pos: Point, size: int, height: int) returns (affected: int, status: Status)
      modifies this
      ensures Outcome(Snapshot(), affected, status) == Run(old(Snapshot()), BelowArea(pos, size, height), Clear)
    {
      var r := size - 1;
      affected, status := SweepBox(XZY, pos.x - r, pos.x + r, pos.z - r, pos.z + r, BelowBottom(pos, height), pos.y, true, Clear);
    }

    /** `overlayCuboidBlocks`: in every column of the region, scanning down from one above it,
        put b on the first block with air above it. */
    method OverlayCuboidBlocks(region: Region, b: int) returns (affected: int, status: Status)
      modifies this
      ensures Outcome(Snapshot(), affected, status) ==
        Run(old(Snapshot()), OverlayArea(region.min, region.max), Overlay(b, LowerY(region.min)))
    {
      var min, max := region.min, region.max;
      var top := UpperY(max);
      affected, status := SweepBox(XZY, min.x, max.x, min.z, max.z, top, top, false, Overlay(b, LowerY(min)));
    }

    /** `stackCuboidRegion`: copy every block of the region (air only when `copyAir`) count
        times, each copy shifted one more tile in the direction (xm, ym, zm). */
    method StackCuboidRegion(region: Region, xm: int, ym: int, zm: int, count: int, copyAir: bool)
      returns (affected: int, status: Status)
      modifies this
      ensures Outcome(Snapshot(), affected, status) ==
        Run(old(Snapshot()), StackArea(region.min, region.max),
            Stack(Shift(region.min, region.max, xm, ym, zm), count, copyAir))
    {
      var min, max := region.min, region.max;
      var d := Shift(min, max, xm, ym, zm);
      affected, status := SweepBox(XZY, min.x, max.x, min.z, max.z, min.y, max.y, false, Stack(d, count, copyAir));
    }

    /** `makeCuboidFaces`: write b on the six faces of the region's bounding box, in three
        face loops; the first loop also counts one for every (x, y) pair. */
    method MakeCuboidFaces(region: Region, b: int) returns (affected: int, status: Status)
      modifies this
      ensures var f := FacesRun(old(Snapshot()), region.min, region.max, b);
        Snapshot() == f.s && status == f.status && (status.Ok? ==> affected == f.affected)
    {
      var min, max := region.min, region.max;
      ghost var s0 := Snapshot();
      ghost var o := Outcome(s0, 0, Ok);
      ghost var l1 := Ladder(XYZ, min.x, max.x, min.y, max.y, min.z, max.z);
      ghost var l2 := Ladder(YZX, min.y, max.y, min.z, max.z, min.x, max.x);
      ghost var l3 := Ladder(ZXY, min.z, max.z, min.x, max.x, min.y, max.y);
      assert [] + l1 == l1;
      affected, status, o := SweepLadder(XYZ, min.x, max.x, min.y, max.y, min.z, max.z, b, true, s0, [], o, 0);
      if !status.Ok? {
        FacesStop(s0, min, max, l1, Fill(b));
        return;
      }
      affected, status, o := SweepLadder(YZX, min.y, max.y, min.z, max.z, min.x, max.x, b, false, s0, l1, o, affected);
      if !status.Ok? {
        FacesStop(s0, min, max, l1 + l2, Fill(b));
        return;
      }
      affected, status, o := SweepLadder(ZXY, min.z, max.z, min.x, max.x, min.y, max.y, b, false, s0, l1 + l2, o, affected);
      assert l1 + l2 + l3 == Faces(min, max);
    }

    // -------------------------------------------------------------------------------------
    // The loop body of the region operations

    /** The loop body of a region algorithm at one visited point. */
    method Apply(p: Point, act: Action) returns (affected: int, status: Status)
      modifies this
      ensures Outcome(Snapshot(), affected, status) == Step(old(Snapshot()), p, act)
      decreases act.Rank(), 2
    {
      match act
      case Fill(b) =>
        var changed;
        changed, status := SetBlock(p, b);
        affected := if changed then 1 else 0;
      case Replace(from, to) =>
        var cur := GetBlock(p);
        if (from == -1 && cur != 0) || cur == from {
          var changed;
          changed, status := SetBlock(p, to);
          affected := if changed then 1 else 0;
        } else {
          affected, status := 0, Ok;
        }
      case Clear =>
        var cur := GetBlock(p);
        if cur != 0 {
          var changed;
          changed, status := SetBlock(p, 0);
          affected := 1;
        } else {
          affected, status := 0, Ok;
        }
      case Overlay(b, lowerY) =>
        affected, status := OverlayColumn(p, b, lowerY);
      case Stack(d, count, copyAir) =>
        affected, status := StackPoint(p, d, count, copyAir);
    }

    /** The overlay of one column: scan down from p for the first non-air block under air,
        below the ceiling, and place b on it. */
    method OverlayColumn(p: Point, b: int, lowerY: int) returns (affected: int, status: Status)
      modifies this
      ensures Outcome(Snapshot(), affected, status) == Step(old(Snapshot()), p, Overlay(b, lowerY))
    {
      var top := FindSurface(p, lowerY);
      if top.Some? {
        var changed;
        changed, status := SetBlock(Point(p.x, top.value + 1, p.z), b);
        affected := if changed then 1 else 0;
      } else {
        affected, status := 0, Ok;
      }
    }

    /** The scan of that column, which changes nothing: the highest row y from p.y down to
        lowerY, and under the ceiling, that is a block with air above it. */
    method FindSurface(p: Point, lowerY: int) returns (top: Option<int>)
      ensures top == TopY(Snapshot(), p.x, p.z, p.y, lowerY)
    {
      var y := p.y;
      while y >= lowerY
        invariant y <= p.y
        invariant TopY(Snapshot(), p.x, p.z, y, lowerY) == TopY(Snapshot(), p.x, p.z, p.y, lowerY)
        decreases y - lowerY + 1
      {
        if y + 1 <= Ceiling && GetBlock(Point(p.x, y, p.z)) != 0 && GetBlock(Point(p.x, y + 1, p.z)) == 0 {
          return Some(y);
        }
        y := y - 1;
      }
      return None;
    }

    /** The copies of one point of `stackCuboidRegion`: unless it is air and air is not
        copied, write its block at p + i * d for i = 1 .. count. */
    method StackPoint(p: Point, d: Point, count: int, copyAir: bool) returns (affected: int, status: Status)
      modifies this
      ensures Outcome(Snapshot(), affected, status) == Step(old(Snapshot()), p, Stack(d, count, copyAir))
      decreases 1, 1
    {
      ghost var s0 := Snapshot();
      var bt := GetBlock(p);
      StackAt(s0, p, d, count, copyAir);
      if bt != 0 || copyAir {
        affected, status := PlaceCopies(p, d, count, Fill(bt));
      } else {
        affected, status := 0, Ok;
      }
    }

    /** The inner loop of `stackCuboidRegion`: the step act at each copy of p, i = 1 .. count. */
    method PlaceCopies(p: Point, d: Point, count: int, act: Action) returns (affected: int, status: Status)
      modifies this
      ensures Outcome(Snapshot(), affected, status) == Run(old(Snapshot()), Copies(p, d, count), act)
      decreases act.Rank() + 1, 0
    {
      ghost var s0 := Snapshot();
      ghost var o := Outcome(s0, 0, Ok);
      affected, status := 0, Ok;
      var i := 1;
      while i <= count
        invariant 1 <= i && (i <= count + 1 || i == 1)
        invariant o == Run(s0, Copies(p, d, i - 1), act)
        invariant o.s == Snapshot() && o.affected == affected && o.status == Ok && status == Ok
      {
        affected, status, o := PlaceCopy(p, d, i, count, act, s0, o, affected);
        if !status.Ok? {
          return;
        }
        i := i + 1;
      }
      CopiesDone(p, d, i - 1, count);
    }

    /** Copy i of p, after copies 1 .. i - 1; an exceeded limit ends the copies of p. */
    method PlaceCopy(p: Point, d: Point, i: int, count: int, act: Action, ghost s0: State, ghost o: Outcome, n: int)
      returns (affected: int, status: Status, ghost o': Outcome)
      requires 1 <= i <= count
      requires o == Run(s0, Copies(p, d, i - 1), act) && o.s == Snapshot() && o.affected == n && o.status == Ok
      modifies this
      ensures o'.s == Snapshot() && o'.affected == affected && o'.status == status
      ensures o' == Run(s0, if status.Ok? then Copies(p, d, i) else Copies(p, d, count), act)
      decreases act.Rank(), 4
    {
      var q := Point(p.x + d.x * i, p.y + d.y * i, p.z + d.z * i);
      CopyAtScaled(p, d, i);
      affected, status, o' := Visit(q, act, s0, Copies(p, d, i - 1), o, n);
      if !status.Ok? {
        CopiesStop(s0, p, d, i, count, act);
      }
    }

    // -------------------------------------------------------------------------------------
    // The nested loops of the region algorithms. Each loop level is one method; each carries
    // a ghost outcome: the run from s0 over the points visited so far.

    /** The loop body at one point, after the points `done`. */
    method Visit(p: Point, act: Action, ghost s0: State, ghost done: seq<Point>, ghost o: Outcome, n: int)
      returns (affected: int, status: Status, ghost o': Outcome)
      requires o == Run(s0, done, act) && o.s == Snapshot() && o.status == Ok
      modifies this
      ensures o' == Run(s0, done + [p], act) && o'.s == Snapshot() && o'.status == status
      ensures affected - n == o'.affected - o.affected
      decreases act.Rank(), 3
    {
      RunSnocOk(s0, done, p, act);
      var k;
      k, status := Apply(p, act);
      affected := n + k;
      o' := Outcome(Snapshot(), o.affected + k, status);
    }

    /** The innermost loop: c from lo up to hi, or from hi down to lo. */
    method SweepLine(ord: Order, a: int, b: int, lo: int, hi: int, down: bool, act: Action,
                     ghost s0: State, ghost done: seq<Point>, ghost o: Outcome, n: int)
      returns (affected: int, status: Status, ghost o': Outcome)
      requires o == Run(s0, done, act) && o.s == Snapshot() && o.affected == n && o.status == Ok
      modifies this
      ensures o' == Run(s0, done + Line(ord, a, b, lo, hi, down), act)
      ensures o'.s == Snapshot() && o'.affected == affected && o'.status == status
    {
      affected, status, o' := n, Ok, o;
      var c := if down then hi else lo;
      LineStart(ord, a, b, lo, hi, down, done);
      while if down then c >= lo else c <= hi
        invariant if down then Min(lo - 1, hi) <= c <= hi else lo <= c <= Max(hi + 1, lo)
        invariant o' == Run(s0, done + Visited(ord, a, b, lo, hi, down, c), act)
        invariant o'.s == Snapshot() && o'.affected == affected && o'.status == Ok && status == Ok
        decreases if down then c - lo else hi - c
      {
        LineNext(ord, a, b, lo, hi, down, c, done);
        affected, status, o' := Visit(At(ord, a, b, c), act, s0, done + Visited(ord, a, b, lo, hi, down, c), o', affected);
        if !status.Ok? {
          LineStop(s0, done, ord, a, b, lo, hi, down, c, act);
          return;
        }
        c := NextC(c, down);
      }
      assert c == if down then Min(lo - 1, hi) else Max(hi + 1, lo);
      LineDone(ord, a, b, lo, hi, down, c);
    }

    /** The middle loop: b from b0 up to b1, each running the innermost loop. */
    method SweepPlane(ord: Order, a: int, b0: int, b1: int, lo: int, hi: int, down: bool, act: Action,
                      ghost s0: State, ghost done: seq<Point>, ghost o: Outcome, n: int)
      returns (affected: int, status: Status, ghost o': Outcome)
      requires o == Run(s0, done, act) && o.s == Snapshot() && o.affected == n && o.status == Ok
      modifies this
      ensures o' == Run(s0, done + Plane(ord, a, b0, b1, lo, hi, down), act)
      ensures o'.s == Snapshot() && o'.affected == affected && o'.status == status
    {
      affected, status, o' := n, Ok, o;
      var b := b0;
      assert done + Plane(ord, a, b0, b0 - 1, lo, hi, down) == done;
      while b <= b1
        invariant b0 <= b <= Max(b1 + 1, b0)
        invariant o' == Run(s0, done + Plane(ord, a, b0, b - 1, lo, hi, down), act)
        invariant o'.s == Snapshot() && o'.affected == affected && o'.status == Ok && status == Ok
      {
        PlaneNext(ord, a, b0, b, lo, hi, down, done);
        affected, status, o' := SweepLine(ord, a, b, lo, hi, down, act, s0, done + Plane(ord, a, b0, b - 1, lo, hi, down), o', affected);
        if !status.Ok? {
          PlaneStop(s0, done, ord, a, b0, b, b1, lo, hi, down, act);
          return;
        }
        b := b + 1;
      }
      assert Plane(ord, a, b0, b - 1, lo, hi, down) == Plane(ord, a, b0, b1, lo, hi, down);
    }

    /** The outer loop: a from a0 up to a1, each running the middle loop. */
    method SweepBox(ord: Order, a0: int, a1: int, b0: int, b1: int, lo: int, hi: int, down: bool, act: Action)
      returns (affected: int, status: Status)
      modifies this
      ensures Outcome(Snapshot(), affected, status) == Run(old(Snapshot()), Box(ord, a0, a1, b0, b1, lo, hi, down), act)
    {
      ghost var s0 := Snapshot();
      ghost var o := Outcome(s0, 0, Ok);
      affected, status := 0, Ok;
      var a := a0;
      assert Box(ord, a0, a0 - 1, b0, b1, lo, hi, down) == [];
      while a <= a1
        invariant a0 <= a <= Max(a1 + 1, a0)
        invariant o == Run(s0, Box(ord, a0, a - 1, b0, b1, lo, hi, down), act)
        invariant o.s == Snapshot() && o.affected == affected && o.status == Ok && status == Ok
      {
        BoxNext(ord, a0, a, b0, b1, lo, hi, down);
        affected, status, o := SweepPlane(ord, a, b0, b1, lo, hi, down, act, s0, Box(ord, a0, a - 1, b0, b1, lo, hi, down), o, affected);
        if !status.Ok? {
          BoxStop(s0, ord, a0, a, a1, b0, b1, lo, hi, down, act);
          return;
        }
        a := a + 1;
      }
      assert Box(ord, a0, a - 1, b0, b1, lo, hi, down) == Box(ord, a0, a1, b0, b1, lo, hi, down);
    }

    /** The loop over the positions of a region that is not a cuboid, in its own order. */
    method SweepPoints(ps: seq<Point>, act: Action) returns (affected: int, status: Status)
      modifies this
      ensures Outcome(Snapshot(), affected, status) == Run(old(Snapshot()), ps, act)
    {
      ghost var s0 := Snapshot();
      ghost var o := Outcome(s0, 0, Ok);
      affected, status := 0, Ok;
      var i := 0;
      assert ps[..0] == [];
      while i < |ps|
        invariant 0 <= i <= |ps|
        invariant o == Run(s0, ps[..i], act)
        invariant o.s == Snapshot() && o.affected == affected && o.status == Ok && status == Ok
      {
        PointsNext(ps, i);
        affected, status, o := Visit(ps[i], act, s0, ps[..i], o, affected);
        if !status.Ok? {
          PointsStop(s0, ps, i + 1, act);
          return;
        }
        i := i + 1;
      }
      assert ps[..i] == ps;
    }

    /** The middle loop of a face loop of `makeCuboidFaces`: for each b, write blk on the two
        opposite faces c0 and c1, and, when `extra`, count one more whatever the writes did. */
    method SweepRungs(ord: Order, a: int, b0: int, b1: int, c0: int, c1: int, blk: int, extra: bool,
                      ghost s0: State, ghost done: seq<Point>, ghost o: Outcome, n: int)
      returns (affected: int, status: Status, ghost o': Outcome)
      requires o == Run(s0, done, Fill(blk)) && o.s == Snapshot() && o.status == Ok
      modifies this
      ensures o' == Run(s0, done + Rungs(ord, a, b0, b1, c0, c1), Fill(blk))
      ensures o'.s == Snapshot() && o'.status == status
      ensures status.Ok? ==> affected - n == o'.affected - o.affected + (if extra then Max(b1 - b0 + 1, 0) else 0)
    {
      affected, status, o' := n, Ok, o;
      var b := b0;
      assert done + Rungs(ord, a, b0, b0 - 1, c0, c1) == done;
      while b <= b1
        invariant b0 <= b <= Max(b1 + 1, b0)
        invariant o' == Run(s0, done + Rungs(ord, a, b0, b - 1, c0, c1), Fill(blk))
        invariant o'.s == Snapshot() && o'.status == Ok && status == Ok
        invariant affected - n == o'.affected - o.affected + (if extra then b - b0 else 0)
      {
        ghost var before := done + Rungs(ord, a, b0, b - 1, c0, c1);
        RungNext(ord, a, b0, b, c0, c1, done);
        affected, status, o' := Visit(At(ord, a, b, c0), Fill(blk), s0, before, o', affected);
        if !status.Ok? {
          RungStop(s0, done, ord, a, b0, b, b1, c0, c1, before + [At(ord, a, b, c0)], Fill(blk));
          return;
        }
        affected, status, o' := Visit(At(ord, a, b, c1), Fill(blk), s0, before + [At(ord, a, b, c0)], o', affected);
        if !status.Ok? {
          RungStop(s0, done, ord, a, b0, b, b1, c0, c1, before + [At(ord, a, b, c0)] + [At(ord, a, b, c1)], Fill(blk));
          return;
        }
        if extra {
          affected := affected + 1;
        }
        b := b + 1;
      }
      assert Rungs(ord, a, b0, b - 1, c0, c1) == Rungs(ord, a, b0, b1, c0, c1);
    }

    /** The outer loop of a face loop of `makeCuboidFaces`: a from a0 up to a1. */
    method SweepLadder(ord: Order, a0: int, a1: int, b0: int, b1: int, c0: int, c1: int, blk: int, extra: bool,
                       ghost s0: State, ghost done: seq<Point>, ghost o: Outcome, n: int)
      returns (affected: int, status: Status, ghost o': Outcome)
      requires o == Run(s0, done, Fill(blk)) && o.s == Snapshot() && o.status == Ok
      modifies this
      ensures o' == Run(s0, done + Ladder(ord, a0, a1, b0, b1, c0, c1), Fill(blk))
      ensures o'.s == Snapshot() && o'.status == status
      ensures status.Ok? ==> affected - n == o'.affected - o.affected + (if extra then Cells(a0, a1, b0, b1) else 0)
    {
      affected, status, o' := n, Ok, o;
      var a := a0;
      assert done + Ladder(ord, a0, a0 - 1, b0, b1, c0, c1) == done;
      while a <= a1
        invariant a0 <= a <= Max(a1 + 1, a0)
        invariant o' == Run(s0, done + Ladder(ord, a0, a - 1, b0, b1, c0, c1), Fill(blk))
        invariant o'.s == Snapshot() && o'.status == Ok && status == Ok
        invariant affected - n == o'.affected - o.affected + (if extra then Cells(a0, a - 1, b0, b1) else 0)
      {
        LadderNext(ord, a0, a, b0, b1, c0, c1, done);
        affected, status, o' := SweepRungs(ord, a, b0, b1, c0, c1, blk, extra, s0, done + Ladder(ord, a0, a - 1, b0, b1, c0, c1), o', affected);
        if !status.Ok? {
          LadderStop(s0, done, ord, a0, a, a1, b0, b1, c0, c1, Fill(blk));
          return;
        }
        a := a + 1;
      }
      assert Ladder(ord, a0, a - 1, b0, b1, c0, c1) == Ladder(ord, a0, a1, b0, b1, c0, c1);
      assert Cells(a0, a - 1, b0, b1) == Cells(a0, a1, b0, b1);
    }
  }
}
