/** The region algorithms of the edit session, specified on `State` values. Every algorithm is
    a sequence of tracked writes; the loops of the source become the point sequences below, in
    exactly the order the source visits them, and `Run` replays one step per point. */
module Regions {
  import opened Blocks
  import opened Model

  datatype Option<T> = None | Some(value: T)

  /** What a region algorithm returns: the new state, its `affected` counter, and whether it
      ended normally or with an exceeded change limit. */
  datatype Outcome = Outcome(s: State, affected: int, status: Status)

  /** The outcome o with n more blocks counted. */
  function Plus(n: int, o: Outcome): Outcome {
    Outcome(o.s, n + o.affected, o.status)
  }

  /** A region: an axis-aligned cuboid, or any other shape, which supplies its bounding
      corners and the sequence of its positions. */
  datatype Region =
    | Cuboid(min: Point, max: Point)
    | Shape(min: Point, max: Point, points: seq<Point>)

  // ---------------------------------------------------------------------------------------
  // Loop orders

  /** Which coordinate each level of a nested loop drives: outer a, middle b, inner c. */
  datatype Order = XYZ | XZY | YZX | ZXY

  function At(o: Order, a: int, b: int, c: int): Point {
    match o
    case XYZ => Point(a, b, c)
    case XZY => Point(a, c, b)
    case YZX => Point(c, a, b)
    case ZXY => Point(b, c, a)
  }

  /** The loop coordinates of a point: the inverse of `At`. */
  function Coords(o: Order, q: Point): (int, int, int) {
    match o
    case XYZ => (q.x, q.y, q.z)
    case XZY => (q.x, q.z, q.y)
    case YZX => (q.y, q.z, q.x)
    case ZXY => (q.z, q.x, q.y)
  }

  /** The innermost loop: c from lo up to hi, or, when `down`, from hi down to lo. */
  function Line(o: Order, a: int, b: int, lo: int, hi: int, down: bool): seq<Point>
    decreases hi - lo
  {
    if hi < lo then []
    else if down then Line(o, a, b, lo + 1, hi, down) + [At(o, a, b, lo)]
    else Line(o, a, b, lo, hi - 1, down) + [At(o, a, b, hi)]
  }

  /** The middle loop: b from b0 up to b1, each running the innermost loop. */
  function Plane(o: Order, a: int, b0: int, b1: int, lo: int, hi: int, down: bool): seq<Point>
    decreases b1 - b0
  {
    if b1 < b0 then [] else Plane(o, a, b0, b1 - 1, lo, hi, down) + Line(o, a, b1, lo, hi, down)
  }

  /** The outer loop: a from a0 up to a1, each running the middle loop. */
  function Box(o: Order, a0: int, a1: int, b0: int, b1: int, lo: int, hi: int, down: bool): seq<Point>
    decreases a1 - a0
  {
    if a1 < a0 then [] else Box(o, a0, a1 - 1, b0, b1, lo, hi, down) + Plane(o, a1, b0, b1, lo, hi, down)
  }

  /** The points of the innermost loop already visited when its variable holds c. */
  function Visited(o: Order, a: int, b: int, lo: int, hi: int, down: bool, c: int): seq<Point> {
    if down then Line(o, a, b, c + 1, hi, true) else Line(o, a, b, lo, c - 1, false)
  }

  /** One face loop of `makeCuboidFaces`: for each b, the pair of points on the two opposite
      faces c0 and c1. */
  function Rungs(o: Order, a: int, b0: int, b1: int, c0: int, c1: int): seq<Point>
    decreases b1 - b0
  {
    if b1 < b0 then [] else Rungs(o, a, b0, b1 - 1, c0, c1) + [At(o, a, b1, c0), At(o, a, b1, c1)]
  }

  function Ladder(o: Order, a0: int, a1: int, b0: int, b1: int, c0: int, c1: int): seq<Point>
    decreases a1 - a0
  {
    if a1 < a0 then [] else Ladder(o, a0, a1 - 1, b0, b1, c0, c1) + Rungs(o, a1, b0, b1, c0, c1)
  }

  /** The number of (a, b) pairs of a double loop. */
  function Cells(a0: int, a1: int, b0: int, b1: int): (n: int)
    ensures n >= 0
    decreases a1 - a0
  {
    if a1 < a0 then 0 else Cells(a0, a1 - 1, b0, b1) + (if b1 < b0 then 0 else b1 - b0 + 1)
  }

  /** The copies of p for i = 1 .. count, each shifted by i times d. */
  function Copies(p: Point, d: Point, count: int): seq<Point>
    decreases count
  {
    if count <= 0 then [] else Copies(p, d, count - 1) + [CopyAt(p, d, count)]
  }

  /** The i-th copy of p: p shifted i times by d (`CopyAtScaled` gives p + i * d). */
  function CopyAt(p: Point, d: Point, i: int): Point
    decreases i
  {
    if i <= 0 then p else Offset(CopyAt(p, d, i - 1), d.x, d.y, d.z)
  }

  /** The positions `setBlocks` and `replaceBlocks` visit: the x, y, z loops of a cuboid,
      or the positions of any other shape. */
  function Points(r: Region): seq<Point> {
    match r
    case Cuboid(min, max) => Box(XYZ, min.x, max.x, min.y, max.y, min.z, max.z, false)
    case Shape(_, _, points) => points
  }

  /** The positions of the three face loops of `makeCuboidFaces`. */
  function Faces(min: Point, max: Point): seq<Point> {
    Ladder(XYZ, min.x, max.x, min.y, max.y, min.z, max.z) +
    Ladder(YZX, min.y, max.y, min.z, max.z, min.x, max.x) +
    Ladder(ZXY, min.z, max.z, min.x, max.x, min.y, max.y)
  }

  /** The columns `removeAbove` and `removeBelow` visit: x and z within size - 1 of pos, x
      outermost; the rows run up from pos.y to the top row, or down from pos.y to the bottom
      row. */
  function AboveArea(pos: Point, size: int, height: int): seq<Point> {
    Box(XZY, pos.x - (size - 1), pos.x + (size - 1), pos.z - (size - 1), pos.z + (size - 1),
        pos.y, AboveTop(pos, height), false)
  }

  function BelowArea(pos: Point, size: int, height: int): seq<Point> {
    Box(XZY, pos.x - (size - 1), pos.x + (size - 1), pos.z - (size - 1), pos.z + (size - 1),
        BelowBottom(pos, height), pos.y, true)
  }

  /** The columns `overlayCuboidBlocks` visits, each named by its top row: the scan of a
      column starts there. */
  function OverlayArea(min: Point, max: Point): seq<Point> {
    Box(XZY, min.x, max.x, min.z, max.z, UpperY(max), UpperY(max), false)
  }

  /** The points `stackCuboidRegion` copies: x, then z, then y over the bounding box. */
  function StackArea(min: Point, max: Point): seq<Point> {
    Box(XZY, min.x, max.x, min.z, max.z, min.y, max.y, false)
  }

  /** One tile's shift of `stackCuboidRegion`: the box's width, height and length, each times
      its direction. */
  function Shift(min: Point, max: Point, xm: int, ym: int, zm: int): Point {
    Point((max.x - min.x + 1) * xm, (max.y - min.y + 1) * ym, (max.z - min.z + 1) * zm)
  }

  /** `makeCuboidFaces`: the writes of the three face loops; once they all succeed, the first
      loop's count has one more for every (x, y) pair, whatever its writes did. */
  function FacesRun(s: State, min: Point, max: Point, b: int): (r: Outcome)
    // the writes and the status are the face loops'; only the count differs
    ensures r.s == Run(s, Faces(min, max), Fill(b)).s && r.status == Run(s, Faces(min, max), Fill(b)).status
    ensures r.status.Ok? ==> r.affected >= Cells(min.x, max.x, min.y, max.y)
  {
    var o := Run(s, Faces(min, max), Fill(b));
    if o.status.Ok? then Plus(Cells(min.x, max.x, min.y, max.y), o) else o
  }

  function Min(a: int, b: int): int { if a <= b then a else b }

  function Max(a: int, b: int): int { if a >= b then a else b }

  /** The top row `removeAbove` clears, and the bottom row `removeBelow` clears. */
  function AboveTop(pos: Point, height: int): int { Min(Ceiling, pos.y + height - 1) }

  function BelowBottom(pos: Point, height: int): int { Max(0, pos.y - height) }

  /** The overlay scans each column from one above the region down to one below it, inside
      the world. */
  function UpperY(max: Point): int { Min(Ceiling, max.y + 1) }

  function LowerY(min: Point): int { Max(0, min.y - 1) }

  // ---------------------------------------------------------------------------------------
  // One step per visited point

  /** The loop body of a region algorithm, run at one visited point. */
  datatype Action =
    | Fill(b: int)                              // setBlocks: write b, count "changed"
    | Replace(from: int, to: int)               // replaceBlocks: from == -1 matches any non-air
    | Clear                                     // removeAbove/removeBelow: clear non-air, count it
    | Overlay(b: int, lowerY: int)              // overlayCuboidBlocks: the point names a column and its top
    | Stack(d: Point, count: int, copyAir: bool) // stackCuboidRegion: d is one tile's shift
  {
    function Rank(): nat { if Stack? then 1 else 0 }
  }

  /** The guard of `replaceBlocks`. */
  predicate Matches(from: int, cur: int) {
    (from == -1 && cur != 0) || cur == from
  }

  /** A column cell the overlay may cover: a non-air block with air above it, below the ceiling. */
  predicate Surface(s: State, x: int, y: int, z: int) {
    y + 1 <= Ceiling && ReadBlock(s, Point(x, y, z)) != 0 && ReadBlock(s, Point(x, y + 1, z)) == 0
  }

  /** The overlay's downward scan of column (x, z) from y to lowerY: the first surface cell. */
  function TopY(s: State, x: int, z: int, y: int, lowerY: int): (r: Option<int>)
    ensures r.Some? ==> lowerY <= r.value <= y && Surface(s, x, r.value, z)
    ensures forall y' :: lowerY <= y' <= y && (r.None? || r.value < y') ==> !Surface(s, x, y', z)
    decreases y - lowerY
  {
    if y < lowerY then None
    else if Surface(s, x, y, z) then Some(y)
    else TopY(s, x, z, y - 1, lowerY)
  }

  /** A tracked write whose "changed" answer is counted. */
  function Put(s: State, p: Point, b: int): Outcome {
    var w := TrackedWrite(s, p, b);
    Outcome(w.s, if w.changed then 1 else 0, w.status)
  }

  function Step(s: State, p: Point, a: Action): (r: Outcome)
    // a step counts each block it changes once; only a stack step writes more than one
    ensures r.affected >= 0
    ensures !a.Stack? ==> r.affected <= 1
    decreases a.Rank(), 0
  {
    match a
    case Fill(b) => Put(s, p, b)
    case Replace(from, to) =>
      if Matches(from, ReadBlock(s, p)) then Put(s, p, to) else Outcome(s, 0, Ok)
    case Clear =>
      if ReadBlock(s, p) != 0 then
        var w := TrackedWrite(s, p, 0);
        Outcome(w.s, 1, w.status)
      else Outcome(s, 0, Ok)
    case Overlay(b, lowerY) =>
      var top := TopY(s, p.x, p.z, p.y, lowerY);
      if top.Some? then Put(s, Point(p.x, top.value + 1, p.z), b) else Outcome(s, 0, Ok)
    case Stack(d, count, copyAir) =>
      var bt := ReadBlock(s, p);
      if bt != 0 || copyAir then Run(s, Copies(p, d, count), Fill(bt)) else Outcome(s, 0, Ok)
  }

  /** The steps at every point of ps in order, adding up `affected`; an exceeded change limit
      ends the run at once, as the exception does. */
  function Run(s: State, ps: seq<Point>, a: Action): (r: Outcome)
    ensures r.affected >= 0
    decreases a.Rank(), |ps|
  {
    if ps == [] then Outcome(s, 0, Ok)
    else
      var o := Run(s, ps[..|ps| - 1], a);
      if !o.status.Ok? then o
      else
        var o' := Step(o.s, ps[|ps| - 1], a);
        Outcome(o'.s, o.affected + o'.affected, o'.status)
  }

  // ---------------------------------------------------------------------------------------
  // What a run may change

  /** s' follows s by tracked writes at points of `area` only: every recorded baseline is kept
      (first write wins), tracking only grows, and each new baseline and each changed latest
      value is at a point of the area. With the queue off, each new baseline is what the world
      held at s, and the world changed only at points that now have a baseline. */
  ghost predicate TrackedWithin(s: State, s': State, area: iset<Point>) {
    && s'.queued == s.queued && s'.maxBlocks == s.maxBlocks
    && (forall q :: q in s.original ==> q in s'.original && s'.original[q] == s.original[q])
    && s.current.Keys <= s'.current.Keys
    && (forall q :: q in s'.original && q !in s.original ==> q in area)
    && (forall q :: q in s'.current && (q !in s.current || s'.current[q] != s.current[q]) ==> q in area)
    && (!s.queued ==> Restorable(s, s'))
  }

  /** With the queue off: each new baseline of s' is the world's block at s, and every point
      without a baseline in s' reads in the world as it did at s. */
  ghost predicate Restorable(s: State, s': State) {
    && (forall q :: q in s'.original && q !in s.original ==> s'.original[q] == RawGet(s.world, q))
    && (forall q :: q !in s'.original ==> RawGet(s'.world, q) == RawGet(s.world, q))
  }

  /** Every new baseline passed the guard `from` (none when `from` is None) and every changed
      latest value is `to`. */
  ghost predicate WroteValues(s: State, s': State, from: Option<int>, to: int) {
    && (forall q :: q in s'.original && q !in s.original ==> from.None? || Matches(from.value, s'.original[q]))
    && (forall q :: q in s'.current && (q !in s.current || s'.current[q] != s.current[q]) ==> s'.current[q] == to)
  }

  /** What the read path sees is unchanged, except at air cells of `area` that now read b. */
  ghost predicate FillsAir(s: State, s': State, area: iset<Point>, b: int) {
    forall q {:trigger ReadBlock(s', q)} :: ReadBlock(s', q) == ReadBlock(s, q) || (q in area && ReadBlock(s, q) == 0 && ReadBlock(s', q) == b)
  }

  /** The points a step at p may write. */
  ghost predicate Reach(a: Action, p: Point, q: Point) {
    match a
    case Overlay(_, lowerY) => q.x == p.x && q.z == p.z && lowerY + 1 <= q.y <= p.y + 1 && q.y <= Ceiling
    case Stack(d, count, _) => q in Copies(p, d, count)
    case _ => q == p
  }

  /** The points a run over ps may write. */
  ghost predicate Reached(a: Action, ps: seq<Point>, q: Point) {
    exists i :: 0 <= i < |ps| && Reach(a, ps[i], q)
  }

  ghost function Reaches(a: Action, ps: seq<Point>): iset<Point> {
    iset q: Point | Reached(a, ps, q)
  }

  /** The guard every new baseline of an action passes, and the value it writes (all but Stack). */
  function Guard(a: Action): Option<int> {
    match a
    case Replace(from, _) => Some(from)
    case Clear => Some(-1)
    case Overlay(_, _) => Some(0)
    case _ => None
  }

  function Target(a: Action): int {
    match a
    case Fill(b) => b
    case Replace(_, to) => to
    case Overlay(b, _) => b
    case _ => 0
  }

  // ---------------------------------------------------------------------------------------
  // Composing the change predicates

  /** A successful or failed tracked write changes tracking at the written point only. */
  lemma TrackedWriteWithin(s: State, p: Point, b: int, area: iset<Point>)
    requires p in area
    ensures TrackedWithin(s, TrackedWrite(s, p, b).s, area)
  {
    TrackedWriteBaseline(s, p, b);
    TrackedWriteMaps(s, p, b);
    TrackedWriteEffect(s, p, b);
    TrackedWriteCap(s, p, b);
  }

  lemma TrackedWithinTrans(s1: State, s2: State, s3: State, a: iset<Point>, b: iset<Point>, c: iset<Point>)
    requires TrackedWithin(s1, s2, a) && TrackedWithin(s2, s3, b)
    requires a <= c && b <= c
    ensures TrackedWithin(s1, s3, c)
  {
    forall q | q in s3.current && (q !in s1.current || s3.current[q] != s1.current[q])
      ensures q in c
    {
      if q in s2.current && s3.current[q] == s2.current[q] {
        assert q in a;
      } else {
        assert q in b;
      }
    }
    if !s1.queued {
      RestorableTrans(s1, s2, s3);
    }
  }

  lemma RestorableTrans(s1: State, s2: State, s3: State)
    requires Restorable(s1, s2) && Restorable(s2, s3)
    requires forall q :: q in s2.original ==> q in s3.original && s3.original[q] == s2.original[q]
    ensures Restorable(s1, s3)
  {
  }

  lemma WroteValuesTrans(s1: State, s2: State, s3: State, a: iset<Point>, b: iset<Point>, from: Option<int>, to: int)
    requires TrackedWithin(s1, s2, a) && TrackedWithin(s2, s3, b)
    requires WroteValues(s1, s2, from, to) && WroteValues(s2, s3, from, to)
    ensures WroteValues(s1, s3, from, to)
  {
    forall q | q in s3.current && (q !in s1.current || s3.current[q] != s1.current[q])
      ensures s3.current[q] == to
    {
      if q in s2.current && s3.current[q] == s2.current[q] {
        assert q !in s1.current || s2.current[q] != s1.current[q];
      }
    }
  }

  lemma FillsAirTrans(s1: State, s2: State, s3: State, a: iset<Point>, b: iset<Point>, c: iset<Point>, v: int)
    requires v != 0
    requires FillsAir(s1, s2, a, v) && FillsAir(s2, s3, b, v)
    requires a <= c && b <= c
    ensures FillsAir(s1, s3, c, v)
  {
  }
}
