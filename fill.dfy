/** The flood fill of the edit session: `fillXZ` spreads over the columns of a disc and
    `fillY` fills each accepted column downwards. */
module Fill {
  import opened Blocks
  import opened Model
  import opened Regions

  function Sq(n: int): int { n * n }

  /** Column (x, z) lies within `radius` of the origin column: the exact integer form of the
      source's `sqrt((ox - x)^2 + (oz - z)^2) <= radius`, which no negative radius satisfies. */
  predicate InDisc(x: int, z: int, origin: Point, radius: int) {
    radius >= 0 && Sq(origin.x - x) + Sq(origin.z - z) <= Sq(radius)
  }

  /** The cells `fillXZ` may fill: columns of the disc, rows from the origin's down `depth` rows. */
  ghost function FillArea(origin: Point, radius: int, depth: int): iset<Point> {
    iset q: Point | InDisc(q.x, q.z, origin, radius) && origin.y - depth + 1 <= q.y <= origin.y
  }

  ghost function Column(x: int, z: int, lo: int, hi: int): iset<Point> {
    iset q: Point | q.x == x && q.z == z && lo <= q.y <= hi
  }

  /** The origin-height cells of the columns of the disc. */
  function DiscCells(origin: Point, radius: int): set<Point> {
    set x, z | origin.x - radius <= x <= origin.x + radius && origin.z - radius <= z <= origin.z + radius
      && InDisc(x, z, origin, radius) :: Point(x, origin.y, z)
  }

  /** The columns of the disc still air at the origin's height: the fill's termination measure. */
  function AirColumns(s: State, origin: Point, radius: int): set<Point> {
    set q | q in DiscCells(origin, radius) && ReadBlock(s, q) == 0
  }

  /** No cell that reads non-air reads air afterwards. */
  ghost predicate Grows(s: State, s': State) {
    forall q {:trigger ReadBlock(s', q)} :: ReadBlock(s, q) != 0 ==> ReadBlock(s', q) != 0
  }

  /** `fillY`: fill column (x, z) downwards from row y while the cells read air, down to minY.
      Every cell it fills is counted. */
  function FillDown(s: State, x: int, y: int, z: int, b: int, minY: int): (r: Outcome)
    ensures r.status == Ok || r.status == MaxChangedBlocks(s.maxBlocks)
    ensures 0 <= r.affected <= Max(0, y - minY + 1)
    ensures r.s.queued == s.queued && r.s.maxBlocks == s.maxBlocks
    decreases y - minY
  {
    if y < minY then Outcome(s, 0, Ok)
    else
      var p := Point(x, y, z);
      if ReadBlock(s, p) != 0 then Outcome(s, 0, Ok)
      else
        var w := TrackedWrite(s, p, b);
        if !w.status.Ok? then Outcome(w.s, 0, w.status)
        else
          var o := FillDown(w.s, x, y - 1, z, b, minY);
          Outcome(o.s, o.affected + 1, o.status)
  }

  /** One cell of `fillY`: an air cell of the area gets b, with air as its baseline. */
  lemma FillCell(s: State, p: Point, b: int, area: iset<Point>)
    requires b != 0 && p in area && ReadBlock(s, p) == 0
    ensures var w := TrackedWrite(s, p, b);
      && (Valid(s) ==> Valid(w.s))
      && TrackedWithin(s, w.s, area)
      && WroteValues(s, w.s, Some(0), b)
      && FillsAir(s, w.s, area, b)
  {
    TrackedWriteBaseline(s, p, b);
    TrackedWriteMaps(s, p, b);
    TrackedWriteEffect(s, p, b);
    TrackedWriteReads(s, p, b);
    TrackedWriteWithin(s, p, b, area);
  }

  /** `fillY` tracks only cells of its column between minY and y, records air as their
      baseline and writes b as their latest value. */
  lemma {:induction false} FillDownTracked(s: State, x: int, y: int, z: int, b: int, minY: int)
    requires b != 0
    ensures var r := FillDown(s, x, y, z, b, minY);
      && (Valid(s) ==> Valid(r.s))
      && TrackedWithin(s, r.s, Column(x, z, minY, y))
      && WroteValues(s, r.s, Some(0), b)
    decreases y - minY
  {
    var col := Column(x, z, minY, y);
    var p := Point(x, y, z);
    if y >= minY && ReadBlock(s, p) == 0 {
      var w := TrackedWrite(s, p, b);
      FillCell(s, p, b, col);
      if w.status.Ok? {
        var o := FillDown(w.s, x, y - 1, z, b, minY);
        var rest := Column(x, z, minY, y - 1);
        FillDownTracked(w.s, x, y - 1, z, b, minY);
        TrackedWithinTrans(s, w.s, o.s, col, rest, col);
        WroteValuesTrans(s, w.s, o.s, col, rest, Some(0), b);
      }
    }
  }

  /** What `fillY` changes, as the read path sees it, is air cells of its column between
      minY and y, which now read b. */
  lemma {:induction false} FillDownFills(s: State, x: int, y: int, z: int, b: int, minY: int)
    requires b != 0
    ensures FillsAir(s, FillDown(s, x, y, z, b, minY).s, Column(x, z, minY, y), b)
    decreases y - minY
  {
    var col := Column(x, z, minY, y);
    var p := Point(x, y, z);
    if y >= minY && ReadBlock(s, p) == 0 {
      var w := TrackedWrite(s, p, b);
      FillCell(s, p, b, col);
      if w.status.Ok? {
        var o := FillDown(w.s, x, y - 1, z, b, minY);
        FillDownFills(w.s, x, y - 1, z, b, minY);
        FillsAirTrans(s, w.s, o.s, col, Column(x, z, minY, y - 1), col, b);
      }
    }
  }

  /** The `n` cells of column (x, z) from row y downwards read b. */
  ghost predicate FilledDown(s: State, x: int, y: int, z: int, n: int, b: int) {
    forall y' :: y - n < y' <= y ==> ReadBlock(s, Point(x, y', z)) == b
  }

  /** A successful `fillY` counted only cells that read air before it began, and stopped at
      minY or at the first cell below them, which read non-air. */
  ghost predicate StopsAt(s: State, x: int, y: int, z: int, minY: int, r: Outcome) {
    r.status.Ok? ==>
      && (forall y' :: y - r.affected < y' <= y ==> ReadBlock(s, Point(x, y', z)) == 0)
      && (y - r.affected >= minY ==> ReadBlock(s, Point(x, y - r.affected, z)) != 0)
  }

  /** `fillY` returns the number of cells it filled: after a successful run the top
      `affected` cells of the column read b, and an air cell at y within range is one of them. */
  lemma {:induction false} FillDownFilled(s: State, x: int, y: int, z: int, b: int, minY: int)
    requires b != 0
    ensures var r := FillDown(s, x, y, z, b, minY);
      r.status.Ok? ==>
        && FilledDown(r.s, x, y, z, r.affected, b)
        && (y >= minY && ReadBlock(s, Point(x, y, z)) == 0 ==> r.affected >= 1)
    decreases y - minY
  {
    var p := Point(x, y, z);
    if y >= minY && ReadBlock(s, p) == 0 {
      var w := TrackedWrite(s, p, b);
      if w.status.Ok? {
        FillDownFilled(w.s, x, y - 1, z, b, minY);
        FilledStep(s, w.s, x, y, z, b, minY, FillDown(w.s, x, y - 1, z, b, minY));
      }
    }
  }

  lemma FilledStep(s: State, ws: State, x: int, y: int, z: int, b: int, minY: int, o: Outcome)
    requires b != 0 && y >= minY && ReadBlock(s, Point(x, y, z)) == 0
    requires TrackedWrite(s, Point(x, y, z), b).status.Ok? && ws == TrackedWrite(s, Point(x, y, z), b).s
    requires o == FillDown(ws, x, y - 1, z, b, minY)
    requires o.status.Ok? ==> FilledDown(o.s, x, y - 1, z, o.affected, b)
    ensures var r := FillDown(s, x, y, z, b, minY);
      r.status.Ok? ==> FilledDown(r.s, x, y, z, r.affected, b) && r.affected >= 1
  {
    if o.status.Ok? {
      FillDownTop(ws, x, y - 1, z, b, minY, Point(x, y, z));
    }
  }

  /** `fillY` fills down through the cells that read air and stops at the first cell that
      does not, or at minY: every counted cell read air before, and the one below them did
      not. */
  lemma {:induction false} FillDownStop(s: State, x: int, y: int, z: int, b: int, minY: int)
    requires b != 0
    ensures StopsAt(s, x, y, z, minY, FillDown(s, x, y, z, b, minY))
    decreases y - minY
  {
    var p := Point(x, y, z);
    if y >= minY && ReadBlock(s, p) == 0 {
      var w := TrackedWrite(s, p, b);
      if w.status.Ok? {
        var o := FillDown(w.s, x, y - 1, z, b, minY);
        FillDownStop(w.s, x, y - 1, z, b, minY);
        FillDownAt(s, x, y, z, b, minY);
        BelowAll(s, p, b);
        StopStep(s, w.s, x, y, z, minY, o, FillDown(s, x, y, z, b, minY));
      }
    }
  }

  lemma StopStep(s: State, ws: State, x: int, y: int, z: int, minY: int, o: Outcome, r: Outcome)
    requires y >= minY && ReadBlock(s, Point(x, y, z)) == 0
    requires forall y' :: y' < y ==> ReadBlock(ws, Point(x, y', z)) == ReadBlock(s, Point(x, y', z))
    requires StopsAt(ws, x, y - 1, z, minY, o) && o.affected >= 0 && r == Plus(1, o)
    ensures StopsAt(s, x, y, z, minY, r)
  {
    if o.status.Ok? {
      var lo := y - 1 - o.affected;
      assert r.affected == o.affected + 1;
      forall y' | lo < y' <= y
        ensures ReadBlock(s, Point(x, y', z)) == 0
      {
        if y' < y {
          assert ReadBlock(ws, Point(x, y', z)) == 0;
        }
      }
      if lo >= minY {
        assert ReadBlock(ws, Point(x, lo, z)) != 0;
      }
    }
  }

  /** `fillY` writes nothing below the cells it counted: the stop cell and every cell under it
      read as before. */
  lemma {:induction false} FillDownBelow(s: State, x: int, y: int, z: int, b: int, minY: int)
    requires b != 0
    ensures var r := FillDown(s, x, y, z, b, minY);
      r.status.Ok? ==> forall y' :: y' <= y - r.affected ==> ReadBlock(r.s, Point(x, y', z)) == ReadBlock(s, Point(x, y', z))
    decreases y - minY
  {
    var p := Point(x, y, z);
    if y >= minY && ReadBlock(s, p) == 0 {
      var w := TrackedWrite(s, p, b);
      if w.status.Ok? {
        FillDownBelow(w.s, x, y - 1, z, b, minY);
        BelowAll(s, p, b);
      }
    }
  }

  /** The count of a successful `fillY` is exactly the cells of its column it changed: a cell
      of the column reads differently afterwards if and only if it is one of the `affected`
      cells from y down, each of which read air and now reads b. */
  lemma FillDownExact(s: State, x: int, y: int, z: int, b: int, minY: int)
    requires b != 0
    ensures var r := FillDown(s, x, y, z, b, minY);
      r.status.Ok? ==> forall y' ::
        (ReadBlock(r.s, Point(x, y', z)) != ReadBlock(s, Point(x, y', z)) <==> y - r.affected < y' <= y)
  {
    var r := FillDown(s, x, y, z, b, minY);
    FillDownStop(s, x, y, z, b, minY);
    FillDownFilled(s, x, y, z, b, minY);
    FillDownBelow(s, x, y, z, b, minY);
    if r.status.Ok? {
      forall y' | y' > y
        ensures ReadBlock(r.s, Point(x, y', z)) == ReadBlock(s, Point(x, y', z))
      {
        FillDownTop(s, x, y, z, b, minY, Point(x, y', z));
      }
    }
  }

  /** A tracked write at p leaves the reads of the cells below it alone. */
  lemma BelowAll(s: State, p: Point, b: int)
    ensures forall y' :: y' < p.y ==>
      ReadBlock(TrackedWrite(s, p, b).s, Point(p.x, y', p.z)) == ReadBlock(s, Point(p.x, y', p.z))
  {
    forall y' | y' < p.y
      ensures ReadBlock(TrackedWrite(s, p, b).s, Point(p.x, y', p.z)) == ReadBlock(s, Point(p.x, y', p.z))
    {
      BelowUnchanged(s, p, b, Point(p.x, y', p.z));
    }
  }

  /** A cell above the column `fillY` works on is left as it reads. */
  lemma FillDownTop(s: State, x: int, y: int, z: int, b: int, minY: int, p: Point)
    requires b != 0 && p.x == x && p.z == z && p.y > y
    ensures ReadBlock(FillDown(s, x, y, z, b, minY).s, p) == ReadBlock(s, p)
  {
    FillDownFills(s, x, y, z, b, minY);
  }

  /** A tracked write at p leaves the read of a lower cell of the same column alone. */
  lemma BelowUnchanged(s: State, p: Point, b: int, q: Point)
    requires q.x == p.x && q.z == p.z && q.y < p.y
    ensures ReadBlock(TrackedWrite(s, p, b).s, q) == ReadBlock(s, q)
  {
    TrackedWriteReadsAt(s, p, b, q);
  }

  /** A square is at most the radius's square only within the radius. */
  lemma SqBound(d: int, r: int)
    requires r >= 0 && Sq(d) <= Sq(r)
    ensures -r <= d <= r
  {
  }

  /** Every column of the disc has its origin-height cell among the disc's cells. */
  lemma InDiscCells(x: int, z: int, origin: Point, radius: int)
    requires InDisc(x, z, origin, radius)
    ensures Point(x, origin.y, z) in DiscCells(origin, radius)
  {
    assert Sq(origin.z - z) >= 0 && Sq(origin.x - x) >= 0;
    SqBound(origin.x - x, radius);
    SqBound(origin.z - z, radius);
  }

  lemma AirShrinks(s: State, s': State, origin: Point, radius: int)
    requires Grows(s, s')
    ensures AirColumns(s', origin, radius) <= AirColumns(s, origin, radius)
  {
  }

  /** A fill of air cells with a non-air block only makes cells non-air, and stays inside
      any area that holds the filled one. */
  lemma FillsAirGrows(s: State, s': State, a: iset<Point>, c: iset<Point>, b: int)
    requires b != 0 && FillsAir(s, s', a, b) && a <= c
    ensures Grows(s, s') && FillsAir(s, s', c, b)
  {
  }

  /** The column `fillXZ` hands to `fillY` lies in the fill area. */
  lemma ColumnInArea(x: int, z: int, origin: Point, radius: int, depth: int)
    requires InDisc(x, z, origin, radius)
    ensures Column(x, z, origin.y - depth + 1, origin.y) <= FillArea(origin, radius, depth)
  {
  }

  lemma SubsetCard<T>(a: set<T>, b: set<T>)
    requires a <= b
    ensures |a| <= |b|
    decreases a
  {
    if a != {} {
      var y :| y in a;
      SubsetCard(a - {y}, b - {y});
    }
  }

  /** Filling the origin-height cell of an air column of the disc shrinks the measure. */
  lemma TopLeavesAir(s: State, s': State, x: int, z: int, origin: Point, radius: int, n: int, b: int)
    requires b != 0 && n >= 1 && InDisc(x, z, origin, radius)
    requires ReadBlock(s, Point(x, origin.y, z)) == 0 && Grows(s, s')
    requires FilledDown(s', x, origin.y, z, n, b)
    ensures |AirColumns(s', origin, radius)| < |AirColumns(s, origin, radius)|
  {
    var top := Point(x, origin.y, z);
    var before, after := AirColumns(s, origin, radius), AirColumns(s', origin, radius);
    InDiscCells(x, z, origin, radius);
    AirShrinks(s, s', origin, radius);
    assert top in before;
    assert ReadBlock(s', top) == b;
    SubsetCard(after, before - {top});
  }

  /** Filling an air column of the disc with b only makes cells non-air and takes that
      column out of the measure. */
  lemma FirstColumn(s: State, x: int, z: int, origin: Point, b: int, radius: int, depth: int)
    requires b != 0 && depth >= 1
    requires InDisc(x, z, origin, radius) && ReadBlock(s, Point(x, origin.y, z)) == 0
    ensures var o := FillDown(s, x, origin.y, z, b, origin.y - depth + 1);
      && Grows(s, o.s)
      && (o.status.Ok? ==> |AirColumns(o.s, origin, radius)| < |AirColumns(s, origin, radius)|)
  {
    var minY := origin.y - depth + 1;
    FillDownFills(s, x, origin.y, z, b, minY);
    FillDownFilled(s, x, origin.y, z, b, minY);
    ColumnShrinks(s, FillDown(s, x, origin.y, z, b, minY), x, z, origin, b, radius, minY);
  }

  lemma ColumnShrinks(s: State, o: Outcome, x: int, z: int, origin: Point, b: int, radius: int, minY: int)
    requires b != 0 && minY <= origin.y
    requires InDisc(x, z, origin, radius) && ReadBlock(s, Point(x, origin.y, z)) == 0
    requires FillsAir(s, o.s, Column(x, z, minY, origin.y), b)
    requires o.status.Ok? ==> FilledDown(o.s, x, origin.y, z, o.affected, b) && o.affected >= 1
    ensures Grows(s, o.s)
    ensures o.status.Ok? ==> |AirColumns(o.s, origin, radius)| < |AirColumns(s, origin, radius)|
  {
    FillsAirGrows(s, o.s, Column(x, z, minY, origin.y), Column(x, z, minY, origin.y), b);
    if o.status.Ok? {
      TopLeavesAir(s, o.s, x, z, origin, radius, o.affected, b);
    }
  }

  /** Growing twice is growing, and a measure already below m stays below it. */
  lemma GrowsTrans(s1: State, s2: State, s3: State)
    requires Grows(s1, s2) && Grows(s2, s3)
    ensures Grows(s1, s3)
  {
  }

  /** Growing keeps the measure below any bound it was already below. */
  lemma AirBelow(s: State, s': State, origin: Point, radius: int, m: int)
    requires Grows(s, s') && |AirColumns(s, origin, radius)| < m
    ensures |AirColumns(s', origin, radius)| < m
  {
    AirShrinks(s, s', origin, radius);
    SubsetCard(AirColumns(s', origin, radius), AirColumns(s, origin, radius));
  }

  /** The k-th neighbour `fillXZ` spreads to: x + 1, x - 1, z + 1, z - 1, in that order. */
  function Neighbour(x: int, z: int, k: int): (int, int) {
    if k == 0 then (x + 1, z) else if k == 1 then (x - 1, z) else if k == 2 then (x, z + 1) else (x, z - 1)
  }

  /** `fillXZ`: from column (x, z), if it lies in the disc and is air at the origin's height,
      fill it downwards and spread to the four horizontal neighbours. There is no visited set:
      a filled column reads non-air, so it is not entered again. */
  function FillXZ(s: State, x: int, z: int, origin: Point, b: int, radius: int, depth: int): (r: Outcome)
    requires b != 0 && depth >= 1
    ensures r.status == Ok || r.status == MaxChangedBlocks(s.maxBlocks)
    ensures r.s.queued == s.queued && r.s.maxBlocks == s.maxBlocks
    ensures Grows(s, r.s)
    decreases |AirColumns(s, origin, radius)|, 6
  {
    if !InDisc(x, z, origin, radius) then Outcome(s, 0, Ok)
    else if ReadBlock(s, Point(x, origin.y, z)) != 0 then Outcome(s, 0, Ok)
    else
      var o0 := FillDown(s, x, origin.y, z, b, origin.y - depth + 1);
      FirstColumn(s, x, z, origin, b, radius, depth);
      var r := AfterColumn(o0, x, z, origin, b, radius, depth, |AirColumns(s, origin, radius)|);
      GrowsTrans(s, o0.s, r.s);
      r
  }

  /** What `fillXZ` does once its first column ended as o0: stop on an exceeded limit,
      otherwise spread to the neighbours and add what they fill. m bounds the measure. */
  function AfterColumn(o0: Outcome, x: int, z: int, origin: Point, b: int, radius: int, depth: int, m: int): (r: Outcome)
    requires b != 0 && depth >= 1
    requires o0.status == Ok || o0.status == MaxChangedBlocks(o0.s.maxBlocks)
    requires o0.status.Ok? ==> |AirColumns(o0.s, origin, radius)| < m
    ensures r.status == Ok || r.status == MaxChangedBlocks(o0.s.maxBlocks)
    ensures r.s.queued == o0.s.queued && r.s.maxBlocks == o0.s.maxBlocks
    ensures Grows(o0.s, r.s)
    decreases m, 5
  {
    if !o0.status.Ok? then o0
    else
      var o := Spread(o0.s, x, z, origin, b, radius, depth, 0, m);
      Outcome(o.s, o0.affected + o.affected, o.status)
  }

  /** The recursive calls of `fillXZ` on neighbours k .. 3 of (x, z), one after the other,
      adding up what they fill; an exceeded change limit ends the spread. The bound m is the
      measure of the column that started the spread. */
  function Spread(s: State, x: int, z: int, origin: Point, b: int, radius: int, depth: int, k: nat, m: int): (r: Outcome)
    requires b != 0 && depth >= 1 && k <= 4 && |AirColumns(s, origin, radius)| < m
    ensures r.status == Ok || r.status == MaxChangedBlocks(s.maxBlocks)
    ensures r.s.queued == s.queued && r.s.maxBlocks == s.maxBlocks
    ensures Grows(s, r.s)
    decreases m, 4 - k
  {
    if k == 4 then Outcome(s, 0, Ok)
    else
      var (nx, nz) := Neighbour(x, z, k);
      var o := FillXZ(s, nx, nz, origin, b, radius, depth);
      AirBelow(s, o.s, origin, radius, m);
      if !o.status.Ok? then o
      else
        var o' := Spread(o.s, x, z, origin, b, radius, depth, k + 1, m);
        GrowsTrans(s, o.s, o'.s);
        Outcome(o'.s, o.affected + o'.affected, o'.status)
  }

  /** What a fill may do to a state: keep the session invariant, track only cells of the
      area with air as their baseline and b as their latest value, and turn only air cells of
      the area into b. */
  ghost predicate FillEffect(s: State, s': State, area: iset<Point>, b: int) {
    && (Valid(s) ==> Valid(s'))
    && TrackedWithin(s, s', area)
    && WroteValues(s, s', Some(0), b)
    && FillsAir(s, s', area, b)
  }

  lemma FillEffectTrans(s1: State, s2: State, s3: State, area: iset<Point>, b: int)
    requires b != 0 && FillEffect(s1, s2, area, b) && FillEffect(s2, s3, area, b)
    ensures FillEffect(s1, s3, area, b)
  {
    TrackedWithinTrans(s1, s2, s3, area, area, area);
    WroteValuesTrans(s1, s2, s3, area, area, Some(0), b);
    FillsAirTrans(s1, s2, s3, area, area, area, b);
  }

  lemma FillEffectRefl(s: State, area: iset<Point>, b: int)
    ensures FillEffect(s, s, area, b)
  {
  }

  lemma FillEffectWiden(s: State, s': State, a: iset<Point>, c: iset<Point>, b: int)
    requires FillEffect(s, s', a, b) && a <= c
    ensures FillEffect(s, s', c, b)
  {
  }

  /** `fillY` on a column has the effect of a fill on that column. */
  lemma FillDownEffect(s: State, x: int, y: int, z: int, b: int, minY: int)
    requires b != 0
    ensures FillEffect(s, FillDown(s, x, y, z, b, minY).s, Column(x, z, minY, y), b)
  {
    FillDownTracked(s, x, y, z, b, minY);
    FillDownFills(s, x, y, z, b, minY);
  }

  lemma ColumnToArea(s: State, s': State, x: int, z: int, origin: Point, b: int, radius: int, depth: int)
    requires InDisc(x, z, origin, radius)
    requires FillEffect(s, s', Column(x, z, origin.y - depth + 1, origin.y), b)
    ensures FillEffect(s, s', FillArea(origin, radius, depth), b)
  {
    ColumnInArea(x, z, origin, radius, depth);
    FillEffectWiden(s, s', Column(x, z, origin.y - depth + 1, origin.y), FillArea(origin, radius, depth), b);
  }

  /** `fillXZ` fills only air cells of the disc's columns from the origin's row down `depth`
      rows, gives each of them b, records air as their baseline and keeps the session
      invariant. */
  lemma {:induction false} FillXZEffect(s: State, x: int, z: int, origin: Point, b: int, radius: int, depth: int)
    requires b != 0 && depth >= 1
    ensures FillEffect(s, FillXZ(s, x, z, origin, b, radius, depth).s, FillArea(origin, radius, depth), b)
    decreases |AirColumns(s, origin, radius)|, 7
  {
    if !InDisc(x, z, origin, radius) || ReadBlock(s, Point(x, origin.y, z)) != 0 {
      FillEffectRefl(s, FillArea(origin, radius, depth), b);
    } else {
      var o0 := FillDown(s, x, origin.y, z, b, origin.y - depth + 1);
      var m := |AirColumns(s, origin, radius)|;
      assert FillEffect(s, AfterColumn(o0, x, z, origin, b, radius, depth, m).s, FillArea(origin, radius, depth), b) by {
        FirstColumnEffect(s, x, z, origin, b, radius, depth);
        AfterColumnEffect(s, o0, x, z, origin, b, radius, depth, m);
      }
      assert FillXZ(s, x, z, origin, b, radius, depth) == AfterColumn(o0, x, z, origin, b, radius, depth, m);
    }
  }

  lemma FirstColumnEffect(s: State, x: int, z: int, origin: Point, b: int, radius: int, depth: int)
    requires b != 0 && depth >= 1
    requires InDisc(x, z, origin, radius) && ReadBlock(s, Point(x, origin.y, z)) == 0
    ensures var o := FillDown(s, x, origin.y, z, b, origin.y - depth + 1);
      && FillEffect(s, o.s, FillArea(origin, radius, depth), b)
      && (o.status.Ok? ==> |AirColumns(o.s, origin, radius)| < |AirColumns(s, origin, radius)|)
  {
    var o := FillDown(s, x, origin.y, z, b, origin.y - depth + 1);
    FirstColumn(s, x, z, origin, b, radius, depth);
    FillDownEffect(s, x, origin.y, z, b, origin.y - depth + 1);
    ColumnToArea(s, o.s, x, z, origin, b, radius, depth);
  }

  lemma {:induction false} AfterColumnEffect(s: State, o0: Outcome, x: int, z: int, origin: Point, b: int, radius: int, depth: int, m: int)
    requires b != 0 && depth >= 1
    requires o0.status == Ok || o0.status == MaxChangedBlocks(o0.s.maxBlocks)
    requires o0.status.Ok? ==> |AirColumns(o0.s, origin, radius)| < m
    requires FillEffect(s, o0.s, FillArea(origin, radius, depth), b)
    ensures FillEffect(s, AfterColumn(o0, x, z, origin, b, radius, depth, m).s, FillArea(origin, radius, depth), b)
    decreases m, 6
  {
    if o0.status.Ok? {
      SpreadEffect(o0.s, x, z, origin, b, radius, depth, 0, m);
      FillEffectTrans(s, o0.s, Spread(o0.s, x, z, origin, b, radius, depth, 0, m).s, FillArea(origin, radius, depth), b);
    }
  }

  lemma {:induction false} SpreadEffect(s: State, x: int, z: int, origin: Point, b: int, radius: int, depth: int, k: nat, m: int)
    requires b != 0 && depth >= 1 && k <= 4 && |AirColumns(s, origin, radius)| < m
    ensures FillEffect(s, Spread(s, x, z, origin, b, radius, depth, k, m).s, FillArea(origin, radius, depth), b)
    decreases m, 4 - k
  {
    if k < 4 {
      var (nx, nz) := Neighbour(x, z, k);
      var o := FillXZ(s, nx, nz, origin, b, radius, depth);
      AirBelow(s, o.s, origin, radius, m);
      FillXZEffect(s, nx, nz, origin, b, radius, depth);
      if o.status.Ok? {
        SpreadEffect(o.s, x, z, origin, b, radius, depth, k + 1, m);
        FillEffectTrans(s, o.s, Spread(o.s, x, z, origin, b, radius, depth, k + 1, m).s, FillArea(origin, radius, depth), b);
      }
    }
  }

  // ---------------------------------------------------------------------------------------
  // One level of each definition, for the loops and calls that follow them

  lemma FillDownAt(s: State, x: int, y: int, z: int, b: int, minY: int)
    requires y >= minY
    ensures var p := Point(x, y, z);
      var w := TrackedWrite(s, p, b);
      FillDown(s, x, y, z, b, minY) ==
        if ReadBlock(s, p) != 0 then Outcome(s, 0, Ok)
        else if !w.status.Ok? then Outcome(w.s, 0, w.status)
        else Plus(1, FillDown(w.s, x, y - 1, z, b, minY))
  {
  }

  lemma FillXZAt(s: State, x: int, z: int, origin: Point, b: int, radius: int, depth: int)
    requires b != 0 && depth >= 1
    requires InDisc(x, z, origin, radius) && ReadBlock(s, Point(x, origin.y, z)) == 0
    ensures var o0 := FillDown(s, x, origin.y, z, b, origin.y - depth + 1);
      && (o0.status.Ok? ==> |AirColumns(o0.s, origin, radius)| < |AirColumns(s, origin, radius)|)
      && FillXZ(s, x, z, origin, b, radius, depth) ==
        if !o0.status.Ok? then o0
        else Plus(o0.affected, Spread(o0.s, x, z, origin, b, radius, depth, 0, |AirColumns(s, origin, radius)|))
  {
    FirstColumn(s, x, z, origin, b, radius, depth);
  }

  lemma SpreadAt(s: State, x: int, z: int, origin: Point, b: int, radius: int, depth: int, k: nat, m: int)
    requires b != 0 && depth >= 1 && k < 4 && |AirColumns(s, origin, radius)| < m
    ensures var (nx, nz) := Neighbour(x, z, k);
      var o := FillXZ(s, nx, nz, origin, b, radius, depth);
      && |AirColumns(o.s, origin, radius)| < m
      && Spread(s, x, z, origin, b, radius, depth, k, m) ==
        if !o.status.Ok? then o else Plus(o.affected, Spread(o.s, x, z, origin, b, radius, depth, k + 1, m))
  {
    var (nx, nz) := Neighbour(x, z, k);
    AirBelow(s, FillXZ(s, nx, nz, origin, b, radius, depth).s, origin, radius, m);
  }
}
