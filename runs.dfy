/** Facts about the loop orders and about `Run`: where a run may stop, what it may change,
    and which values it writes. */
module Runs {
  import opened Blocks
  import opened Model
  import opened Regions

  // ---------------------------------------------------------------------------------------
  // Prefixes of the loop orders

  /** The points visited up to and including c form a prefix of the whole innermost loop. */
  lemma {:induction false} LinePrefix(o: Order, a: int, b: int, lo: int, hi: int, down: bool, c: int)
    requires lo <= c <= hi
    ensures Visited(o, a, b, lo, hi, down, c) + [At(o, a, b, c)] <= Line(o, a, b, lo, hi, down)
    decreases hi - lo
  {
    if down {
      if c > lo {
        LinePrefix(o, a, b, lo + 1, hi, down, c);
      }
    } else {
      if c < hi {
        LinePrefix(o, a, b, lo, hi - 1, down, c);
      }
    }
  }

  /** A prefix of the b-th innermost loop, after the earlier ones, is a prefix of the plane. */
  lemma {:induction false} PlanePrefix(o: Order, a: int, b0: int, b: int, b1: int, lo: int, hi: int, down: bool, q: seq<Point>)
    requires b0 <= b <= b1 && q <= Line(o, a, b, lo, hi, down)
    ensures Plane(o, a, b0, b - 1, lo, hi, down) + q <= Plane(o, a, b0, b1, lo, hi, down)
    decreases b1 - b
  {
    if b < b1 {
      PlanePrefix(o, a, b0, b, b1 - 1, lo, hi, down, q);
    }
  }

  /** A prefix of the a-th plane, after the earlier ones, is a prefix of the box. */
  lemma {:induction false} BoxPrefix(o: Order, a0: int, a: int, a1: int, b0: int, b1: int, lo: int, hi: int, down: bool, q: seq<Point>)
    requires a0 <= a <= a1 && q <= Plane(o, a, b0, b1, lo, hi, down)
    ensures Box(o, a0, a - 1, b0, b1, lo, hi, down) + q <= Box(o, a0, a1, b0, b1, lo, hi, down)
    decreases a1 - a
  {
    if a < a1 {
      BoxPrefix(o, a0, a, a1 - 1, b0, b1, lo, hi, down, q);
    }
  }

  /** A prefix of the b-th pair of faces, after the earlier pairs, is a prefix of the rungs. */
  lemma {:induction false} RungsPrefix(o: Order, a: int, b0: int, b: int, b1: int, c0: int, c1: int, q: seq<Point>)
    requires b0 <= b <= b1 && q <= [At(o, a, b, c0), At(o, a, b, c1)]
    ensures Rungs(o, a, b0, b - 1, c0, c1) + q <= Rungs(o, a, b0, b1, c0, c1)
    decreases b1 - b
  {
    if b < b1 {
      RungsPrefix(o, a, b0, b, b1 - 1, c0, c1, q);
    }
  }

  lemma {:induction false} LadderPrefix(o: Order, a0: int, a: int, a1: int, b0: int, b1: int, c0: int, c1: int, q: seq<Point>)
    requires a0 <= a <= a1 && q <= Rungs(o, a, b0, b1, c0, c1)
    ensures Ladder(o, a0, a - 1, b0, b1, c0, c1) + q <= Ladder(o, a0, a1, b0, b1, c0, c1)
    decreases a1 - a
  {
    if a < a1 {
      LadderPrefix(o, a0, a, a1 - 1, b0, b1, c0, c1, q);
    }
  }

  /** The first i copies are a prefix of all of them. */
  lemma {:induction false} CopiesPrefix(p: Point, d: Point, i: int, count: int)
    requires 0 <= i <= count
    ensures Copies(p, d, i) <= Copies(p, d, count)
    decreases count
  {
    if i < count {
      CopiesPrefix(p, d, i, count - 1);
    }
  }

  // ---------------------------------------------------------------------------------------
  // Where a run stops

  /** An exceeded change limit ends the run: a longer run over the same first points ends
      in the same state, with the same count and status. */
  lemma {:induction false} RunStops(s: State, ps: seq<Point>, qs: seq<Point>, a: Action)
    requires ps <= qs && !Run(s, ps, a).status.Ok?
    ensures Run(s, qs, a) == Run(s, ps, a)
    decreases |qs|
  {
    if |qs| > |ps| {
      assert ps <= qs[..|qs| - 1];
      RunStops(s, ps, qs[..|qs| - 1], a);
    } else {
      assert ps == qs;
    }
  }

  /** One more point after a successful run: its step, counted on top. */
  lemma RunSnocOk(s: State, ps: seq<Point>, p: Point, a: Action)
    requires Run(s, ps, a).status.Ok?
    ensures Run(s, ps + [p], a) == Plus(Run(s, ps, a).affected, Step(Run(s, ps, a).s, p, a))
  {
    RunSnoc(s, ps, p, a);
  }

  /** A failed copy ends `stackCuboidRegion`'s loop for this point: the later copies add nothing. */
  lemma CopiesStop(s: State, p: Point, d: Point, i: int, count: int, a: Action)
    requires 1 <= i <= count && !Run(s, Copies(p, d, i), a).status.Ok?
    ensures Run(s, Copies(p, d, count), a) == Run(s, Copies(p, d, i), a)
  {
    CopiesPrefix(p, d, i, count);
    RunStops(s, Copies(p, d, i), Copies(p, d, count), a);
  }

  /** The loop of `stackCuboidRegion` ends after copy `max(count, 0)`: a count below one
      makes no copies. */
  lemma CopiesDone(p: Point, d: Point, n: int, count: int)
    requires n == (if count >= 0 then count else 0)
    ensures Copies(p, d, n) == Copies(p, d, count)
  {
  }

  /** The i-th copy of p is p plus i times d, coordinate by coordinate. */
  lemma {:induction false} CopyAtScaled(p: Point, d: Point, i: int)
    requires i >= 0
    ensures CopyAt(p, d, i) == Point(p.x + d.x * i, p.y + d.y * i, p.z + d.z * i)
    decreases i
  {
    if i > 0 {
      CopyAtScaled(p, d, i - 1);
      assert d.x * i == d.x * (i - 1) + d.x && d.y * i == d.y * (i - 1) + d.y && d.z * i == d.z * (i - 1) + d.z;
    }
  }

  /** `stackCuboidRegion` places exactly max(count, 0) copies of a point, the i-th of them
      shifted by i times d. */
  lemma {:induction false} CopiesAt(p: Point, d: Point, count: int)
    ensures |Copies(p, d, count)| == Max(count, 0)
    ensures forall i :: 1 <= i <= count ==>
      Copies(p, d, count)[i - 1] == Point(p.x + d.x * i, p.y + d.y * i, p.z + d.z * i)
    decreases count
  {
    if count > 0 {
      CopiesAt(p, d, count - 1);
      CopyAtScaled(p, d, count);
    }
  }

  /** The step of `stackCuboidRegion` at p copies p's block unless it is air and air is not
      copied. */
  lemma StackAt(s: State, p: Point, d: Point, count: int, copyAir: bool)
    ensures var bt := ReadBlock(s, p);
      Step(s, p, Stack(d, count, copyAir)) ==
        if bt != 0 || copyAir then Run(s, Copies(p, d, count), Fill(bt)) else Outcome(s, 0, Ok)
  {
  }

  /** One more point: the run so far, then the step at that point. */
  lemma RunSnoc(s: State, ps: seq<Point>, p: Point, a: Action)
    ensures var o := Run(s, ps, a);
      Run(s, ps + [p], a) ==
        if !o.status.Ok? then o
        else var o' := Step(o.s, p, a); Outcome(o'.s, o.affected + o'.affected, o'.status)
  {
    assert (ps + [p])[..|ps|] == ps;
  }

  /** A run over ps then qs is the run over ps followed, unless it failed, by the run over qs
      from where it ended. */
  lemma {:induction false} RunConcat(s: State, ps: seq<Point>, qs: seq<Point>, a: Action)
    ensures var o := Run(s, ps, a);
      Run(s, ps + qs, a) ==
        if !o.status.Ok? then o
        else var o' := Run(o.s, qs, a); Outcome(o'.s, o.affected + o'.affected, o'.status)
    decreases |qs|
  {
    if qs == [] {
      assert ps + qs == ps;
    } else {
      var init, q := qs[..|qs| - 1], qs[|qs| - 1];
      RunConcat(s, ps, init, a);
      assert ps + qs == (ps + init) + [q];
      RunSnoc(s, ps + init, q, a);
      RunSnoc(Run(s, ps, a).s, init, q, a);
      assert init + [q] == qs;
    }
  }

  // ---------------------------------------------------------------------------------------
  // What a run may change

  /** The points one step at p may write. */
  ghost function ReachSet(a: Action, p: Point): iset<Point> {
    iset q: Point | Reach(a, p, q)
  }

  /** s' follows s by tracked writes inside `area`, and the session invariant is kept. */
  ghost predicate Tracks(s: State, s': State, area: iset<Point>) {
    (Valid(s) ==> Valid(s')) && TrackedWithin(s, s', area)
  }

  lemma TracksRefl(s: State, area: iset<Point>)
    ensures Tracks(s, s, area)
  {
  }

  lemma TracksTrans(s1: State, s2: State, s3: State, a: iset<Point>, b: iset<Point>, c: iset<Point>)
    requires Tracks(s1, s2, a) && Tracks(s2, s3, b) && a <= c && b <= c
    ensures Tracks(s1, s3, c)
  {
    TrackedWithinTrans(s1, s2, s3, a, b, c);
  }

  /** One tracked write at a point of the area. */
  lemma PutTracks(s: State, p: Point, b: int, area: iset<Point>)
    requires p in area
    ensures Tracks(s, TrackedWrite(s, p, b).s, area)
  {
    TrackedWriteBaseline(s, p, b);
    TrackedWriteWithin(s, p, b, area);
  }

  /** The points reached by all but the last point, and by the last point, are reached by all. */
  lemma ReachesGrow(a: Action, ps: seq<Point>)
    requires ps != []
    ensures Reaches(a, ps[..|ps| - 1]) <= Reaches(a, ps)
    ensures ReachSet(a, ps[|ps| - 1]) <= Reaches(a, ps)
  {
    forall q | q in Reaches(a, ps[..|ps| - 1])
      ensures q in Reaches(a, ps)
    {
      var i :| 0 <= i < |ps| - 1 && Reach(a, ps[..|ps| - 1][i], q);
      assert Reach(a, ps[i], q);
    }
    forall q | q in ReachSet(a, ps[|ps| - 1])
      ensures q in Reaches(a, ps)
    {
      assert Reach(a, ps[|ps| - 1], q);
    }
  }

  /** A step writes only the points it may reach and keeps the session invariant. */
  lemma {:induction false} StepTracks(s: State, p: Point, a: Action)
    ensures Tracks(s, Step(s, p, a).s, ReachSet(a, p))
    decreases a.Rank(), 0
  {
    match a
    case Fill(b) => PutStepTracks(s, p, a);
    case Replace(_, _) => PutStepTracks(s, p, a);
    case Clear => PutStepTracks(s, p, a);
    case Overlay(b, lowerY) => OverlayStepTracks(s, p, b, lowerY);
    case Stack(d, count, copyAir) =>
      var bt := ReadBlock(s, p);
      RunTracks(s, Copies(p, d, count), Fill(bt));
      StackStepTracks(s, p, a, Run(s, Copies(p, d, count), Fill(bt)));
  }

  lemma PutStepTracks(s: State, p: Point, a: Action)
    requires a.Fill? || a.Replace? || a.Clear?
    ensures Tracks(s, Step(s, p, a).s, ReachSet(a, p))
  {
    var area := ReachSet(a, p);
    assert p in area;
    PutTracks(s, p, if a.Fill? then a.b else if a.Replace? then a.to else 0, area);
    TracksRefl(s, area);
  }

  lemma OverlayStepTracks(s: State, p: Point, b: int, lowerY: int)
    ensures Tracks(s, Step(s, p, Overlay(b, lowerY)).s, ReachSet(Overlay(b, lowerY), p))
  {
    var top := TopY(s, p.x, p.z, p.y, lowerY);
    if top.Some? {
      var y := top.value;
      assert lowerY <= y <= p.y && y + 1 <= Ceiling;
      assert Step(s, p, Overlay(b, lowerY)).s == TrackedWrite(s, Point(p.x, y + 1, p.z), b).s;
      OverlayPutTracks(s, p, b, lowerY, y);
    } else {
      TracksRefl(s, ReachSet(Overlay(b, lowerY), p));
    }
  }

  lemma OverlayPutTracks(s: State, p: Point, b: int, lowerY: int, y: int)
    requires lowerY <= y <= p.y && y + 1 <= Ceiling
    ensures Tracks(s, TrackedWrite(s, Point(p.x, y + 1, p.z), b).s, ReachSet(Overlay(b, lowerY), p))
  {
    assert Reach(Overlay(b, lowerY), p, Point(p.x, y + 1, p.z));
    PutTracks(s, Point(p.x, y + 1, p.z), b, ReachSet(Overlay(b, lowerY), p));
  }

  lemma StackStepTracks(s: State, p: Point, a: Action, o: Outcome)
    requires a.Stack? && o == Run(s, Copies(p, a.d, a.count), Fill(ReadBlock(s, p)))
    requires Tracks(s, o.s, Reaches(Fill(ReadBlock(s, p)), Copies(p, a.d, a.count)))
    ensures Tracks(s, Step(s, p, a).s, ReachSet(a, p))
  {
    TracksRefl(s, ReachSet(a, p));
    CopiesReached(p, a.d, a.count, ReadBlock(s, p), a);
  }

  lemma CopiesReached(p: Point, d: Point, count: int, bt: int, a: Action)
    requires a.Stack? && a.d == d && a.count == count
    ensures Reaches(Fill(bt), Copies(p, d, count)) <= ReachSet(a, p)
  {
    forall q | q in Reaches(Fill(bt), Copies(p, d, count))
      ensures q in ReachSet(a, p)
    {
      var i :| 0 <= i < |Copies(p, d, count)| && Reach(Fill(bt), Copies(p, d, count)[i], q);
    }
  }

  /** A run writes only the points its steps may reach and keeps the session invariant. */
  lemma {:induction false} RunTracks(s: State, ps: seq<Point>, a: Action)
    ensures Tracks(s, Run(s, ps, a).s, Reaches(a, ps))
    decreases a.Rank(), |ps|
  {
    if ps == [] {
      TracksRefl(s, Reaches(a, ps));
    } else {
      var init := ps[..|ps| - 1];
      var o := Run(s, init, a);
      RunTracks(s, init, a);
      ReachesGrow(a, ps);
      if o.status.Ok? {
        StepTracks(o.s, ps[|ps| - 1], a);
        TracksTrans(s, o.s, Step(o.s, ps[|ps| - 1], a).s, Reaches(a, init), ReachSet(a, ps[|ps| - 1]), Reaches(a, ps));
      } else {
        TracksTrans(s, o.s, o.s, Reaches(a, init), Reaches(a, init), Reaches(a, ps));
      }
    }
  }

  // ---------------------------------------------------------------------------------------
  // Which values a run writes

  /** A tracked write whose point passed the guard records a baseline that passes it and
      writes v. */
  lemma PutWrote(s: State, p: Point, v: int, from: Option<int>)
    requires from.None? || Matches(from.value, ReadBlock(s, p))
    ensures WroteValues(s, TrackedWrite(s, p, v).s, from, v)
  {
    TrackedWriteBaseline(s, p, v);
    TrackedWriteMaps(s, p, v);
  }

  lemma WroteRefl(s: State, from: Option<int>, v: int)
    ensures WroteValues(s, s, from, v)
  {
  }

  lemma OverlayStepWrote(s: State, p: Point, b: int, lowerY: int)
    ensures WroteValues(s, Step(s, p, Overlay(b, lowerY)).s, Some(0), b)
  {
    var top := TopY(s, p.x, p.z, p.y, lowerY);
    if top.Some? {
      var y := top.value;
      assert Surface(s, p.x, y, p.z);
      assert Step(s, p, Overlay(b, lowerY)).s == TrackedWrite(s, Point(p.x, y + 1, p.z), b).s;
      OverlayPutWrote(s, p.x, y, p.z, b);
    } else {
      WroteRefl(s, Some(0), b);
    }
  }

  /** The overlay covers the air cell above a surface cell. */
  lemma OverlayPutWrote(s: State, x: int, y: int, z: int, b: int)
    requires Surface(s, x, y, z)
    ensures WroteValues(s, TrackedWrite(s, Point(x, y + 1, z), b).s, Some(0), b)
  {
    PutWrote(s, Point(x, y + 1, z), b, Some(0));
  }

  /** Each step of setBlocks, replaceBlocks, removeAbove/removeBelow and overlayCuboidBlocks
      records only baselines that passed its guard and writes only its target value. */
  lemma StepWrote(s: State, p: Point, a: Action)
    requires !a.Stack?
    ensures WroteValues(s, Step(s, p, a).s, Guard(a), Target(a))
  {
    match a
    case Fill(b) => PutWrote(s, p, b, None);
    case Replace(from, to) =>
      WroteRefl(s, Some(from), to);
      if Matches(from, ReadBlock(s, p)) {
        PutWrote(s, p, to, Some(from));
      }
    case Clear =>
      WroteRefl(s, Some(-1), 0);
      if ReadBlock(s, p) != 0 {
        PutWrote(s, p, 0, Some(-1));
      }
    case Overlay(b, lowerY) => OverlayStepWrote(s, p, b, lowerY);
  }

  /** A run of one of those steps records only baselines that passed the guard and writes only
      the target value: setBlocks writes b, replaceBlocks replaces only matching blocks by
      `to`, the removals clear only non-air blocks, the overlay covers only air. */
  lemma {:induction false} RunWrote(s: State, ps: seq<Point>, a: Action)
    requires !a.Stack?
    ensures WroteValues(s, Run(s, ps, a).s, Guard(a), Target(a))
    decreases |ps|
  {
    if ps == [] {
      WroteRefl(s, Guard(a), Target(a));
    } else {
      var init, p := ps[..|ps| - 1], ps[|ps| - 1];
      var o := Run(s, init, a);
      RunWrote(s, init, a);
      if o.status.Ok? {
        StepWrote(o.s, p, a);
        RunTracks(s, init, a);
        StepTracks(o.s, p, a);
        WroteValuesTrans(s, o.s, Step(o.s, p, a).s, Reaches(a, init), ReachSet(a, p), Guard(a), Target(a));
      }
    }
  }

  // ---------------------------------------------------------------------------------------
  // Which blocks a run replaces, as the read path sees them

  /** Every point that reads differently in s' than in s read a block that passed the guard
      `from` in s, and now reads `to`. */
  ghost predicate GuardedChanges(s: State, s': State, from: int, to: int) {
    forall q :: ReadBlock(s', q) != ReadBlock(s, q) ==> Matches(from, ReadBlock(s, q)) && ReadBlock(s', q) == to
  }

  lemma GuardedTrans(s1: State, s2: State, s3: State, from: int, to: int)
    requires GuardedChanges(s1, s2, from, to) && GuardedChanges(s2, s3, from, to)
    ensures GuardedChanges(s1, s3, from, to)
  {
    forall q | ReadBlock(s3, q) != ReadBlock(s1, q)
      ensures Matches(from, ReadBlock(s1, q)) && ReadBlock(s3, q) == to
    {
      if ReadBlock(s2, q) == ReadBlock(s1, q) {
        assert ReadBlock(s3, q) != ReadBlock(s2, q);
      }
    }
  }

  /** With the queue off, a tracked write changes what the read path sees at the written
      point only, where it now reads the written block. */
  lemma PlainWriteReads(s: State, p: Point, v: int)
    requires !s.queued
    ensures var w := TrackedWrite(s, p, v);
      forall q :: ReadBlock(w.s, q) != ReadBlock(s, q) ==> q == p && ReadBlock(w.s, q) == v
  {
    TrackedWriteReads(s, p, v);
    TrackedWriteEffect(s, p, v);
    TrackedWriteCap(s, p, v);
  }

  /** A run of single-block steps leaves the queue switch as it was. */
  lemma {:induction false} RunKeepsQueued(s: State, ps: seq<Point>, a: Action)
    requires !a.Stack?
    ensures Run(s, ps, a).s.queued == s.queued
    decreases |ps|
  {
    if ps != [] {
      RunKeepsQueued(s, ps[..|ps| - 1], a);
    }
  }

  /** With the queue off, one step of replaceBlocks or of a removal changes only a point that
      passed its guard, to its target. */
  lemma StepGuarded(s: State, p: Point, a: Action)
    requires !s.queued && (a.Replace? || a.Clear?)
    ensures GuardedChanges(s, Step(s, p, a).s, Guard(a).value, Target(a))
    ensures forall q :: ReadBlock(Step(s, p, a).s, q) != ReadBlock(s, q) ==> q == p
  {
    if Matches(Guard(a).value, ReadBlock(s, p)) {
      PlainWriteReads(s, p, Target(a));
    }
  }

  /** With the queue off, replaceBlocks changes only blocks that matched `from` when it began
      (any non-air block for -1), and each of them now reads `to`; a removal changes only
      non-air blocks, and each of them now reads air. This holds for points tracked before the
      run as well as for new ones, and every changed point is one the run visited. */
  lemma {:induction false} RunGuarded(s: State, ps: seq<Point>, a: Action)
    requires !s.queued && (a.Replace? || a.Clear?)
    ensures GuardedChanges(s, Run(s, ps, a).s, Guard(a).value, Target(a))
    ensures forall q :: ReadBlock(Run(s, ps, a).s, q) != ReadBlock(s, q) ==> q in ps
    decreases |ps|
  {
    if ps != [] {
      var init := ps[..|ps| - 1];
      var o := Run(s, init, a);
      RunGuarded(s, init, a);
      assert ps == init + [ps[|ps| - 1]];
      if o.status.Ok? {
        RunKeepsQueued(s, init, a);
        StepGuarded(o.s, ps[|ps| - 1], a);
        GuardedTrans(s, o.s, Step(o.s, ps[|ps| - 1], a).s, Guard(a).value, Target(a));
      }
    }
  }

  // ---------------------------------------------------------------------------------------
  // Which cells the overlay covers

  /** The overlay covered q: the cell below q was a surface cell at or above lowerY (non-air,
      with air above it, below the ceiling), so q read air, and q now reads b. */
  ghost predicate Covered(s: State, s': State, q: Point, b: int, lowerY: int) {
    && lowerY <= q.y - 1
    && Surface(s, q.x, q.y - 1, q.z)
    && ReadBlock(s, q) == 0
    && ReadBlock(s', q) == b
  }

  /** s' differs from s, as the read path sees it, in at most one cell of each (x, z) column. */
  ghost predicate OnePerColumn(s: State, s': State) {
    forall q, q' :: ReadBlock(s', q) != ReadBlock(s, q) && ReadBlock(s', q') != ReadBlock(s, q') && q.x == q'.x && q.z == q'.z ==> q == q'
  }

  /** No two points of ps lie in the same (x, z) column. */
  ghost predicate ColumnsOnce(ps: seq<Point>) {
    forall i, j :: 0 <= i < j < |ps| ==> ps[i].x != ps[j].x || ps[i].z != ps[j].z
  }

  /** With the queue off, one overlay step in a column that still reads as in s changes at
      most one cell, in its own column, and covers it. */
  lemma OverlayStepCovers(s: State, t: State, p: Point, b: int, lowerY: int)
    requires !t.queued
    requires forall y :: ReadBlock(t, Point(p.x, y, p.z)) == ReadBlock(s, Point(p.x, y, p.z))
    ensures var u := Step(t, p, Overlay(b, lowerY)).s;
      && (forall q :: ReadBlock(u, q) != ReadBlock(t, q) ==>
            q.x == p.x && q.z == p.z && Covered(s, u, q, b, lowerY))
      && (forall q, q' :: ReadBlock(u, q) != ReadBlock(t, q) && ReadBlock(u, q') != ReadBlock(t, q') ==> q == q')
  {
    var top := TopY(t, p.x, p.z, p.y, lowerY);
    if top.Some? {
      var y := top.value;
      assert Surface(t, p.x, y, p.z);
      assert ReadBlock(t, Point(p.x, y, p.z)) == ReadBlock(s, Point(p.x, y, p.z));
      assert ReadBlock(t, Point(p.x, y + 1, p.z)) == ReadBlock(s, Point(p.x, y + 1, p.z));
      assert Step(t, p, Overlay(b, lowerY)).s == TrackedWrite(t, Point(p.x, y + 1, p.z), b).s;
      OverlayWriteCovers(s, t, Point(p.x, y + 1, p.z), b, lowerY);
    } else {
      assert Step(t, p, Overlay(b, lowerY)).s == t;
    }
  }

  /** The overlay's write of b at w, above a surface cell of s, changes only w and covers it. */
  lemma OverlayWriteCovers(s: State, t: State, w: Point, b: int, lowerY: int)
    requires !t.queued && lowerY <= w.y - 1 && Surface(s, w.x, w.y - 1, w.z) && ReadBlock(t, w) == ReadBlock(s, w)
    ensures var u := TrackedWrite(t, w, b).s;
      forall q :: ReadBlock(u, q) != ReadBlock(t, q) ==> q == w && Covered(s, u, q, b, lowerY)
  {
    PlainWriteReads(t, w, b);
    assert Point(w.x, w.y - 1 + 1, w.z) == w;
  }

  /** With the queue off and each column visited once, the overlay run leaves the columns it
      has not visited alone, covers every cell it changes, and changes at most one cell per
      column. */
  lemma {:induction false} OverlayRun(s: State, ps: seq<Point>, b: int, lowerY: int)
    requires !s.queued && ColumnsOnce(ps)
    ensures var r := Run(s, ps, Overlay(b, lowerY));
      && (forall q: Point :: (forall p :: p in ps ==> p.x != q.x || p.z != q.z) ==> ReadBlock(r.s, q) == ReadBlock(s, q))
      && (forall q :: ReadBlock(r.s, q) != ReadBlock(s, q) ==> Covered(s, r.s, q, b, lowerY))
      && OnePerColumn(s, r.s)
    decreases |ps|
  {
    if ps != [] {
      var a := Overlay(b, lowerY);
      var init, p := ps[..|ps| - 1], ps[|ps| - 1];
      var o := Run(s, init, a);
      LastColumnNew(ps);
      OverlayRun(s, init, b, lowerY);
      if o.status.Ok? {
        RunKeepsQueued(s, init, a);
        forall y
          ensures ReadBlock(o.s, Point(p.x, y, p.z)) == ReadBlock(s, Point(p.x, y, p.z))
        {
        }
        OverlayStepCovers(s, o.s, p, b, lowerY);
        OverlayRunStep(s, o.s, Step(o.s, p, a).s, init, p, b, lowerY);
        assert ps == init + [p];
      }
    }
  }

  lemma OverlayRunStep(s: State, t: State, u: State, init: seq<Point>, p: Point, b: int, lowerY: int)
    requires forall p' :: p' in init ==> p'.x != p.x || p'.z != p.z
    requires forall q: Point :: (forall p' :: p' in init ==> p'.x != q.x || p'.z != q.z) ==> ReadBlock(t, q) == ReadBlock(s, q)
    requires forall q :: ReadBlock(t, q) != ReadBlock(s, q) ==> Covered(s, t, q, b, lowerY)
    requires OnePerColumn(s, t)
    requires forall q :: ReadBlock(u, q) != ReadBlock(t, q) ==> q.x == p.x && q.z == p.z && Covered(s, u, q, b, lowerY)
    requires forall q, q' :: ReadBlock(u, q) != ReadBlock(t, q) && ReadBlock(u, q') != ReadBlock(t, q') ==> q == q'
    ensures forall q: Point :: (forall p' :: p' in init + [p] ==> p'.x != q.x || p'.z != q.z) ==> ReadBlock(u, q) == ReadBlock(s, q)
    ensures forall q :: ReadBlock(u, q) != ReadBlock(s, q) ==> Covered(s, u, q, b, lowerY)
    ensures OnePerColumn(s, u)
  {
    forall q: Point | (forall p' :: p' in init + [p] ==> p'.x != q.x || p'.z != q.z)
      ensures ReadBlock(u, q) == ReadBlock(s, q)
    {
      assert p in init + [p];
      forall p' | p' in init
        ensures p'.x != q.x || p'.z != q.z
      {
        assert p' in init + [p];
      }
    }
  }

  /** With the queue off, `overlayCuboidBlocks` covers only air cells directly above a surface
      cell of its columns, no lower than the row below the region and no higher than the
      ceiling, and it covers at most one cell per (x, z) column. */
  lemma OverlayCovers(s: State, min: Point, max: Point, b: int)
    requires !s.queued
    ensures var r := Run(s, OverlayArea(min, max), Overlay(b, LowerY(min)));
      && (forall q :: ReadBlock(r.s, q) != ReadBlock(s, q) ==>
            min.x <= q.x <= max.x && min.z <= q.z <= max.z && Covered(s, r.s, q, b, LowerY(min)))
      && OnePerColumn(s, r.s)
  {
    var ps := OverlayArea(min, max);
    var r := Run(s, ps, Overlay(b, LowerY(min)));
    BoxColumnsOnce(min.x, max.x, min.z, max.z, UpperY(max));
    OverlayRun(s, ps, b, LowerY(min));
    forall q | ReadBlock(r.s, q) != ReadBlock(s, q)
      ensures min.x <= q.x <= max.x && min.z <= q.z <= max.z
    {
      var p :| p in ps && p.x == q.x && p.z == q.z;
      ColumnsMembers(min.x, max.x, min.z, max.z, UpperY(max), UpperY(max), false, p);
    }
  }

  /** Points of two lists lie in different columns, and neither list repeats a column: their
      concatenation repeats none. */
  lemma ColumnsOnceConcat(xs: seq<Point>, ys: seq<Point>)
    requires ColumnsOnce(xs) && ColumnsOnce(ys)
    requires forall p, q :: p in xs && q in ys ==> p.x != q.x || p.z != q.z
    ensures ColumnsOnce(xs + ys)
  {
    var zs := xs + ys;
    forall i, j | 0 <= i < j < |zs|
      ensures zs[i].x != zs[j].x || zs[i].z != zs[j].z
    {
      if j < |xs| {
        assert zs[i] == xs[i] && zs[j] == xs[j];
      } else if i >= |xs| {
        assert zs[i] == ys[i - |xs|] && zs[j] == ys[j - |xs|];
      } else {
        assert zs[i] in xs && zs[j] in ys;
      }
    }
  }

  /** Without its last point, ps still visits each column once, and the last point's column is
      one it has not visited. */
  lemma LastColumnNew(ps: seq<Point>)
    requires ps != [] && ColumnsOnce(ps)
    ensures ColumnsOnce(ps[..|ps| - 1])
    ensures forall p :: p in ps[..|ps| - 1] ==> p.x != ps[|ps| - 1].x || p.z != ps[|ps| - 1].z
  {
    var init := ps[..|ps| - 1];
    forall i, j | 0 <= i < j < |init|
      ensures init[i].x != init[j].x || init[i].z != init[j].z
    {
      assert init[i] == ps[i] && init[j] == ps[j];
    }
    forall p | p in init
      ensures p.x != ps[|ps| - 1].x || p.z != ps[|ps| - 1].z
    {
      var i :| 0 <= i < |init| && init[i] == p;
      assert ps[i] == p;
    }
  }

  /** A z loop at one row, inside an x loop, visits each column once. */
  lemma {:induction false} PlaneColumnsOnce(x: int, z0: int, z1: int, y: int)
    ensures ColumnsOnce(Plane(XZY, x, z0, z1, y, y, false))
    decreases z1 - z0
  {
    if z1 >= z0 {
      PlaneColumnsOnce(x, z0, z1 - 1, y);
      var line := Line(XZY, x, z1, y, y, false);
      assert Line(XZY, x, z1, y, y - 1, false) == [];
      assert line == [Point(x, y, z1)];
      forall p, q | p in Plane(XZY, x, z0, z1 - 1, y, y, false) && q in line
        ensures p.x != q.x || p.z != q.z
      {
        PlaneMembers(XZY, x, z0, z1 - 1, y, y, false, p);
      }
      ColumnsOnceConcat(Plane(XZY, x, z0, z1 - 1, y, y, false), line);
    }
  }

  /** The overlay's x and z loops at one row visit each column once. */
  lemma {:induction false} BoxColumnsOnce(x0: int, x1: int, z0: int, z1: int, y: int)
    ensures ColumnsOnce(Box(XZY, x0, x1, z0, z1, y, y, false))
    decreases x1 - x0
  {
    if x1 >= x0 {
      BoxColumnsOnce(x0, x1 - 1, z0, z1, y);
      PlaneColumnsOnce(x1, z0, z1, y);
      forall p, q | p in Box(XZY, x0, x1 - 1, z0, z1, y, y, false) && q in Plane(XZY, x1, z0, z1, y, y, false)
        ensures p.x != q.x || p.z != q.z
      {
        BoxMembers(XZY, x0, x1 - 1, z0, z1, y, y, false, p);
        PlaneMembers(XZY, x1, z0, z1, y, y, false, q);
      }
      ColumnsOnceConcat(Box(XZY, x0, x1 - 1, z0, z1, y, y, false), Plane(XZY, x1, z0, z1, y, y, false));
    }
  }

  // ---------------------------------------------------------------------------------------
  // What the visited points read afterwards

  /** What a visited point reads once a pointwise step has passed over it: setBlocks leaves
      b, a removal leaves air, replaceBlocks leaves `to` or a block that does not match. */
  predicate Settled(a: Action, v: int) {
    match a
    case Fill(b) => v == b
    case Replace(from, to) => v == to || !Matches(from, v)
    case Clear => v == 0
    case _ => true
  }

  /** A successful write of v at p settles p, and keeps every settled point settled: the only
      other point it can change is the one above, and only to air by a cascading clear. */
  lemma WriteSettles(s: State, p: Point, v: int, a: Action, ps: seq<Point>)
    requires Settled(a, v)
    requires forall q :: q in ps ==> Settled(a, ReadBlock(s, q))
    ensures var w := TrackedWrite(s, p, v);
      w.status.Ok? ==> forall q :: q in ps + [p] ==> Settled(a, ReadBlock(w.s, q))
  {
    var w := TrackedWrite(s, p, v);
    TrackedWriteEffect(s, p, v);
    TrackedWriteReads(s, p, v);
    if w.status.Ok? {
      forall q | q in ps + [p]
        ensures Settled(a, ReadBlock(w.s, q))
      {
        if q != p && q != Above(p) {
          assert q in ps;
        } else if q == Above(p) && q != p {
          assert q in ps;
        }
      }
    }
  }

  lemma {:induction false} StepSettles(s: State, p: Point, a: Action, ps: seq<Point>)
    requires a.Fill? || a.Replace? || a.Clear?
    requires forall q :: q in ps ==> Settled(a, ReadBlock(s, q))
    ensures var o := Step(s, p, a);
      o.status.Ok? ==> forall q :: q in ps + [p] ==> Settled(a, ReadBlock(o.s, q))
  {
    match a
    case Fill(b) => WriteSettles(s, p, b, a, ps);
    case Replace(from, to) =>
      if Matches(from, ReadBlock(s, p)) {
        WriteSettles(s, p, to, a, ps);
      }
    case Clear =>
      if ReadBlock(s, p) != 0 {
        WriteSettles(s, p, 0, a, ps);
      }
  }

  /** After a successful run of setBlocks, replaceBlocks or a removal, every visited point
      reads as the operation left it, however the points overlap: setBlocks leaves b
      everywhere, a removal leaves air, and replaceBlocks leaves no matching block behind that
      it did not write itself. */
  lemma {:induction false} RunSettles(s: State, ps: seq<Point>, a: Action)
    requires a.Fill? || a.Replace? || a.Clear?
    ensures var o := Run(s, ps, a);
      o.status.Ok? ==> forall q :: q in ps ==> Settled(a, ReadBlock(o.s, q))
    decreases |ps|
  {
    if ps != [] {
      var init, p := ps[..|ps| - 1], ps[|ps| - 1];
      RunSettles(s, init, a);
      var o := Run(s, init, a);
      if o.status.Ok? {
        StepSettles(o.s, p, a, init);
        assert ps == init + [p];
      }
    }
  }

  /** Such a run counts at most one block per visited point. */
  lemma {:induction false} RunCount(s: State, ps: seq<Point>, a: Action)
    requires !a.Stack?
    ensures 0 <= Run(s, ps, a).affected <= |ps|
    decreases |ps|
  {
    if ps != [] {
      var init := ps[..|ps| - 1];
      RunCount(s, init, a);
    }
  }

  /** `makeCuboidFaces` counts one block for every (x, y) pair of its first face loop,
      whatever its writes did, on top of the writes that changed something: a successful
      call reports at least that many blocks, and at most that many more than it visits. */
  lemma FacesCount(s: State, min: Point, max: Point, b: int)
    ensures var f := FacesRun(s, min, max, b);
      var n := Cells(min.x, max.x, min.y, max.y);
      f.status.Ok? ==> n <= f.affected <= n + |Faces(min, max)|
  {
    RunCount(s, Faces(min, max), Fill(b));
  }

  /** The extra count shows: air written over a single air block changes nothing, yet
      `makeCuboidFaces` reports one block. */
  lemma FacesCountsUnchanged()
    ensures var s := State(map[], map[], map[], map[], -1, false);
      var p := Point(0, 0, 0);
      var f := FacesRun(s, p, p, 0);
      && f.status.Ok? && f.affected == 1
      && RawGet(f.s.world, p) == RawGet(s.world, p)
  {
    var s := State(map[], map[], map[], map[], -1, false);
    var p := Point(0, 0, 0);
    var t := State(map[p := 0], map[p := 0], map[p := 0], map[], -1, false);
    assert Faces(p, p) == [p, p, p, p, p, p];
    assert Step(s, p, Fill(0)) == Outcome(t, 0, Ok);
    assert Step(t, p, Fill(0)) == Outcome(t, 0, Ok);
    RunStill(s, t, Faces(p, p), Fill(0));
  }

  /** A run whose every step leads to the same state t without counting anything, and stays
      there, ends in t with nothing counted. */
  lemma {:induction false} RunStill(s: State, t: State, ps: seq<Point>, a: Action)
    requires ps != []
    requires forall q :: q in ps ==> Step(s, q, a) == Outcome(t, 0, Ok) && Step(t, q, a) == Outcome(t, 0, Ok)
    ensures Run(s, ps, a) == Outcome(t, 0, Ok)
    decreases |ps|
  {
    var init := ps[..|ps| - 1];
    assert ps[|ps| - 1] in ps;
    if init != [] {
      forall q | q in init
        ensures q in ps
      {
        var i :| 0 <= i < |init| && init[i] == q;
        assert ps[i] == q;
      }
      RunStill(s, t, init, a);
    }
  }

  // ---------------------------------------------------------------------------------------
  // The points a loop visits

  lemma CoordsAt(o: Order, a: int, b: int, c: int)
    ensures Coords(o, At(o, a, b, c)) == (a, b, c)
  {
  }

  /** The innermost loop visits exactly the points whose loop coordinates are (a, b, c) with c
      in range. */
  lemma {:induction false} LineMembers(o: Order, a: int, b: int, lo: int, hi: int, down: bool, q: Point)
    ensures q in Line(o, a, b, lo, hi, down) <==>
      Coords(o, q).0 == a && Coords(o, q).1 == b && lo <= Coords(o, q).2 <= hi
    decreases hi - lo
  {
    if hi >= lo {
      CoordsAt(o, a, b, lo);
      CoordsAt(o, a, b, hi);
      if down {
        LineMembers(o, a, b, lo + 1, hi, down, q);
      } else {
        LineMembers(o, a, b, lo, hi - 1, down, q);
      }
    }
  }

  lemma {:induction false} PlaneMembers(o: Order, a: int, b0: int, b1: int, lo: int, hi: int, down: bool, q: Point)
    ensures q in Plane(o, a, b0, b1, lo, hi, down) <==>
      Coords(o, q).0 == a && b0 <= Coords(o, q).1 <= b1 && lo <= Coords(o, q).2 <= hi
    decreases b1 - b0
  {
    if b1 >= b0 {
      PlaneMembers(o, a, b0, b1 - 1, lo, hi, down, q);
      LineMembers(o, a, b1, lo, hi, down, q);
    }
  }

  /** The triple loop visits exactly the points whose loop coordinates lie in the ranges. */
  lemma {:induction false} BoxMembers(o: Order, a0: int, a1: int, b0: int, b1: int, lo: int, hi: int, down: bool, q: Point)
    ensures q in Box(o, a0, a1, b0, b1, lo, hi, down) <==>
      a0 <= Coords(o, q).0 <= a1 && b0 <= Coords(o, q).1 <= b1 && lo <= Coords(o, q).2 <= hi
    decreases a1 - a0
  {
    if a1 >= a0 {
      BoxMembers(o, a0, a1 - 1, b0, b1, lo, hi, down, q);
      PlaneMembers(o, a1, b0, b1, lo, hi, down, q);
    }
  }

  /** The loops of `removeAbove`, `removeBelow`, `overlayCuboidBlocks` and
      `stackCuboidRegion`, over x, then z, then the rows (upwards, or downwards for
      `removeBelow`), visit exactly the cells in the three ranges. */
  lemma ColumnsMembers(x0: int, x1: int, z0: int, z1: int, lo: int, hi: int, down: bool, q: Point)
    ensures q in Box(XZY, x0, x1, z0, z1, lo, hi, down) <==> x0 <= q.x <= x1 && z0 <= q.z <= z1 && lo <= q.y <= hi
  {
    BoxMembers(XZY, x0, x1, z0, z1, lo, hi, down, q);
  }

  /** The cuboid loops of `setBlocks` and `replaceBlocks` visit exactly the cells between the
      region's corners. */
  lemma CuboidMembers(min: Point, max: Point, q: Point)
    ensures q in Points(Cuboid(min, max)) <==>
      min.x <= q.x <= max.x && min.y <= q.y <= max.y && min.z <= q.z <= max.z
  {
    BoxMembers(XYZ, min.x, max.x, min.y, max.y, min.z, max.z, false, q);
  }

  /** One face loop visits, for each (a, b) in range, the two points at c0 and c1. */
  lemma {:induction false} RungsMembers(o: Order, a: int, b0: int, b1: int, c0: int, c1: int, q: Point)
    ensures q in Rungs(o, a, b0, b1, c0, c1) <==>
      Coords(o, q).0 == a && b0 <= Coords(o, q).1 <= b1 && (Coords(o, q).2 == c0 || Coords(o, q).2 == c1)
    decreases b1 - b0
  {
    if b1 >= b0 {
      RungsMembers(o, a, b0, b1 - 1, c0, c1, q);
      CoordsAt(o, a, b1, c0);
      CoordsAt(o, a, b1, c1);
    }
  }

  lemma {:induction false} LadderMembers(o: Order, a0: int, a1: int, b0: int, b1: int, c0: int, c1: int, q: Point)
    ensures q in Ladder(o, a0, a1, b0, b1, c0, c1) <==>
      a0 <= Coords(o, q).0 <= a1 && b0 <= Coords(o, q).1 <= b1 && (Coords(o, q).2 == c0 || Coords(o, q).2 == c1)
    decreases a1 - a0
  {
    if a1 >= a0 {
      LadderMembers(o, a0, a1 - 1, b0, b1, c0, c1, q);
      RungsMembers(o, a1, b0, b1, c0, c1, q);
    }
  }

  /** The three face loops of `makeCuboidFaces` visit exactly the six faces of the box: the two
      z faces over the x and y ranges, the two x faces over the y and z ranges, and the two y
      faces over the z and x ranges. For a box whose corners are in order, that is every cell
      of the box on its boundary. */
  lemma FacesMembers(min: Point, max: Point, q: Point)
    ensures q in Faces(min, max) <==>
      || (min.x <= q.x <= max.x && min.y <= q.y <= max.y && (q.z == min.z || q.z == max.z))
      || (min.y <= q.y <= max.y && min.z <= q.z <= max.z && (q.x == min.x || q.x == max.x))
      || (min.z <= q.z <= max.z && min.x <= q.x <= max.x && (q.y == min.y || q.y == max.y))
    ensures min.x <= max.x && min.y <= max.y && min.z <= max.z ==>
      (q in Faces(min, max) <==>
        && min.x <= q.x <= max.x && min.y <= q.y <= max.y && min.z <= q.z <= max.z
        && (q.x in {min.x, max.x} || q.y in {min.y, max.y} || q.z in {min.z, max.z}))
  {
    LadderMembers(XYZ, min.x, max.x, min.y, max.y, min.z, max.z, q);
    LadderMembers(YZX, min.y, max.y, min.z, max.z, min.x, max.x, q);
    LadderMembers(ZXY, min.z, max.z, min.x, max.x, min.y, max.y, q);
  }

  // ---------------------------------------------------------------------------------------
  // What stacking writes

  /** q is one of the copies 1 .. count of p. */
  lemma {:induction false} CopiesMembers(p: Point, d: Point, count: int, q: Point)
    ensures q in Copies(p, d, count) <==> exists k :: 1 <= k <= count && q == CopyAt(p, d, k)
    decreases count
  {
    if count > 0 {
      CopiesMembers(p, d, count - 1, q);
      assert Copies(p, d, count) == Copies(p, d, count - 1) + [CopyAt(p, d, count)];
      if q == CopyAt(p, d, count) {
        assert q in Copies(p, d, count) && 1 <= count <= count && q == CopyAt(p, d, count);
      } else if k :| 1 <= k <= count && q == CopyAt(p, d, k) {
        assert k < count;
      }
    }
  }

  /** With the queue off, a successful run of writes of v puts v at every point of qs and
      changes nothing else in the world. */
  lemma {:induction false} FillWorld(s: State, qs: seq<Point>, v: int)
    requires !s.queued
    ensures var r := Run(s, qs, Fill(v));
      r.status.Ok? ==> forall q :: RawGet(r.s.world, q) == if q in qs then v else RawGet(s.world, q)
    decreases |qs|
  {
    if qs != [] {
      var init, p := qs[..|qs| - 1], qs[|qs| - 1];
      FillWorld(s, init, v);
      var o := Run(s, init, Fill(v));
      if o.status.Ok? {
        RunTracks(s, init, Fill(v));
        TrackedWriteEffect(o.s, p, v);
        assert qs == init + [p];
      }
    }
  }

  /** What the copies of p hold after `stackCuboidRegion`: the block p held at the start,
      unless that is air and air is not copied, in which case the copy is left alone. */
  function StackValue(s: State, p: Point, q: Point, copyAir: bool): int {
    if RawGet(s.world, p) != 0 || copyAir then RawGet(s.world, p) else RawGet(s.world, q)
  }

  /** No copy of a point of ps is a point of ps, and two points share a copy only when they
      are the same point: no copy is read or written by another point's step. */
  ghost predicate Apart(ps: seq<Point>, d: Point, count: int) {
    && (forall i, j, q :: 0 <= i < |ps| && 0 <= j < |ps| && q in Copies(ps[i], d, count) ==> q != ps[j])
    && (forall i, j, q :: 0 <= i < |ps| && 0 <= j < |ps| && q in Copies(ps[i], d, count) && q in Copies(ps[j], d, count) ==>
          ps[i] == ps[j])
  }

  /** With the queue off, one step of `stackCuboidRegion` at p writes p's block to each of its
      copies, unless that block is air and air is not copied, and changes nothing else. */
  lemma StackStepWorld(s: State, p: Point, d: Point, count: int, copyAir: bool)
    requires !s.queued
    ensures var o := Step(s, p, Stack(d, count, copyAir));
      var v := RawGet(s.world, p);
      o.status.Ok? ==> forall q :: RawGet(o.s.world, q) ==
                                  (if (v != 0 || copyAir) && q in Copies(p, d, count) then v else RawGet(s.world, q))
  {
    FillWorld(s, Copies(p, d, count), RawGet(s.world, p));
  }

  /** With the queue off and the points apart, a successful run of `stackCuboidRegion` over the
      first n points gives each copy of each of them the value `StackValue` and leaves every
      other point of the world as it was. */
  lemma {:induction false} StackRun(s: State, ps: seq<Point>, n: int, d: Point, count: int, copyAir: bool)
    requires !s.queued && 0 <= n <= |ps| && Apart(ps, d, count)
    ensures var r := Run(s, ps[..n], Stack(d, count, copyAir));
      r.status.Ok? ==>
        && (forall i, q :: 0 <= i < n && q in Copies(ps[i], d, count) ==>
              RawGet(r.s.world, q) == StackValue(s, ps[i], q, copyAir))
        && (forall q :: (forall i :: 0 <= i < n ==> q !in Copies(ps[i], d, count)) ==>
              RawGet(r.s.world, q) == RawGet(s.world, q))
    decreases n
  {
    var a := Stack(d, count, copyAir);
    if n > 0 {
      StackRun(s, ps, n - 1, d, count, copyAir);
      assert ps[..n][..n - 1] == ps[..n - 1];
      var o := Run(s, ps[..n - 1], a);
      if o.status.Ok? {
        RunTracks(s, ps[..n - 1], a);
        StackRunStep(s, ps, n, d, count, copyAir, o);
      }
    }
  }

  lemma StackRunStep(s: State, ps: seq<Point>, n: int, d: Point, count: int, copyAir: bool, o: Outcome)
    requires !s.queued && 0 < n <= |ps| && Apart(ps, d, count)
    requires o == Run(s, ps[..n - 1], Stack(d, count, copyAir)) && o.status.Ok? && !o.s.queued
    requires forall i, q :: 0 <= i < n - 1 && q in Copies(ps[i], d, count) ==>
      RawGet(o.s.world, q) == StackValue(s, ps[i], q, copyAir)
    requires forall q :: (forall i :: 0 <= i < n - 1 ==> q !in Copies(ps[i], d, count)) ==>
      RawGet(o.s.world, q) == RawGet(s.world, q)
    ensures var r := Run(s, ps[..n], Stack(d, count, copyAir));
      r.status.Ok? ==>
        && (forall i, q :: 0 <= i < n && q in Copies(ps[i], d, count) ==>
              RawGet(r.s.world, q) == StackValue(s, ps[i], q, copyAir))
        && (forall q :: (forall i :: 0 <= i < n ==> q !in Copies(ps[i], d, count)) ==>
              RawGet(r.s.world, q) == RawGet(s.world, q))
  {
    var a := Stack(d, count, copyAir);
    var p := ps[n - 1];
    assert ps[..n] == ps[..n - 1] + [p];
    RunSnoc(s, ps[..n - 1], p, a);
    var r := Run(s, ps[..n], a);
    assert r.s == Step(o.s, p, a).s && r.status == Step(o.s, p, a).status;
    // p is no copy of an earlier point, so its step reads the block it held at the start
    assert RawGet(o.s.world, p) == RawGet(s.world, p) by {
      forall i | 0 <= i < n - 1
        ensures p !in Copies(ps[i], d, count)
      {
        assert ps[n - 1] == p;
      }
    }
    StackStepWorld(o.s, p, d, count, copyAir);
    if r.status.Ok? {
      forall i, q | 0 <= i < n && q in Copies(ps[i], d, count)
        ensures RawGet(r.s.world, q) == StackValue(s, ps[i], q, copyAir)
      {
        if q in Copies(p, d, count) {
          assert ps[i] == p;
          if !(RawGet(s.world, p) != 0 || copyAir) {
            EarlierCopy(s, ps, n, d, count, copyAir, o, q);
          }
        }
      }
      forall q | forall i :: 0 <= i < n ==> q !in Copies(ps[i], d, count)
        ensures RawGet(r.s.world, q) == RawGet(s.world, q)
      {
        assert q !in Copies(ps[n - 1], d, count);
      }
    }
  }

  /** A copy of the newest point that air does not overwrite reads as at the start: it is a copy
      of no earlier point other than the same point, whose air left it alone too. */
  lemma EarlierCopy(s: State, ps: seq<Point>, n: int, d: Point, count: int, copyAir: bool, o: Outcome, q: Point)
    requires 0 < n <= |ps| && Apart(ps, d, count)
    requires q in Copies(ps[n - 1], d, count) && RawGet(s.world, ps[n - 1]) == 0 && !copyAir
    requires forall i, q :: 0 <= i < n - 1 && q in Copies(ps[i], d, count) ==>
      RawGet(o.s.world, q) == StackValue(s, ps[i], q, copyAir)
    requires forall q :: (forall i :: 0 <= i < n - 1 ==> q !in Copies(ps[i], d, count)) ==>
      RawGet(o.s.world, q) == RawGet(s.world, q)
    ensures RawGet(o.s.world, q) == RawGet(s.world, q)
  {
    if i :| 0 <= i < n - 1 && q in Copies(ps[i], d, count) {
      assert ps[i] == ps[n - 1];
    }
  }

  /** `stackCuboidRegion` with the queue off and a direction other than (0, 0, 0): after a
      successful call every copy of every point of the region holds the block that point held
      at the start (air included only with `copyAir`; otherwise an air point leaves its copies
      alone), and every point that is no copy reads in the world as before. */
  lemma StackCopies(s: State, min: Point, max: Point, xm: int, ym: int, zm: int, count: int, copyAir: bool)
    requires !s.queued && (xm != 0 || ym != 0 || zm != 0)
    ensures var ps := StackArea(min, max);
      var d := Shift(min, max, xm, ym, zm);
      var r := Run(s, ps, Stack(d, count, copyAir));
      r.status.Ok? ==>
        && (forall p, q :: p in ps && q in Copies(p, d, count) ==> RawGet(r.s.world, q) == StackValue(s, p, q, copyAir))
        && (forall q :: (forall p :: p in ps ==> q !in Copies(p, d, count)) ==> RawGet(r.s.world, q) == RawGet(s.world, q))
  {
    var ps := StackArea(min, max);
    var d := Shift(min, max, xm, ym, zm);
    StackApart(min, max, xm, ym, zm, count);
    StackRun(s, ps, |ps|, d, count, copyAir);
    assert ps[..|ps|] == ps;
    var r := Run(s, ps, Stack(d, count, copyAir));
    if r.status.Ok? {
      forall p, q | p in ps && q in Copies(p, d, count)
        ensures RawGet(r.s.world, q) == StackValue(s, p, q, copyAir)
      {
        var i :| 0 <= i < |ps| && ps[i] == p;
      }
      forall q | forall p :: p in ps ==> q !in Copies(p, d, count)
        ensures RawGet(r.s.world, q) == RawGet(s.world, q)
      {
        forall i | 0 <= i < |ps|
          ensures q !in Copies(ps[i], d, count)
        {
          assert ps[i] in ps;
        }
      }
    }
  }

  /** The copies of the region's points land outside the region and apart from each other:
      the shift is a whole box size in some direction. */
  lemma StackApart(min: Point, max: Point, xm: int, ym: int, zm: int, count: int)
    requires xm != 0 || ym != 0 || zm != 0
    ensures Apart(StackArea(min, max), Shift(min, max, xm, ym, zm), count)
  {
    var ps := StackArea(min, max);
    var d := Shift(min, max, xm, ym, zm);
    forall i, j, q | 0 <= i < |ps| && 0 <= j < |ps| && q in Copies(ps[i], d, count)
      ensures q != ps[j]
    {
      CopiesMembers(ps[i], d, count, q);
      var k :| 1 <= k <= count && q == CopyAt(ps[i], d, k);
      ColumnsMembers(min.x, max.x, min.z, max.z, min.y, max.y, false, ps[i]);
      ColumnsMembers(min.x, max.x, min.z, max.z, min.y, max.y, false, ps[j]);
      CopiesMeet(min, max, xm, ym, zm, ps[i], ps[j], k, 0);
    }
    forall i, j, q | 0 <= i < |ps| && 0 <= j < |ps| && q in Copies(ps[i], d, count) && q in Copies(ps[j], d, count)
      ensures ps[i] == ps[j]
    {
      CopiesMembers(ps[i], d, count, q);
      CopiesMembers(ps[j], d, count, q);
      var k :| 1 <= k <= count && q == CopyAt(ps[i], d, k);
      var l :| 1 <= l <= count && q == CopyAt(ps[j], d, l);
      ColumnsMembers(min.x, max.x, min.z, max.z, min.y, max.y, false, ps[i]);
      ColumnsMembers(min.x, max.x, min.z, max.z, min.y, max.y, false, ps[j]);
      CopiesMeet(min, max, xm, ym, zm, ps[i], ps[j], k, l);
    }
  }

  /** The k-th copy of a point of the box and the l-th copy of another meet only when k == l
      and the points are the same (the 0-th copy is the point itself). */
  lemma CopiesMeet(min: Point, max: Point, xm: int, ym: int, zm: int, p: Point, p': Point, k: int, l: int)
    requires xm != 0 || ym != 0 || zm != 0
    requires min.x <= p.x <= max.x && min.y <= p.y <= max.y && min.z <= p.z <= max.z
    requires min.x <= p'.x <= max.x && min.y <= p'.y <= max.y && min.z <= p'.z <= max.z
    requires k >= 0 && l >= 0
    ensures var d := Shift(min, max, xm, ym, zm);
      CopyAt(p, d, k) == CopyAt(p', d, l) ==> k == l && p == p'
  {
    var d := Shift(min, max, xm, ym, zm);
    CopyAtScaled(p, d, k);
    CopyAtScaled(p', d, l);
    if xm != 0 {
      Spaced(max.x - min.x + 1, xm, k, l, p.x - min.x, p'.x - min.x);
    } else if ym != 0 {
      Spaced(max.y - min.y + 1, ym, k, l, p.y - min.y, p'.y - min.y);
    } else {
      Spaced(max.z - min.z + 1, zm, k, l, p.z - min.z, p'.z - min.z);
    }
  }

  /** Offsets within one tile of width w, moved by whole multiples w * m, meet only at the same
      multiple. */
  lemma Spaced(w: int, m: int, k: int, l: int, a: int, b: int)
    requires w >= 1 && m != 0 && 0 <= a < w && 0 <= b < w
    ensures a + (w * m) * k == b + (w * m) * l ==> k == l
  {
    if k != l {
      var t := m * (k - l);
      MulNonzero(m, k - l);
      assert (w * m) * k - (w * m) * l == w * t;
      MulAtLeast(w, t);
    }
  }

  lemma MulNonzero(x: int, y: int)
    requires x != 0 && y != 0
    ensures x * y != 0
  {
  }

  lemma MulAtLeast(w: int, t: int)
    requires w >= 1 && t != 0
    ensures w * t >= w || w * t <= -w
  {
    if t > 0 {
      MulGrows(w, t);
    } else {
      MulGrows(w, -t);
      assert w * t == -(w * -t);
    }
  }

  lemma {:induction false} MulGrows(w: int, t: int)
    requires w >= 0 && t >= 1
    ensures w * t >= w
    decreases t
  {
    if t > 1 {
      MulGrows(w, t - 1);
      assert w * t == w * (t - 1) + w;
    }
  }

  // ---------------------------------------------------------------------------------------
  // Loop bookkeeping for the drivers of the edit session

  /** A failure after the points done + q ends a run over done + r, of which it is a prefix. */
  lemma SeqStop(s: State, done: seq<Point>, q: seq<Point>, r: seq<Point>, a: Action)
    requires q <= r && !Run(s, done + q, a).status.Ok?
    ensures Run(s, done + r, a) == Run(s, done + q, a)
  {
    assert done + q <= done + r by {
      assert (done + r)[..|done + q|] == done + q;
    }
    RunStops(s, done + q, done + r, a);
  }

  /** The next value of the innermost loop variable. */
  function NextC(c: int, down: bool): int { if down then c - 1 else c + 1 }

  /** One more pass of the innermost loop visits At(c) after the points visited so far. */
  lemma LineNext(o: Order, a: int, b: int, lo: int, hi: int, down: bool, c: int, done: seq<Point>)
    requires lo <= c <= hi
    ensures done + Visited(o, a, b, lo, hi, down, NextC(c, down)) ==
      (done + Visited(o, a, b, lo, hi, down, c)) + [At(o, a, b, c)]
  {
    assert Visited(o, a, b, lo, hi, down, NextC(c, down)) == Visited(o, a, b, lo, hi, down, c) + [At(o, a, b, c)];
  }

  /** A failure at c ends the run over the whole innermost loop. */
  lemma LineStop(s: State, done: seq<Point>, o: Order, a: int, b: int, lo: int, hi: int, down: bool, c: int, act: Action)
    requires lo <= c <= hi
    requires !Run(s, (done + Visited(o, a, b, lo, hi, down, c)) + [At(o, a, b, c)], act).status.Ok?
    ensures Run(s, done + Line(o, a, b, lo, hi, down), act) ==
      Run(s, (done + Visited(o, a, b, lo, hi, down, c)) + [At(o, a, b, c)], act)
  {
    LinePrefix(o, a, b, lo, hi, down, c);
    assert (done + Visited(o, a, b, lo, hi, down, c)) + [At(o, a, b, c)] ==
      done + (Visited(o, a, b, lo, hi, down, c) + [At(o, a, b, c)]);
    SeqStop(s, done, Visited(o, a, b, lo, hi, down, c) + [At(o, a, b, c)], Line(o, a, b, lo, hi, down), act);
  }

  /** Where the innermost loop starts it has visited nothing. */
  lemma LineStart(o: Order, a: int, b: int, lo: int, hi: int, down: bool, done: seq<Point>)
    ensures done + Visited(o, a, b, lo, hi, down, if down then hi else lo) == done
  {
    assert Visited(o, a, b, lo, hi, down, if down then hi else lo) == [];
  }

  /** Where the innermost loop ends it has visited its whole line. */
  lemma LineDone(o: Order, a: int, b: int, lo: int, hi: int, down: bool, c: int)
    requires if down then Min(lo - 1, hi) == c else Max(hi + 1, lo) == c
    ensures Visited(o, a, b, lo, hi, down, c) == Line(o, a, b, lo, hi, down)
  {
  }

  /** One more pass of the middle loop runs the b-th line after the earlier ones. */
  lemma PlaneNext(o: Order, a: int, b0: int, b: int, lo: int, hi: int, down: bool, done: seq<Point>)
    requires b0 <= b
    ensures (done + Plane(o, a, b0, b - 1, lo, hi, down)) + Line(o, a, b, lo, hi, down) ==
      done + Plane(o, a, b0, b, lo, hi, down)
  {
  }

  lemma PlaneStop(s: State, done: seq<Point>, o: Order, a: int, b0: int, b: int, b1: int, lo: int, hi: int, down: bool, act: Action)
    requires b0 <= b <= b1 && !Run(s, done + Plane(o, a, b0, b, lo, hi, down), act).status.Ok?
    ensures Run(s, done + Plane(o, a, b0, b1, lo, hi, down), act) == Run(s, done + Plane(o, a, b0, b, lo, hi, down), act)
  {
    PlanePrefix(o, a, b0, b, b1, lo, hi, down, Line(o, a, b, lo, hi, down));
    SeqStop(s, done, Plane(o, a, b0, b, lo, hi, down), Plane(o, a, b0, b1, lo, hi, down), act);
  }

  lemma BoxNext(o: Order, a0: int, a: int, b0: int, b1: int, lo: int, hi: int, down: bool)
    requires a0 <= a
    ensures Box(o, a0, a - 1, b0, b1, lo, hi, down) + Plane(o, a, b0, b1, lo, hi, down) ==
      Box(o, a0, a, b0, b1, lo, hi, down)
  {
  }

  lemma BoxStop(s: State, o: Order, a0: int, a: int, a1: int, b0: int, b1: int, lo: int, hi: int, down: bool, act: Action)
    requires a0 <= a <= a1 && !Run(s, Box(o, a0, a, b0, b1, lo, hi, down), act).status.Ok?
    ensures Run(s, Box(o, a0, a1, b0, b1, lo, hi, down), act) == Run(s, Box(o, a0, a, b0, b1, lo, hi, down), act)
  {
    BoxPrefix(o, a0, a, a1, b0, b1, lo, hi, down, Plane(o, a, b0, b1, lo, hi, down));
    RunStops(s, Box(o, a0, a, b0, b1, lo, hi, down), Box(o, a0, a1, b0, b1, lo, hi, down), act);
  }

  /** One pair of face writes of `makeCuboidFaces`, after the earlier pairs. */
  lemma RungNext(o: Order, a: int, b0: int, b: int, c0: int, c1: int, done: seq<Point>)
    requires b0 <= b
    ensures ((done + Rungs(o, a, b0, b - 1, c0, c1)) + [At(o, a, b, c0)]) + [At(o, a, b, c1)] ==
      done + Rungs(o, a, b0, b, c0, c1)
  {
  }

  /** A failure at the first or the second write of pair b ends the run over all the pairs. */
  lemma RungStop(s: State, done: seq<Point>, o: Order, a: int, b0: int, b: int, b1: int, c0: int, c1: int,
                 ps: seq<Point>, act: Action)
    requires b0 <= b <= b1
    requires var before := done + Rungs(o, a, b0, b - 1, c0, c1);
      ps == before + [At(o, a, b, c0)] || ps == (before + [At(o, a, b, c0)]) + [At(o, a, b, c1)]
    requires !Run(s, ps, act).status.Ok?
    ensures Run(s, done + Rungs(o, a, b0, b1, c0, c1), act) == Run(s, ps, act)
  {
    var q := if ps == done + Rungs(o, a, b0, b - 1, c0, c1) + [At(o, a, b, c0)]
      then [At(o, a, b, c0)] else [At(o, a, b, c0), At(o, a, b, c1)];
    assert ps == done + (Rungs(o, a, b0, b - 1, c0, c1) + q);
    RungsPrefix(o, a, b0, b, b1, c0, c1, q);
    SeqStop(s, done, Rungs(o, a, b0, b - 1, c0, c1) + q, Rungs(o, a, b0, b1, c0, c1), act);
  }

  lemma LadderNext(o: Order, a0: int, a: int, b0: int, b1: int, c0: int, c1: int, done: seq<Point>)
    requires a0 <= a
    ensures (done + Ladder(o, a0, a - 1, b0, b1, c0, c1)) + Rungs(o, a, b0, b1, c0, c1) ==
      done + Ladder(o, a0, a, b0, b1, c0, c1)
  {
  }

  lemma LadderStop(s: State, done: seq<Point>, o: Order, a0: int, a: int, a1: int, b0: int, b1: int, c0: int, c1: int, act: Action)
    requires a0 <= a <= a1 && !Run(s, done + Ladder(o, a0, a, b0, b1, c0, c1), act).status.Ok?
    ensures Run(s, done + Ladder(o, a0, a1, b0, b1, c0, c1), act) == Run(s, done + Ladder(o, a0, a, b0, b1, c0, c1), act)
  {
    LadderPrefix(o, a0, a, a1, b0, b1, c0, c1, Rungs(o, a, b0, b1, c0, c1));
    SeqStop(s, done, Ladder(o, a0, a, b0, b1, c0, c1), Ladder(o, a0, a1, b0, b1, c0, c1), act);
  }

  /** A failure after the first face loop, or after the second, ends `makeCuboidFaces`. */
  lemma FacesStop(s: State, min: Point, max: Point, ps: seq<Point>, a: Action)
    requires var l1 := Ladder(XYZ, min.x, max.x, min.y, max.y, min.z, max.z);
      ps == l1 || ps == l1 + Ladder(YZX, min.y, max.y, min.z, max.z, min.x, max.x)
    requires !Run(s, ps, a).status.Ok?
    ensures Run(s, Faces(min, max), a) == Run(s, ps, a)
  {
    var l1 := Ladder(XYZ, min.x, max.x, min.y, max.y, min.z, max.z);
    var l2 := Ladder(YZX, min.y, max.y, min.z, max.z, min.x, max.x);
    var l3 := Ladder(ZXY, min.z, max.z, min.x, max.x, min.y, max.y);
    assert Faces(min, max) == (l1 + l2) + l3;
    assert (l1 + l2 + l3)[..|l1|] == l1;
    RunStops(s, ps, Faces(min, max), a);
  }

  /** A shape's loop: after i points, one more. */
  lemma PointsNext(ps: seq<Point>, i: int)
    requires 0 <= i < |ps|
    ensures ps[..i + 1] == ps[..i] + [ps[i]]
  {
  }

  lemma PointsStop(s: State, ps: seq<Point>, i: int, act: Action)
    requires 0 <= i <= |ps| && !Run(s, ps[..i], act).status.Ok?
    ensures Run(s, ps, act) == Run(s, ps[..i], act)
  {
    RunStops(s, ps[..i], ps, act);
  }
}
