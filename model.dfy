/** The state of an edit session as a value, and the single-block operations on it:
    the read path, the queue-aware placement rule and the tracked write with its change cap. */
module Model {
  import opened Blocks

  /** How an operation ended: normally, or with one of the two exceptions of the session. */
  datatype Status = Ok | MaxChangedBlocks(limit: int) | IllegalArgument

  /** Everything an edit session holds, together with the world it edits.
      `original` is the undo baseline, `current` the redo target, `queue` the deferred writes. */
  datatype State = State(
    world: map<Point, int>,
    original: map<Point, int>,
    current: map<Point, int>,
    queue: map<Point, int>,
    maxBlocks: int,
    queued: bool)

  /** The outcome of one tracked write: new state, the "changed" flag, and the status. */
  datatype Write = Write(s: State, changed: bool, status: Status)

  /** The session invariant: every point written (or queued) has a recorded baseline,
      and the change limit is -1 (no limit) or a count. */
  ghost predicate Valid(s: State) {
    && s.current.Keys <= s.original.Keys
    && s.queue.Keys <= s.original.Keys
    && s.maxBlocks >= -1
  }

  /** `getBlock`: with the queue on, a point written in this session reads its latest value,
      which may not have reached the world yet; otherwise the world is asked. */
  function ReadBlock(s: State, p: Point): (r: int)
    // the world answers unless the queue is on and the point was written in this session
    ensures !s.queued || p !in s.current ==> r == RawGet(s.world, p)
    ensures s.queued && p in s.current ==> r == s.current[p]
  {
    if s.queued && p in s.current then s.current[p] else RawGet(s.world, p)
  }

  /** The queue holds back a support-dependent block whose position has air below it. */
  predicate Deferred(s: State, p: Point, b: int) {
    s.queued && b != 0 && b in QueuedBlocks && RawGet(s.world, Below(p)) == 0
  }

  /** With the queue on, clearing a block first clears a support-dependent block resting on it. */
  predicate Cascades(s: State, p: Point, b: int) {
    s.queued && b == 0 && RawGet(s.world, Above(p)) in QueuedBlocks
  }

  /** `smartSetBlock`: place `b` at `p`, honouring the queue. The flag is the source's
      "changed" answer: for a deferred block it compares against the read path, otherwise
      against the world. */
  function SmartWrite(s: State, p: Point, b: int): (r: (State, bool))
    // the tracking maps, the limit and the mode are never touched
    ensures r.0.original == s.original && r.0.current == s.current
    ensures r.0.maxBlocks == s.maxBlocks && r.0.queued == s.queued
  {
    if Deferred(s, p, b) then
      var s' := s.(queue := s.queue[p := b]);
      (s', ReadBlock(s', p) != b)
    else
      var w := if Cascades(s, p, b) then s.world[Above(p) := 0] else s.world;
      (s.(world := w[p := b]), RawGet(w, p) != b)
  }

  /** Where `smartSetBlock` puts the block: a deferred block waits in the queue, any other
      lands at p at once; the world changes at p and, in a cascade, at the block above, which
      becomes air; with the queue off it is exactly one world write. */
  lemma SmartWriteEffect(s: State, p: Point, b: int)
    ensures var r := SmartWrite(s, p, b);
      && (Deferred(s, p, b) ==>
            r.0.world == s.world && r.0.queue == s.queue[p := b] && r.1 == (ReadBlock(s, p) != b))
      && (!Deferred(s, p, b) ==>
            r.0.queue == s.queue && RawGet(r.0.world, p) == b && r.1 == (RawGet(s.world, p) != b))
      && (forall q :: q != p && q != Above(p) ==> RawGet(r.0.world, q) == RawGet(s.world, q))
      && (RawGet(r.0.world, Above(p)) == RawGet(s.world, Above(p)) ||
          (Cascades(s, p, b) && RawGet(r.0.world, Above(p)) == 0))
      && (Cascades(s, p, b) ==> r.0.world == s.world[Above(p) := 0][p := 0])
      && (!s.queued ==> r.0.world == s.world[p := b] && r.0.queue == s.queue)
  {
    assert Above(p) != p;
  }

  /** `setBlock`: record the baseline of a point the first time it is written, enforce the
      change limit, record the latest value, then place the block. On an exceeded limit the
      new baseline is already recorded and nothing else changes. */
  function TrackedWrite(s: State, p: Point, b: int): (r: Write)
    ensures r.status == Ok || r.status == MaxChangedBlocks(s.maxBlocks)
    ensures r.s.maxBlocks == s.maxBlocks && r.s.queued == s.queued
  {
    if p !in s.original then
      var s1 := s.(original := s.original[p := ReadBlock(s, p)]);
      if s.maxBlocks != -1 && |s1.original| > s.maxBlocks then
        Write(s1, false, MaxChangedBlocks(s.maxBlocks))
      else
        Commit(s1, p, b)
    else
      Commit(s, p, b)
  }

  /** Lines 140-142 of `setBlock`: record the latest value, then place the block. */
  function Commit(s: State, p: Point, b: int): (r: Write)
    ensures r.status == Ok
    ensures r.s.original == s.original && r.s.current == s.current[p := b]
    ensures r.s.maxBlocks == s.maxBlocks && r.s.queued == s.queued
  {
    var s2 := s.(current := s.current[p := b]);
    var (s3, changed) := SmartWrite(s2, p, b);
    Write(s3, changed, Ok)
  }

  /** The tracking maps after a tracked write: the baseline of a new point is recorded, and a
      successful write also records the latest value and may queue the block. */
  lemma TrackedWriteMaps(s: State, p: Point, b: int)
    ensures var r := TrackedWrite(s, p, b);
      && r.s.original == (if p in s.original then s.original else s.original[p := ReadBlock(s, p)])
      && (r.status.Ok? ==> r.s.current == s.current[p := b])
      && (!r.status.Ok? ==> r.s.current == s.current && r.s.queue == s.queue)
      && (r.s.queue == s.queue || r.s.queue == s.queue[p := b])
  {
    var s1 := if p !in s.original then s.(original := s.original[p := ReadBlock(s, p)]) else s;
    var s2 := s1.(current := s1.current[p := b]);
    SmartWriteEffect(s2, p, b);
  }

  /** First write wins: a recorded baseline is never replaced, and the first write of a point
      records what the read path reported just before it, even when the limit then fails. */
  lemma TrackedWriteBaseline(s: State, p: Point, b: int)
    ensures var r := TrackedWrite(s, p, b);
      && (forall q :: q in s.original ==> q in r.s.original && r.s.original[q] == s.original[q])
      && r.s.original.Keys == s.original.Keys + {p}
      && (p !in s.original ==> r.s.original[p] == ReadBlock(s, p))
      && (Valid(s) ==> Valid(r.s))
  {
    TrackedWriteMaps(s, p, b);
  }

  /** The change limit: a write fails exactly when it is the first write of a point and the
      number of recorded points then exceeds a finite limit; a failed write changes nothing but
      the baseline it recorded and reports no change. */
  lemma TrackedWriteCap(s: State, p: Point, b: int)
    ensures var r := TrackedWrite(s, p, b);
      && (!r.status.Ok? <==> s.maxBlocks != -1 && p !in s.original && |s.original| + 1 > s.maxBlocks)
      && (!r.status.Ok? ==> r.s == s.(original := r.s.original) && !r.changed)
      && |r.s.original| == |s.original| + (if p in s.original then 0 else 1)
  {
  }

  /** A successful write makes b the latest value of p, so the read path gives b back; a
      support-dependent block over air is queued and reported unchanged; with the queue off
      it is exactly one world write. */
  lemma TrackedWriteEffect(s: State, p: Point, b: int)
    ensures var r := TrackedWrite(s, p, b);
      && (r.status.Ok? ==> r.s.current == s.current[p := b] && ReadBlock(r.s, p) == b)
      && (r.status.Ok? && Deferred(s, p, b) ==>
            r.s.world == s.world && r.s.queue == s.queue[p := b] && !r.changed)
      && (r.status.Ok? && !s.queued ==> r.s.world == s.world[p := b] && r.s.queue == s.queue)
  {
    var s1 := if p !in s.original then s.(original := s.original[p := ReadBlock(s, p)]) else s;
    var s2 := s1.(current := s1.current[p := b]);
    SmartWriteEffect(s2, p, b);
  }

  /** A tracked write leaves the read of every point other than p and the one above it alone. */
  lemma TrackedWriteReadsAt(s: State, p: Point, b: int, q: Point)
    requires q != p && q != Above(p)
    ensures ReadBlock(TrackedWrite(s, p, b).s, q) == ReadBlock(s, q)
  {
    var r := TrackedWrite(s, p, b);
    var s1 := if p !in s.original then s.(original := s.original[p := ReadBlock(s, p)]) else s;
    var s2 := s1.(current := s1.current[p := b]);
    if r.status.Ok? {
      SmartWriteEffect(s2, p, b);
      assert r.s == SmartWrite(s2, p, b).0;
    }
  }

  /** The block above p reads as before, unless a successful clear cascaded onto an untracked
      support-dependent block there, which now reads air. */
  lemma TrackedWriteReadsAbove(s: State, p: Point, b: int)
    ensures var r := TrackedWrite(s, p, b);
      || ReadBlock(r.s, Above(p)) == ReadBlock(s, Above(p))
      || (r.status.Ok? && Cascades(s, p, b) && Above(p) !in s.current && ReadBlock(r.s, Above(p)) == 0)
  {
    var r := TrackedWrite(s, p, b);
    var s1 := if p !in s.original then s.(original := s.original[p := ReadBlock(s, p)]) else s;
    var s2 := s1.(current := s1.current[p := b]);
    if r.status.Ok? {
      SmartWriteEffect(s2, p, b);
      assert r.s == SmartWrite(s2, p, b).0;
      assert Above(p) != p;
    }
  }

  /** What the read path sees changes only at the written point, except that with the queue
      on a clear also empties an untracked support-dependent block above it. */
  lemma TrackedWriteReads(s: State, p: Point, b: int)
    ensures var r := TrackedWrite(s, p, b);
      && (forall q :: q != p && q != Above(p) ==> ReadBlock(r.s, q) == ReadBlock(s, q))
      && (|| ReadBlock(r.s, Above(p)) == ReadBlock(s, Above(p))
          || (r.status.Ok? && Cascades(s, p, b) && Above(p) !in s.current && ReadBlock(r.s, Above(p)) == 0))
  {
    forall q | q != p && q != Above(p)
      ensures ReadBlock(TrackedWrite(s, p, b).s, q) == ReadBlock(s, q)
    {
      TrackedWriteReadsAt(s, p, b, q);
    }
    TrackedWriteReadsAbove(s, p, b);
  }
}
