/** The history of an edit session: `undo` and `redo` replay the recorded baselines or latest
    values through the queue-aware placement, then flush the queue. */
module History {
  import opened Blocks
  import opened Model
  import opened Regions

  /** ks lists every key of `keys` exactly once: one possible iteration order of a hash map. */
  ghost predicate Enumerates(ks: seq<Point>, keys: set<Point>) {
    && (forall i, j :: 0 <= i < j < |ks| ==> ks[i] != ks[j])
    && (forall k :: k in ks <==> k in keys)
  }

  /** `smartSetBlock(k, m[k])` for each k of ks in turn: the loop of `undo` and `redo`. */
  function Replay(s: State, ks: seq<Point>, m: map<Point, int>): (r: State)
    requires forall k :: k in ks ==> k in m
    ensures r.original == s.original && r.current == s.current
    ensures r.queued == s.queued && r.maxBlocks == s.maxBlocks
    decreases |ks|
  {
    if ks == [] then s
    else SmartWrite(Replay(s, ks[..|ks| - 1], m), ks[|ks| - 1], m[ks[|ks| - 1]]).0
  }

  /** `flushQueue`: with the queue on, every queued block is written to the world. The queue
      keeps its entries. */
  function Flush(s: State): (r: State)
    ensures r.original == s.original && r.current == s.current && r.queue == s.queue
    ensures r.queued == s.queued && r.maxBlocks == s.maxBlocks
    ensures forall q :: RawGet(r.world, q) == if s.queued && q in s.queue then s.queue[q] else RawGet(s.world, q)
  {
    if !s.queued then s else s.(world := s.world + s.queue)
  }

  /** `undo` with the baselines taken in the order ks. */
  function Undone(s: State, ks: seq<Point>): (r: State)
    requires forall k :: k in ks ==> k in s.original
    ensures r.original == s.original && r.current == s.current
    ensures r.queued == s.queued && r.maxBlocks == s.maxBlocks
    ensures Valid(s) ==> Valid(r)
  {
    ReplayValid(s, ks, s.original);
    Flush(Replay(s, ks, s.original))
  }

  /** `redo` with the latest values taken in the order ks. */
  function Redone(s: State, ks: seq<Point>): (r: State)
    requires forall k :: k in ks ==> k in s.current
    ensures r.original == s.original && r.current == s.current
    ensures r.queued == s.queued && r.maxBlocks == s.maxBlocks
    ensures Valid(s) ==> Valid(r)
  {
    ReplayValid(s, ks, s.current);
    Flush(Replay(s, ks, s.current))
  }

  /** One more key: the replay so far, then one placement. */
  lemma ReplaySnoc(s: State, ks: seq<Point>, k: Point, m: map<Point, int>)
    requires forall q :: q in ks ==> q in m
    requires k in m
    ensures Replay(s, ks + [k], m) == SmartWrite(Replay(s, ks, m), k, m[k]).0
  {
    assert (ks + [k])[..|ks|] == ks;
  }

  /** With the queue off, replaying writes m[k] at every key of ks straight into the world, in
      any order, and nothing else: the queue and every other point stay as they were. */
  lemma {:induction false} ReplayWithoutQueue(s: State, ks: seq<Point>, m: map<Point, int>)
    requires !s.queued
    requires forall k :: k in ks ==> k in m
    ensures var r := Replay(s, ks, m);
      && r.queue == s.queue
      && forall q :: RawGet(r.world, q) == if q in ks then m[q] else RawGet(s.world, q)
    decreases |ks|
  {
    if ks != [] {
      var init, k := ks[..|ks| - 1], ks[|ks| - 1];
      ReplayWithoutQueue(s, init, m);
      SmartWriteEffect(Replay(s, init, m), k, m[k]);
      assert ks == init + [k];
    }
  }

  /** Replaying keys that all have a baseline keeps the session invariant: the placement only
      queues blocks at the keys it writes. */
  lemma {:induction false} ReplayValid(s: State, ks: seq<Point>, m: map<Point, int>)
    requires forall k :: k in ks ==> k in m && (Valid(s) ==> k in s.original)
    ensures Valid(s) ==> Valid(Replay(s, ks, m))
    decreases |ks|
  {
    if ks != [] {
      var init, k := ks[..|ks| - 1], ks[|ks| - 1];
      ReplayValid(s, init, m);
      SmartWriteEffect(Replay(s, init, m), k, m[k]);
    }
  }

  /** Flushing twice writes nothing new: the queue is kept, so a second flush rewrites the
      same blocks. */
  lemma FlushTwice(s: State)
    ensures Flush(Flush(s)) == Flush(s)
  {
    if s.queued {
      assert s.world + s.queue + s.queue == s.world + s.queue;
    }
  }

  /** With the queue off, undo puts every baseline back into the world whatever the order
      of the keys, leaves every other point alone, and keeps both tracking maps. */
  lemma UndoWithoutQueue(s: State, ks: seq<Point>)
    requires !s.queued && Enumerates(ks, s.original.Keys)
    ensures var u := Undone(s, ks);
      && u.original == s.original && u.current == s.current && u.queue == s.queue
      && forall q :: RawGet(u.world, q) == if q in s.original then s.original[q] else RawGet(s.world, q)
  {
    ReplayWithoutQueue(s, ks, s.original);
  }

  /** With the queue off, redo puts every latest value back into the world whatever the order
      of the keys, leaves every other point alone, and keeps both tracking maps. */
  lemma RedoWithoutQueue(s: State, ks: seq<Point>)
    requires !s.queued && Enumerates(ks, s.current.Keys)
    ensures var r := Redone(s, ks);
      && r.original == s.original && r.current == s.current && r.queue == s.queue
      && forall q :: RawGet(r.world, q) == if q in s.current then s.current[q] else RawGet(s.world, q)
  {
    ReplayWithoutQueue(s, ks, s.current);
  }

  /** Undo restores the world. Take a session with the queue off at state s0, let it reach s by
      tracked writes (setBlock and every region algorithm), and undo in any order of the
      baselines: every point without a baseline at s0 reads in the world as it did at s0. */
  lemma UndoRestores(s0: State, s: State, area: iset<Point>, ks: seq<Point>)
    requires !s0.queued && TrackedWithin(s0, s, area)
    requires forall k :: k in ks <==> k in s.original
    ensures forall q :: q !in s0.original ==> RawGet(Undone(s, ks).world, q) == RawGet(s0.world, q)
  {
    ReplayWithoutQueue(s, ks, s.original);
  }

  /** Redo after undo brings back every latest value of the session; every point without a
      baseline at s0 and without a latest value keeps reading as it did at s0. */
  lemma RedoAfterUndo(s0: State, s: State, area: iset<Point>, ks: seq<Point>, ks': seq<Point>)
    requires !s0.queued && TrackedWithin(s0, s, area)
    requires forall k :: k in ks <==> k in s.original
    requires forall k :: k in ks' <==> k in s.current
    ensures forall q :: q !in s0.original ==>
      RawGet(Redone(Undone(s, ks), ks').world, q) == if q in s.current then s.current[q] else RawGet(s0.world, q)
    ensures forall q :: q in s.current ==> RawGet(Redone(Undone(s, ks), ks').world, q) == s.current[q]
  {
    var u := Undone(s, ks);
    UndoRestores(s0, s, area, ks);
    ReplayWithoutQueue(u, ks', s.current);
  }

  /** The queue is never emptied, so with the queue on an undo writes every queued block
      again when it flushes: at a queued point whose baseline is not itself a
      support-dependent block (air, say), undo leaves the queued block instead of the
      baseline. */
  lemma {:induction false} ReplayKeepsQueued(s: State, ks: seq<Point>, m: map<Point, int>, p: Point)
    requires p in s.queue && (p in m ==> m[p] !in QueuedBlocks)
    requires forall k :: k in ks ==> k in m
    ensures var r := Replay(s, ks, m); p in r.queue && r.queue[p] == s.queue[p]
    decreases |ks|
  {
    if ks != [] {
      var init, k := ks[..|ks| - 1], ks[|ks| - 1];
      ReplayKeepsQueued(s, init, m, p);
      SmartWriteEffect(Replay(s, init, m), k, m[k]);
    }
  }

  lemma UndoReplacesQueued(s: State, ks: seq<Point>, p: Point)
    requires s.queued && p in s.queue && p in s.original && s.original[p] !in QueuedBlocks
    requires forall k :: k in ks ==> k in s.original
    ensures RawGet(Undone(s, ks).world, p) == s.queue[p]
  {
    ReplayKeepsQueued(s, ks, s.original, p);
  }

  /** A torch placed over air with the queue on, flushed and then undone, stays in the world
      although its baseline is air. */
  lemma UndoKeepsQueuedTorch()
    ensures var p := Point(0, 64, 0);
      var s0 := State(map[], map[], map[], map[], -1, true);
      var s := Flush(TrackedWrite(s0, p, 50).s);
      && s.original[p] == 0
      && RawGet(Undone(s, [p]).world, p) == 50
  {
    var p := Point(0, 64, 0);
    var s0 := State(map[], map[], map[], map[], -1, true);
    TrackedWriteEffect(s0, p, 50);
    TrackedWriteMaps(s0, p, 50);
    var s := Flush(TrackedWrite(s0, p, 50).s);
    UndoReplacesQueued(s, [p], p);
  }
}
