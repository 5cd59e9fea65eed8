# WorldEdit edit session in Dafny

This project models `EditSession`, the transactional edit buffer of the early WorldEdit
plugin, over a sparse three-dimensional grid of block ids (0 is air). It proves properties of
the model.

A session keeps four kinds of state:
- `original`, the block each point held before the session first wrote it (the undo baseline);
- `current`, the latest value written at each point (the redo target);
- `queue`, the support-dependent blocks (torches, flowers, signs, ...) whose placement is
  deferred while the queue is on;
- a change limit and the queue switch.

Every region algorithm goes through `setBlock`. That method records the baseline on the first
write, enforces the limit, records the latest value and places the block through
`smartSetBlock`, which defers a floating support-dependent block and clears such a block that
rests on a block being removed.

The project is organised in layers.

- `blocks.dfy` (`Blocks`): points, the ten support-dependent ids, the ceiling row 127, and the
  world map read as air where it has never been written.
- `model.dfy` (`Model`): the session as a value (`State`). It defines the read path
  (`ReadBlock`), the placement rule (`SmartWrite`) and the tracked write with its change cap
  (`TrackedWrite`). It also holds the lemmas on single writes: first write wins, the cap,
  deferral, the cascade, and which reads change.
- `regions.dfy` (`Regions`): every region algorithm as a fold (`Run`) of one step per visited
  point.
  - The points come in exactly the order of the source's loops (`Box`, `Ladder`, `Copies`).
  - An exceeded change limit ends the fold, as the exception does.
  - The file also defines the predicates on what a run may change.
- `runs.dfy` (`Runs`): lemmas on runs. They cover:
  - which points a run may track, and that it keeps the session invariant;
  - which values it writes and what visited points read afterwards;
  - bounds on the count, and which cells each loop nest visits;
  - the bookkeeping the loop drivers need.
- `fill.dfy` (`Fill`): `fillY` and the recursive `fillXZ`, with their termination measure and
  their effect.
- `history.dfy` (`History`): `undo`, `redo` and `flushQueue` as functions, and what undo
  restores.
- `session.dfy` (`Session`): the class `EditSession`. Its fields are the world, the three
  maps, the limit and the switch. Its methods update those fields in place, and each method is
  proved to leave them exactly as the matching function on `State` says.

Exceptions (`MaxChangedBlocksException`, `IllegalArgumentException`) become a returned
`Status`.

## Model

| member | source | states |
|---|---|---|
| Session.EditSession.constructor | src/EditSession.java:80-81 | a new session has empty baselines, latest values and queue, no change limit, the queue off, and satisfies the session invariant |
| Session.EditSession.WithLimit | src/EditSession.java:86-91 | a limit below -1 is refused with IllegalArgument and no session; otherwise a fresh session with that limit and no history |
| Session.EditSession.RawSetBlock | src/EditSession.java:100-103 | the world gets b at p and nothing else changes; the answer is whether the world held something other than b there |
| Session.EditSession.RawGetBlock | src/EditSession.java:202-204 | the world's block at p, air if never written |
| Session.EditSession.GetBlock | src/EditSession.java:173-182 | the read path: the latest value of a tracked point while the queue is on, else the world's block |
| Session.EditSession.SmartSetBlock | src/EditSession.java:152-165 | new state and answer are those of the placement rule `SmartWrite` |
| Session.EditSession.SetBlock | src/EditSession.java:130-143 | new state, answer and status are those of the tracked write `TrackedWrite` |
| Session.EditSession.ReplayAll | src/EditSession.java:210-213 | one placement per key of the map, each key exactly once, in some order; the new state is the replay of that order |
| Session.EditSession.Undo | src/EditSession.java:209-215 | the state is the undo of the old state over an enumeration of all baseline keys |
| Session.EditSession.Redo | src/EditSession.java:220-226 | the state is the redo of the old state over an enumeration of all latest-value keys |
| Session.EditSession.Size | src/EditSession.java:232-234 | the number of points with a baseline |
| Session.EditSession.GetBlockChangeLimit | src/EditSession.java:242-244 | the current limit |
| Session.EditSession.SetBlockChangeLimit | src/EditSession.java:251-256 | below -1: IllegalArgument and nothing changes; otherwise only the limit changes |
| Session.EditSession.IsQueueEnabled | src/EditSession.java:263-265 | the queue switch |
| Session.EditSession.EnableQueue | src/EditSession.java:270-272 | only the switch changes, to on |
| Session.EditSession.DisableQueue | src/EditSession.java:277-282 | the state is the flushed old state with the switch off |
| Session.EditSession.FlushQueue | src/EditSession.java:287-294 | queue off: nothing changes; queue on: every queued block is written into the world and the queue keeps its entries |
| Session.EditSession.FillY | src/EditSession.java:342-358 | state, count and status are those of `FillDown` |
| Session.EditSession.FillXZ | src/EditSession.java:307-329 | state, count and status are those of `Fill.FillXZ`; the recursion terminates |
| Session.EditSession.FillColumn | src/EditSession.java:317-321 | after the first column, the whole call's outcome is its count plus the spread to the four neighbours, and fewer disc columns read air |
| Session.EditSession.SpreadTo | src/EditSession.java:323-326 | the four recursive calls in turn, adding their counts, stopping at an exceeded limit, complete the outcome of the whole call |
| Session.EditSession.SetBlocks | src/EditSession.java:428-457 | the outcome of writing b at each point of the region in loop order (x, y, z for a cuboid) |
| Session.EditSession.ReplaceBlocks | src/EditSession.java:468-506 | the outcome of replacing each matching block of the region in loop order |
| Session.EditSession.RemoveAbove | src/EditSession.java:368-388 | the outcome of clearing the non-air cells of `AboveArea` in loop order, counting each |
| Session.EditSession.RemoveBelow | src/EditSession.java:398-418 | the same over `BelowArea`, rows downwards |
| Session.EditSession.OverlayCuboidBlocks | src/EditSession.java:558-582 | the outcome of the overlay step on each column of the region, scanning from one row above it |
| Session.EditSession.StackCuboidRegion | src/EditSession.java:584-613 | the outcome of copying each block of the region `count` times, shifted by the region's size times (xm, ym, zm); what the copies hold is `StackCopies` |
| Session.EditSession.MakeCuboidFaces | src/EditSession.java:516-546 | state and status are those of the three face loops; on success the count includes one extra per (x, y) pair |
| Session.EditSession.Apply | src/EditSession.java:479-488 | one loop body at one point has the outcome of `Step` |
| Session.EditSession.OverlayColumn | src/EditSession.java:570-577 | one column of the overlay has the outcome of its `Step` |
| Session.EditSession.FindSurface | src/EditSession.java:570-571 | the scan changes nothing and finds the highest surface cell of the column (`TopY`) |
| Session.EditSession.StackPoint | src/EditSession.java:598-607 | one point of the stack has the outcome of its `Step` |
| Session.EditSession.PlaceCopies | src/EditSession.java:601-606 | the copies i = 1 .. count have the outcome of the run over `Copies` |
| Session.EditSession.PlaceCopy | src/EditSession.java:601-605 | one copy at p + i * d after the earlier ones; an exceeded limit gives the outcome of all the copies |
| Session.EditSession.SweepBox | src/EditSession.java:437-447 | a triple loop has the outcome of the run over the points of `Box` |
| Session.EditSession.Visit | src/EditSession.java:440-445 | one loop body after the points visited so far gives the run over them plus that point |
| Session.EditSession.SweepLine | src/EditSession.java:439-445 | the innermost loop, up or down, has the outcome of the run over the points visited before plus its line |
| Session.EditSession.SweepPlane | src/EditSession.java:438-446 | the middle loop has the outcome of the run over the points visited before plus its plane |
| Session.EditSession.SweepPoints | src/EditSession.java:449-453 | the loop over a shape's points has the outcome of the run over them |
| Session.EditSession.SweepLadder | src/EditSession.java:523-529 | a face loop has the run's state and status, and on success its count plus the extra count of the first loop |
| Session.EditSession.SweepRungs | src/EditSession.java:524-528 | one face loop has the run's state and status over its pairs of face points, and on success its count adds one more per pair when `extra` is set, as the first loop's does |
| Model.SmartWrite | src/EditSession.java:152-165 | a placement never touches the baselines, the latest values, the limit or the switch |
| Model.ReadBlock | src/EditSession.java:173-182 | the world answers, unless the queue is on and the point has a latest value, which is then the answer |
| Model.SmartWriteEffect | src/EditSession.java:152-165 | a deferred block leaves the world alone and is queued, answering against the read path; any other lands at p, answering against the world; only p and the block above change, the latter only to air by a cascade; with the queue off, exactly one world write |
| Model.TrackedWrite | src/EditSession.java:130-143 | the status is Ok or the limit's MaxChangedBlocks; limit and switch are kept |
| Model.Commit | src/EditSession.java:140-142 | records b as the latest value of p, keeps the baselines, limit and switch, and never fails |
| Model.TrackedWriteMaps | src/EditSession.java:132-140 | a new point's baseline is recorded even on failure; success sets the latest value; failure keeps latest values and queue |
| Model.TrackedWriteBaseline | src/EditSession.java:132-133 | first write wins: recorded baselines never change, a new one is what the read path gave, and the key sets stay nested |
| Model.TrackedWriteCap | src/EditSession.java:132-137 | fails exactly for a new point that takes the count past a finite limit; failure changes only that baseline and answers false; size grows only for a new point |
| Model.TrackedWriteEffect | src/EditSession.java:140-157 | success makes b the read value; a deferred block keeps the world, is queued and answers false; with the queue off, exactly one world write |
| Model.TrackedWriteReads | src/EditSession.java:152-182 | reads change only at p, and above p only to air when a clear cascades onto an untracked block |
| History.Replay | src/EditSession.java:210-213 | replaying placements keeps both maps, the limit and the switch |
| History.Flush | src/EditSession.java:287-294 | keeps all three maps, the limit and the switch; with the queue on, every queued point reads its queued block in the world, and other points are unchanged |
| History.Undone | src/EditSession.java:209-215 | undo keeps both maps, the limit and the switch, and keeps the session invariant |
| History.Redone | src/EditSession.java:220-226 | redo keeps both maps, the limit and the switch, and keeps the session invariant |
| History.ReplayWithoutQueue | src/EditSession.java:210-213 | with the queue off, a replay writes m's value at each key, in any order, and nothing else |
| History.ReplayValid | src/EditSession.java:152-165 | replaying keys that all have a baseline, as undo and redo do, keeps the session invariant: each placement queues a block only at the key it writes |
| History.UndoWithoutQueue | src/EditSession.java:209-215 | with the queue off, undo puts every baseline back and leaves other points and both maps as they were |
| History.RedoWithoutQueue | src/EditSession.java:220-226 | with the queue off, redo puts every latest value back and leaves other points and both maps as they were |
| History.UndoRestores | src/EditSession.java:209-215 | after any tracked writes from a queue-off start, undo restores every point untracked at the start |
| History.RedoAfterUndo | src/EditSession.java:209-226 | with the queue off at the start, redo after undo gives every point with a latest value that value, and every other point without a baseline at the start its start block |
| History.FlushTwice | src/EditSession.java:287-294 | a second flush writes nothing new, because the queue keeps its entries |
| History.ReplayKeepsQueued | src/EditSession.java:152-157 | a queued block survives any replay that does not place a support-dependent block at its point |
| History.UndoReplacesQueued | src/EditSession.java:209-215 | with the queue on, undo's flush re-writes a queued block over a non-deferred baseline |
| History.UndoKeepsQueuedTorch | src/EditSession.java:209-215 | a torch queued over air, flushed and undone, stays in the world |
| Regions.TopY | src/EditSession.java:570-577 | the overlay's scan returns a surface cell in range with no surface cell above it, or none if there is none |
| Regions.Step | src/EditSession.java:440-605 | one loop body of a region algorithm counts no negative number, and at most one block except for a stack step; what it writes is `StepTracks`, `RunWrote`, `RunSettles` and `StackStepWorld` |
| Regions.Run | src/EditSession.java:368-613 | a region algorithm's loops as one step per visited point, stopping at an exceeded limit; its count is never negative, and what it writes is stated by `RunTracks`, `RunWrote`, `RunGuarded`, `RunSettles`, `OverlayCovers` and `StackCopies` |
| Regions.FacesRun | src/EditSession.java:516-546 | makeCuboidFaces writes and fails as its three face loops do, and on success counts at least one block per (x, y) pair |
| Runs.RunTracks | src/EditSession.java:428-613 | a region algorithm keeps the session invariant, keeps old baselines, and tracks only points its steps may reach; with the queue off, untracked points keep their world block |
| Runs.RunWrote | src/EditSession.java:368-582 | every new baseline passed the step's guard (matching for replace, non-air for removals, air for the overlay), and every changed latest value is the target block; `RunGuarded` states the guard for every changed block, tracked before or not |
| Runs.RunGuarded | src/EditSession.java:368-506 | with the queue off, replaceBlocks and the removals change only points they visited, tracked before or not; every block replaceBlocks changes matched `from` when it began (any non-air block for -1) and now reads `to`, and every block a removal changes was non-air and now reads air |
| Runs.OverlayRun | src/EditSession.java:568-579 | with the queue off and each column visited once, the overlay leaves unvisited columns alone, covers every cell it changes, and changes at most one cell per column |
| Runs.OverlayCovers | src/EditSession.java:558-582 | with the queue off, overlayCuboidBlocks changes only air cells of the region's columns, each directly above a non-air cell with air above it, at or above the row below the region and at most row 127, each now reading b, and at most one per (x, z) column |
| Runs.OverlayStepCovers | src/EditSession.java:570-577 | one column's scan and write changes at most one cell, in its own column, the air cell above the surface cell found |
| Runs.BoxColumnsOnce | src/EditSession.java:568-569 | the overlay's x and z loops visit each (x, z) column once |
| Runs.RunSettles | src/EditSession.java:428-506 | after success, every visited point reads b (setBlocks), air (removals), or `to` or a non-matching block (replaceBlocks) |
| Runs.RunCount | src/EditSession.java:368-582 | those algorithms count at most one block per visited point |
| Runs.FacesCount | src/EditSession.java:516-546 | a successful makeCuboidFaces counts at least one per (x, y) pair and at most that plus its face positions |
| Runs.FacesCountsUnchanged | src/EditSession.java:527 | air over a single air block changes nothing yet is counted as one block |
| Runs.BoxMembers | src/EditSession.java:437-447 | a triple loop visits exactly the points whose loop coordinates lie in the three ranges |
| Runs.ColumnsMembers | src/EditSession.java:374-385 | the x, z, row loops of the removals, overlay and stack visit exactly the cells in the three ranges |
| Runs.CuboidMembers | src/EditSession.java:437-447 | the cuboid loops of setBlocks and replaceBlocks visit exactly the cells between the corners |
| Runs.RungsMembers | src/EditSession.java:524-526 | one face loop visits, for each b in range, exactly the two points on the faces c0 and c1 |
| Runs.LadderMembers | src/EditSession.java:523-529 | a face loop nest visits exactly the points with a and b in range and c on one of the two faces |
| Runs.FacesMembers | src/EditSession.java:516-546 | makeCuboidFaces visits exactly the six faces of the box; for ordered corners, exactly the box's cells on its boundary |
| Runs.CopiesAt | src/EditSession.java:601-603 | a point is copied exactly max(count, 0) times, the i-th copy at p + i * d, where d is the region's size times (xm, ym, zm) |
| Runs.CopyAtScaled | src/EditSession.java:602-603 | the i-th copy, defined as i shifts by d, is p + i * d in each coordinate, as the source computes it |
| Runs.CopiesMembers | src/EditSession.java:601-603 | a point is among the copies of p exactly when it is the i-th copy for some 1 <= i <= count |
| Runs.StackStepWorld | src/EditSession.java:598-607 | with the queue off, a successful step at p writes p's block to each copy, unless it is air and air is not copied, and changes nothing else |
| Runs.StackRun | src/EditSession.java:595-607 | with the queue off and no copy overlapping a visited point or another point's copy, each copy of a visited point holds that point's block from the start (skipping air without copyAir) and no other point changes |
| Runs.StackApart | src/EditSession.java:591-603 | with a direction other than (0, 0, 0), copies of the region's points fall outside the region and two different points share no copy |
| Runs.StackCopies | src/EditSession.java:584-613 | with the queue off and a direction other than (0, 0, 0), after success every copy of every point holds that point's starting block (air only with copyAir, otherwise left alone) and every other point reads as before |
| Runs.FillWorld | src/EditSession.java:601-605 | with the queue off, successful writes of v over a list of points put v at each of them and change nothing else |
| Fill.FillDown | src/EditSession.java:342-358 | fillY's count lies between 0 and the number of rows; limit and switch are kept |
| Fill.FillDownTracked | src/EditSession.java:346-355 | fillY tracks only cells of its column between minY and cy, with air as baseline and b as latest value |
| Fill.FillDownFills | src/EditSession.java:346-355 | fillY changes reads only at air cells of its column, which now read b |
| Fill.FillDownFilled | src/EditSession.java:346-357 | after success the `affected` cells from the top down read b, and an air top cell in range makes the count at least one |
| Fill.FillDownStop | src/EditSession.java:346-355 | after success every counted cell read air before the call, and the cell below them read non-air unless minY was passed: fillY stops at the first non-air cell |
| Fill.FillDownBelow | src/EditSession.java:346-355 | after success the stop cell and every cell under it read as before: nothing below the counted cells is written |
| Fill.FillDownExact | src/EditSession.java:342-358 | after success a cell of the column reads differently if and only if it is one of the `affected` cells from y down: the count is exactly the number of cells fillY set |
| Fill.FillXZ | src/EditSession.java:307-329 | fillXZ terminates, never turns a non-air cell into air, and keeps limit and switch |
| Fill.AfterColumn | src/EditSession.java:317-328 | after the first column, fillXZ stops on an exceeded limit or spreads to the neighbours, keeping limit and switch and never turning a non-air cell into air |
| Fill.Spread | src/EditSession.java:323-326 | the four recursive calls in turn, stopping at an exceeded limit; limit and switch kept, no non-air cell turned into air |
| Fill.FirstColumn | src/EditSession.java:317-318 | filling the first column leaves fewer disc columns reading air at the origin's row |
| Fill.FillXZEffect | src/EditSession.java:307-329 | fillXZ only turns air cells of the disc's columns, from the origin's row down `depth` rows, into b, records air as their baseline and keeps the session invariant |

## Left out

- The server behind `rawSetBlock`, `getBlock` and `rawGetBlock` is the field `world`, a map
  whose missing keys read as air. `rawSetBlock`'s "changed" answer is "the block differs from
  what the world held".
- The overloads `setBlock(x, y, z)` and `getBlock(x, y, z)` are `SetBlock` and `GetBlock` at
  `Point(x, y, z)`.
- Floating point:
  - `fillXZ`'s `Math.sqrt`/`Math.pow` test is the exact integer test `InDisc` (no negative
    radius admits a column).
  - The double coordinates of points and their `(int)` casts are integers throughout.
- `Region` is external. The model's region is a cuboid, or a shape given by its corners and
  the sequence of positions its iterator yields. `getWidth`, `getHeight` and `getLength` are
  taken as `max - min + 1` of the bounding box (`Shift`).
- Hash-map iteration order in `undo`, `redo` and `flushQueue` is unknown. The methods choose
  an order, and `Undo`/`Redo` return it as a ghost sequence. With the queue on, results that
  depend on the order are not claimed, except where they hold for every order
  (`UndoReplacesQueued`).
- Java `int` overflow, for example in `stackCuboidRegion`'s offsets, is not modelled: integers
  are unbounded.
- Session.EditSession.FillXZ: requires `b != 0` and `depth >= 1`, and so does `Fill.FillXZ`.
  Without them the source's recursion has no visited set and does not terminate.
- Session.EditSession.MakeCuboidFaces: the count is stated only for a successful call. On an
  exceeded limit the source throws and returns no count.
- On an exceeded limit, the count returned with `MaxChangedBlocks` stands for nothing in the
  source, because the exception discards it.
- Runs.StackCopies: stated for the queue off and a direction other than (0, 0, 0). With the
  queue on, a copied support-dependent block may be deferred (`SmartWriteEffect`); with
  direction (0, 0, 0) every copy is the point itself. `RunTracks` still bounds what is written
  in both cases.
- Runs.RunGuarded: stated for the queue off. With the queue on, a clearing write also
  empties an untracked support-dependent block above it (`SmartWriteEffect`), which passed
  no guard; `RunWrote` still states the guard for every new baseline in both cases.
- Runs.OverlayCovers: stated for the queue off, for the same cascade and because a deferred
  block reaches the world only at the next flush; `RunTracks` and `RunWrote` still bound the
  overlay's writes to its columns and to cells that read air.
- Regions.Run: its own contract states only that the count is never negative; what a run
  writes and counts is stated by the lemmas named in its row.
- Each level of a nested loop is its own method (`SweepBox`, `SweepPlane`, `SweepLine`,
  `SweepLadder`, `SweepRungs`). `fillXZ`'s four calls are one recursive method over the
  neighbour index (`SpreadTo`).
- Two behaviours of the program that the model keeps as written:
  - `flushQueue` never empties the queue (src/EditSession.java:287-294). With the queue on,
    every later flush (in `undo`, `redo` or `disableQueue`) writes the queued blocks again
    (`UndoReplacesQueued`).
  - `removeAbove` and `removeBelow` decrement `size` before their loops
    (src/EditSession.java:371, 401), so they cover `size - 1` columns on each side of `pos`.
