# aoc24 in Dafny

A model of david47k/aoc24, Rust solutions to the Advent of Code 2024 puzzles. The model covers days 1, 2, 4 to 15 and 17 to 25. It also covers the maze engine that several days share, taken over from the author's box-pushing puzzle tool:

- levels parsed from text, with a wall bitmap of 64-bit words (`Levels`);
- vectors, moves and the packed path of two-bit moves (`Vectors`, `Moves`, `Path2`, `StackStack`, `Words`);
- the flood fill and key pushes of `PathMap` (`PathNodeMaps`);
- the round-by-round searches `find_best_path_16`, `find_best_path_18` and `find_any_path_18` (`Solve`);
- the byte grid (`Grids`) and the map objects (`Objs`).

There is one module per source file. Day 15's part two as the Rust code is written lives in `Day15AsWritten`.

Code that updates state in place is modelled as classes with `modifies` clauses: `Grid`, `LevelBitmap`, `Level`, `ShrunkPath`, `StackStack64`, `PathMap`, day 24's `Circuit`, day 17's `Computer`, day 19's `Solver` and day 21's robots. Loops are modelled as methods with invariants. Each method is proved against a specification function, and the meaning of that function is proved in lemmas. For example, the search engine is proved to return a shortest or cheapest walk over open floor, and day 9's compaction keeps every file's blocks.

A panic of the Rust code becomes a precondition: an unchecked index, a full fixed-size stack, an `unwrap` of a missing value. For example, the searches require `max_depth` to be at most `MAX_MOVES` (10240), the moves a `ShrunkPath` holds, because round `depth` pushes a path of `depth + 1` moves. Input parsing by regular expression or `split` is replaced by already-parsed parameters, except where the parse itself is the logic (level text, day 23's links, day 13's machines, day 24's lines).

## Model

| member | source | states |
|---|---|---|
| Vectors.Distance | src/vector.rs:11-41 | the Manhattan distance is zero exactly between equal points |
| Vectors.AddSubInverse | src/vector.rs:17-22 | subtracting a vector undoes adding it, and the other way round |
| Vectors.RotationsInverse | src/vector.rs:29-34 | `rotl` undoes `rotr`, four right turns are the identity, and two are negation |
| Vectors.DoubleIsScale | src/vector.rs:23-37 | `double`, `mul(2)`, `scale_by(2)` and v + v agree |
| Vectors.ToIndexInGrid | src/vector.rs:63-65 | inside a width by height grid the index is below width * height and different points get different indices |
| Moves.FromU8 | src/path.rs:45-53 | None exactly for a byte that is not 1, 2, 4 or 8; otherwise the move with that code |
| Moves.FromU8Unchecked | src/path.rs:38-44 | the move whose code is n (any other n panics and is excluded) |
| Moves.FromCharUnchecked | src/path.rs:62-70 | each arrow character gives its own direction |
| Moves.CodesRoundTrip | src/path.rs:11-53 | decoding a move's code gives the move back |
| Moves.RotationFacts | src/path.rs:14-61 | rotating left undoes rotating right, two right turns reverse, reversing twice is the identity, and the vectors turn with the moves |
| Moves.AddDirAsWrittenDisplacement | src/vector.rs:45-47 | as written, `add_dir` moves Up one step right, Right one step down, and leaves Down and Left where they are |
| Moves.AddDir | src/vector.rs:48-53 | the intended one-step move lands at distance 1 |
| Moves.AddDirReverse | src/vector.rs:48-53 | a step then the reverse step returns to the start, and a step always moves |
| Moves.AddDir2 | src/vector.rs:55-62 | `add_dir2` is two steps in the same direction, at distance 2 |
| Grids.XYArithmetic | src/grid.rs:10-27 | subtracting undoes adding, negation is its own inverse and cancels a point, and subtraction is adding the negation |
| Grids.Grid.constructor | src/grid.rs:43-49 | `new`: a w by h grid of zero bytes |
| Grids.Grid.Get | src/grid.rs:62-67 | None exactly outside the grid; inside, the byte at (x, y) |
| Grids.Grid.GetUnchecked | src/grid.rs:68-70 | inside the grid, the same byte `get` gives |
| Grids.Grid.Put | src/grid.rs:71-77 | `put` writes only inside the grid and says whether it did; every other cell is unchanged |
| Grids.Grid.Find | src/grid.rs:78-88 | exactly the cells holding the value, in row-major order |
| Grids.Grid.FindFn | src/grid.rs:89-99 | exactly the cells whose byte satisfies f, in row-major order |
| Objs.FromChar | src/obj.rs:10-17 | '#' and only '#' reads as a wall (other characters than the three panic and are excluded) |
| Objs.ToChar | src/obj.rs:18-24 | every object writes as one of the three characters, and only a wall as '#' |
| Objs.CharRoundTrips | src/obj.rs:10-24 | writing back a read character gives it again, and reading a written object gives the object |
| Words.BvInt | src/level.rs:56-73 | a bit number below 64 converts to a word and back unchanged |
| Words.IncSmall | src/level.rs:56-73 | adding one to a small word adds one |
| Words.BitNo | src/level.rs:56-73 | a bit number is below 64 |
| Words.BvInjective | src/level.rs:56-73 | different bit numbers are different words |
| Words.SetLeavesOtherMasks | src/level.rs:56-61 | setting bit k leaves the mask of every other bit |
| Words.ClearLeavesOtherMasks | src/level.rs:62-67 | clearing bit k leaves the mask of every other bit |
| Words.SameMaskedBit | src/level.rs:68-73 | words equal under bit j's mask agree on bit j |
| Words.SetLeavesOtherBits | src/level.rs:56-61 | setting bit k leaves every other bit |
| Words.ClearLeavesOtherBits | src/level.rs:62-67 | clearing bit k leaves every other bit |
| Words.SetBitIsSet | src/level.rs:56-61 | setting bit k sets it |
| Words.ClearBitIsClear | src/level.rs:62-67 | clearing bit k clears it |
| Words.ZeroWord | src/level.rs:49-55 | a zero word has no bit set |
| StackStack.StackStack64.constructor | src/stackstack.rs:17-24 | `new`: an empty stack |
| StackStack.StackStack64.Push | src/stackstack.rs:25-29 | `push` stores the word on top, one deeper, and leaves every other word (a full stack panics and is excluded) |
| StackStack.StackStack64.Pop | src/stackstack.rs:30-34 | `pop` gives the top word and is one shallower (an empty stack panics and is excluded) |
| StackStack.StackStack64.Len | src/stackstack.rs:35-37 | the depth never exceeds 320 |
| StackStack.StackStack64.Clear | src/stackstack.rs:38-40 | `clear` empties the stack |
| StackStack.PushThenPop | src/stackstack.rs:25-34 | `pop` after `push(d)` gives d back and restores the depth and the words below |
| Path2.FromU8Unchecked | src/path2.rs:26-32 | the move whose code is n (a code above 3 panics and is excluded) |
| Path2.FromU8 | src/path2.rs:33-41 | None exactly for a byte above 3; otherwise the move with that code |
| Path2.Move2Facts | src/path2.rs:17-81 | the turns undo each other and four make a full turn, the codes round-trip, and `as_move` keeps the direction, its vector and its turns |
| Path2.KeyPushMisplaces | src/pathnodemap.rs:123-128 | as written, a key push puts the deer on a different cell from the one the recorded move leads to |
| Path2.MoveFacts | src/path.rs:87-95 | `as_move2` then `as_move` gives the move back |
| Path2.CalcScore | src/path2.rs:202-215 | 1 for going straight on, 1001 after a quarter turn either way, 2001 after a reversal (the panic branch never happens) |
| Path2.CalcScoreSymmetric | src/path2.rs:202-215 | turning from m0 to m costs what turning from m to m0 does |
| Path2.CodeOfBits | src/path2.rs:178 | decoding two bits as a byte is decoding them as bits |
| Path2.Bits | src/path2.rs:117-134 | a move's code fits in two bits |
| Path2.FromBits | src/path2.rs:178 | decoding two bits gives the move whose code they are |
| Path2.SlotIndex | src/path2.rs:117-134 | a slot number is below 32 |
| Path2.SlotIndexOrder | src/path2.rs:117-134 | slot numbers keep their order as words |
| Path2.SlotIndexNext | src/path2.rs:117-134 | the next slot number is one more |
| Path2.Slot | src/path2.rs:176-178 | a slot holds a two-bit code |
| Path2.OrBelow | src/path2.rs:133-135 | OR-ing a code into slot k leaves the slots below it unchanged |
| Path2.OrAt | src/path2.rs:133-135 | OR-ing a code into an empty slot stores it there and keeps the slots above empty |
| Path2.FreshWord | src/path2.rs:129 | a code pushed alone sits in slot 0 with nothing above it |
| Path2.Decode | src/path2.rs:173-182 | decoding n moves gives n moves |
| Path2.DecodePrefix | src/path2.rs:173-182 | words past those a path occupies do not change it |
| Path2.DecodeNewWord | src/path2.rs:127-129 | at a 32-move boundary a move pushed as a new word is appended to the path |
| Path2.DecodeOrWord | src/path2.rs:130-136 | otherwise a move OR-ed into the first empty slot is appended, and the slots above stay empty |
| Path2.OrWordAt | src/path2.rs:130-136 | the move OR-ed in is read back at its place |
| Path2.OrWordAbove | src/path2.rs:130-136 | the slots above the one written stay empty |
| Path2.OrWordKeeps | src/path2.rs:130-136 | the moves before the one written are read back unchanged |
| Path2.ShrunkPath.constructor | src/path2.rs:97-102 | `new`: the empty path |
| Path2.ShrunkPath.Clone | src/path2.rs:88 | `clone` copies the count and the words into new storage, holding the same path |
| Path2.ShrunkPath.Room | src/path2.rs:127-129 | a valid path below the limit has room for one more word when it needs one |
| Path2.ShrunkPath.Len | src/path2.rs:106-108 | `len` is the number of moves in the path |
| Path2.ShrunkPath.ClearAsWritten | src/path2.rs:103-105 | as written, `clear` resets only the count |
| Path2.ShrunkPath.Clear | src/path2.rs:103-105 | the intended reset leaves the empty path |
| Path2.ShrunkPath.WriteCode | src/path2.rs:126-152 | writing a code 0 to 3 appends its move to the path |
| Path2.ShrunkPath.StartWord | src/path2.rs:127-129 | at a 32-move boundary the code is pushed as a new word and its move appended |
| Path2.ShrunkPath.OrIntoWord | src/path2.rs:130-136 | otherwise the code is OR-ed into its slot and its move appended |
| Path2.ShrunkPath.Push | src/path2.rs:126-138 | `push(m)` appends m to the path |
| Path2.ShrunkPath.PushU8 | src/path2.rs:139-152 | `push_u8` appends the move of a code 0 to 3; any byte is OR-ed in |
| Path2.ShrunkPath.AppendPath | src/path2.rs:153-167 | `append_path` appends every move of the path, in order |
| Path2.ShrunkPath.ToPath | src/path2.rs:173-182 | `to_path` reads back exactly the moves pushed |
| Path2.ShrunkPath.Score | src/path2.rs:183-201 | `score` is the path's length plus the turn cost of each consecutive pair |
| Path2.ShrunkPath.FromPath | src/path2.rs:109-125 | `from_path` packs a path whose `to_path` gives it back |
| Path2.ShrunkPath.PackWords | src/path2.rs:110-118 | the loop pushes every full word and keeps the last partial word aside |
| Path2.PackDone | src/path2.rs:119 | pushing the last partial word completes the packing of the path |
| Path2.PackStep | src/path2.rs:112-118 | each turn of the loop packs one more move |
| Path2.PackStepNewWord | src/path2.rs:113-117 | at a word boundary the loop closes the word and starts the next |
| Path2.StepNewWord | src/path2.rs:113-117 | closing a word and starting the next appends the move |
| Path2.StepSameWord | src/path2.rs:117 | OR-ing the move into the current word appends it |
| Path2.PairCostOf | src/path2.rs:188-199 | the loop adds the turn cost of each consecutive pair |
| Path2.ScoreVersusWalkCost | src/path2.rs:183-201 | `score` counts one more per move than the search's walk cost, less the first move when the walk starts facing it |
| Path2.WalkCostBounds | src/path2.rs:183-201 | a walk costs at least its length and at most 2001 per move |
| Path2.ClearThenPushAsWritten | src/path2.rs:103-138 | as written, clearing a one-move path and pushing Up reads back Right |
| Path2.ClearThenPush | src/path2.rs:103-138 | with the full reset the same calls read back Up |
| Levels.IntOrSign | src/level.rs:427-429 | The bitwise OR of two's complement words is negative exactly when one of the words is negative, which is why the OR of four differences can serve as a bounds test. |
| Levels.SignOrInBoundsAgrees | src/level.rs:427-429 | For coordinates whose differences fit in `i32`, the sign-OR test of `vector_in_bounds` accepts exactly the points of the w by h rectangle. |
| Levels.SetBitAtFacts | src/level.rs:56-61 | Setting the bit of v in the bitmap rows sets that point's bit and leaves the bit of every other addressable point unchanged. |
| Levels.ClearBitAtFacts | src/level.rs:62-67 | Clearing the bit of v clears that point's bit and leaves the bit of every other addressable point unchanged. |
| Levels.SameBitSamePoint | src/level.rs:56-73 | Two points with the same row, the same 64-bit word and the same bit number are the same point, so the word/bit layout is injective. |
| Levels.LevelBitmap.constructor | src/level.rs:49-55 | `LevelBitmap::new`: both sizes must fit in a byte (the `try_into().unwrap()`); every point of the new bitmap reads as clear. |
| Levels.LevelBitmap.Clone | src/level.rs:42 | The derived `clone`: a fresh bitmap with the same sizes and bits. |
| Levels.LevelBitmap.SetV | src/level.rs:56-61 | `set_v`: afterwards `get_v(v)` holds and every other point reads as before. |
| Levels.LevelBitmap.ClearV | src/level.rs:62-67 | `clear_v`: afterwards `get_v(v)` is false and every other point reads as before. |
| Levels.CellObj | src/level.rs:266-285 | A level character reads as a wall exactly when it is `#`; the start and end marks lie on open floor. |
| Levels.FirstRepeatUnique | src/level.rs:270-280 | Once the first repeated mark is an S, no E can be the first repeated mark, so the error `from_str` reports is determined. |
| Levels.NoRepeat | src/level.rs:270-280 | A mark that occurs at most once in the text is never reported as repeated. |
| Levels.ScanAppend | src/level.rs:266-286 | Reading a character that is not a repeated mark appends its object to the cell data and records the position of a start or end mark. |
| Levels.ScanRepeat | src/level.rs:270-280 | Reading a start (end) mark when one was already found is the first repeat, and the scan fails with the duplicate-start (duplicate-end) error. |
| Levels.RepeatIsError | src/level.rs:270-280 | The first repeated mark in the flattened text decides which duplicate error the scan returns. |
| Levels.ScanToFacts | src/level.rs:257-291 | Every prefix of the scan, up to any readable position, is sound: either the error of a first repeat or the cells and marks read so far. |
| Levels.ScanStepSound | src/level.rs:266-286 | Reading one more character keeps the scan sound. |
| Levels.ReadNoRepeat | src/level.rs:270-280 | A character the scan reads without error is not a repeated mark. |
| Levels.ScanComplete | src/level.rs:257-291 | A scan that gets through the whole text has w * h cells, has seen no repeated mark, and has found each of S and E exactly as often as it recorded a position for it. |
| Levels.ScannedCell | src/level.rs:266-286 | Once every line is read, the object of cell (x, y) sits at index x + y * w and is the object of the character in row y, column x. |
| Levels.Level.constructor | src/level.rs:319-329 | The level record built at the end of `from_str`, holding exactly the given fields and an empty wall list. |
| Levels.Level.VectorInBounds | src/level.rs:427-429 | `vector_in_bounds`, the sign-OR test, agrees with the plain comparison `vector_in_bounds_orig` wherever the subtractions fit in `i32`. |
| Levels.Level.InBoundsIndex | src/level.rs:190-192 | For a point inside the level, the index `x + y * w` used by `get_obj_at_pt` is inside the cell data. |
| Levels.Level.GetObjAtPtChecked | src/level.rs:202-208 | Points outside the level read as wall; points inside read their cell. |
| Levels.Level.ForceVectorInBounds | src/level.rs:433-440 | A point inside is unchanged; for a non-empty level the result is inside, and it is at least as near as v to every point of the level. |
| Levels.Level.HasSpaceAt | src/level.rs:451-453 | `has_space_at` is defined only on addressable bitmap points; while the bitmap matches the level it holds exactly where there is no wall. |
| Levels.Level.InWallPts | src/level.rs:402-404 | While the wall list matches the level, a point is in it exactly when its cell is a wall. |
| Levels.Level.FromStr | src/level.rs:250-332 | `from_str`: each error is returned exactly when its condition holds. A repeated S or E is reported at its first repeat, then a missing mark, then a level narrower or lower than 3. On success the size, cells, start, end and deer are those of the text. |
| Levels.Level.ScanLines | src/level.rs:257-291 | The loop over lines stops with the error of the first repeated mark. Otherwise it has read the whole text: w * h cells, each cell's object in place, and marks counted. |
| Levels.Level.ScanLine | src/level.rs:266-286 | One line read character by character ends in the scan state `ScanTo` gives for the end of the line, or in the error of a repeat within it. |
| Levels.PathPointsFacts | src/level.rs:454-463 | The visited points of a path number one more than its moves; they start at the start point, end where the walk ends, and each follows from the one before by that step's move. |
| Levels.PathPointsSnoc | src/level.rs:454-463 | Extending the path by one move appends exactly the new end point to the visited points. |
| Levels.Level.GetPathPts | src/level.rs:454-463 | `get_path_pts` returns exactly the points `PathPoints` visits from the start. |
| Levels.Level.InitLevel | src/level.rs:333-354 | `init_level`: afterwards both the wall list and a fresh bitmap match the level's walls, and cells, deer, start and end are unchanged. |
| Levels.Level.WallBitmap | src/level.rs:345-353 | The second scan of `init_level`: a fresh bitmap in which a point's bit is set exactly when its cell is a wall. |
| Levels.Level.ListWalls | src/level.rs:335-343 | The first scan of `init_level`: every wall listed, nothing else listed, in strict row-major order (so each once). |
| Levels.AsU8 | src/level.rs:32-33 | `as u8` on an `i32` keeps the value modulo 256 and leaves byte values unchanged. |
| Levels.CmpDataFromData | src/level.rs:30-36 | `CmpData::from_data` stores the score, and stores the deer exactly when it lies in the byte range. |
| Levels.SpLevel.FromLevel | src/level.rs:114-120 | `from_level`: a valid byte-sized state with score 0; a level that fits in a byte keeps its size, and a deer in the byte range keeps its position. |
| Levels.SpLevel.GetDeerPos | src/level.rs:161-164 | A valid state's deer lies in the byte range. |
| Levels.SpLevel.SetDeerPos | src/level.rs:155-160 | `set_deer_pos` keeps the size and score and validity, and a point in the byte range reads back unchanged. |
| Levels.SpLevel.GetObjAtPt | src/level.rs:134-145 | The base cell with the deer drawn on open floor: it reads Deer exactly on open floor under the deer, and Wall exactly on a base wall; a base deer cell panics, so it is excluded. |
| Levels.SpLevel.GetObjAtPtNodeer | src/level.rs:146-154 | The base cell, which is never a deer. |
| Levels.SpLevel.GetObjAtPtChecked | src/level.rs:165-172 | With the sign-OR test against the state's own size, points outside read as wall and points inside as `get_obj_at_pt`. |
| Levels.SpLevel.GetObjAtPtNodeerChecked | src/level.rs:173-180 | As `get_obj_at_pt_checked`, but inside points read as `get_obj_at_pt_nodeer`. |
| PathNodeMaps.UnstackSnoc | src/pathnodemap.rs:237-240 | The last code pushed on the collecting stack is popped first, so it becomes the first move read back. |
| PathNodeMaps.BacktraceMoves2 | src/pathnodemap.rs:219-241 | `backtrace_moves2`: the path gains exactly the moves of the node's trace (from the start to node pni), in forward order, after the moves it had. |
| PathNodeMaps.CollectMoves | src/pathnodemap.rs:222-235 | The collecting loop stacks valid move codes which, read from the top, are exactly the trace of node pni. |
| PathNodeMaps.CollectStep | src/pathnodemap.rs:224-231 | Stacking node j's move carries it from the part of the trace still to read to the codes already stacked; the concatenation is unchanged. |
| PathNodeMaps.CollectLast | src/pathnodemap.rs:226-229 | The move of node 0, stacked last, comes first in the path read back. |
| PathNodeMaps.LinkedBackward | src/pathnodemap.rs:101-107 | A list the flood builds has node 0 as its own parent and each later node's parent earlier, so the backtrace ends. |
| PathNodeMaps.ClosedGrows | src/pathnodemap.rs:86-115 | A node whose open neighbours are all in the list stays so as the list grows. |
| PathNodeMaps.HasPt | src/pathnodemap.rs:96-98 | The duplicate check: it finds a node exactly when some node stands at the point. |
| PathNodeMaps.NodesInBytes | src/pathnodemap.rs:93-94 | Every node lies in the byte range, so the `u8` deer position can hold it. |
| PathNodeMaps.ExpandNode | src/pathnodemap.rs:88-109 | Expanding one tail node keeps the list linked and duplicate-free, only appends to it, puts the new nodes in the next round's tail, and leaves every open neighbour of that node in the list. |
| PathNodeMaps.HandledAll | src/pathnodemap.rs:91-109 | Once each of the four moves has been handled, the node's open neighbours are all in the list. |
| PathNodeMaps.AppendNode | src/pathnodemap.rs:100-107 | Appending a new node for an open neighbour not yet in the list keeps it linked and distinct, and adds exactly that point. |
| PathNodeMaps.Flood | src/pathnodemap.rs:145-181 | The rounds of `complete_map_solve`: the nodes are distinct and linked to earlier ones, every open neighbour of every node is a node, and the count, at most w * h + 1, fits the `u16` node indices. |
| PathNodeMaps.PtsCard | src/pathnodemap.rs:96-98 | Because of the duplicate check, the list holds as many points as nodes. |
| PathNodeMaps.NodeCount | src/pathnodemap.rs:104-106 | The flood holds at most w * h + 1 nodes. |
| PathNodeMaps.SizeBound | src/pathnodemap.rs:104-106 | For a level smaller than 256 by 256, w * h + 1 is below 65536, so `nodes.len() as u16` never truncates. |
| PathNodeMaps.TraceWalks | src/pathnodemap.rs:193-215 | With the intended `add_dir`, the trace of a node walks from the start through open cells and ends at that node. |
| PathNodeMaps.FloodReachesAll | src/pathnodemap.rs:145-181 | With the intended `add_dir`, every cell an open walk from the start reaches is a node of the finished flood. |
| PathNodeMaps.FloodExact | src/pathnodemap.rs:145-181 | With the intended `add_dir`, the flood's nodes are exactly the cells reachable from the start by open walks. |
| PathNodeMaps.FloodOneWay | src/pathnodemap.rs:156 | As written, every node lies right of or below the start (coordinates at least the start's), because `add_dir` moves only +x or +y or not at all. |
| PathNodeMaps.FloodMissesLeft | src/pathnodemap.rs:156 | As written, the cells left of and above the start are never reached, even when open. |
| PathNodeMaps.PathNodeMap.constructor | src/pathnodemap.rs:26-30 | A node map holding the given nodes and key moves. |
| PathNodeMaps.PathNodeMap.BacktraceMoves | src/pathnodemap.rs:193-215 | `backtrace_moves`: the path gains exactly the trace of node pni, in forward order. |
| PathNodeMaps.PathNodeMap.ApplyKeyPushes | src/pathnodemap.rs:186-192 | One new map per key move, in order, each fresh and equal to the base map with that key push applied. |
| PathNodeMaps.PathMap.constructor | src/pathnodemap.rs:41-52 | `PathMap::new`: a zero-sized level, an empty path, score 0 and flag clear. |
| PathNodeMaps.PathMap.FromLevel | src/pathnodemap.rs:53-60 | `new_from_level`: the compact view of the level, an empty path, score 0 and flag clear. |
| PathNodeMaps.PathMap.FromParts | src/pathnodemap.rs:32-38 | A map holding the given level, path, score and flag. |
| PathNodeMaps.PathMap.Clone | src/pathnodemap.rs:32 | The derived `clone`: the same level, score and flag, and an independent copy of the path with the same moves. |
| PathNodeMaps.PathMap.ToPnm | src/pathnodemap.rs:61-73 | `to_pnm`: a fresh node map holding only the deer's cell, with no move and no key moves. |
| PathNodeMaps.PathMap.CompleteMapSolve | src/pathnodemap.rs:145-181 | `complete_map_solve`, with `add_dir` as written: a fresh node map without key moves whose nodes are linked and distinct and closed under open neighbours. |
| PathNodeMaps.PathMap.CompleteSolve2 | src/pathnodemap.rs:74-117 | `complete_solve_2` floods the same node list, with the same properties. That list is then dropped, and `maps_out` is not touched. |
| PathNodeMaps.PathMap.ApplyKeyPush2 | src/pathnodemap.rs:119-131 | `apply_key_push_2`: a fresh copy whose deer is moved to the `add_dir` cell (as written) of the key node. Its path is extended by that node's trace and the key move. Score and flag are kept. |
| PathNodeMaps.PathMap.NewByApplyingKeyPush | src/pathnodemap.rs:132-144 | `new_by_applying_key_push`: the same, for the nodes of a node map. |
| PathNodeMaps.PushMove | src/pathnodemap.rs:128 | Pushing a move on a path below the limit appends exactly that move. |
| PathNodeMaps.KeyPushWalk | src/pathnodemap.rs:119-131 | With the intended `add_dir`, the moves a key push adds to the path walk from the deer's old cell to its new one. |
| Solve.WalkSnoc | src/level.rs:454-463 | A walk one move longer ends one `apply_dir` step further. |
| Solve.Neighbours | src/solve.rs:180-181 | The four neighbours of a point inside the walled area can be addressed in the bitmap, so `has_space_at` does not panic, and distinct moves reach distinct neighbours. |
| Solve.AllMovesCodes | src/solve.rs:180 | `ALLMOVES2` lists Up, Right, Down and Left in that order. |
| Solve.Expand18 | src/solve.rs:179-214 | Expanding an edge node of `find_best_path_18`: each open neighbour ends up held with a score at most one above this node's. A new neighbour is inserted, a dearer one is overwritten, and every inserted or overwritten node is queued. |
| Solve.Relax18 | src/solve.rs:180-204 | The filter: a neighbour already held is lowered only when this path is cheaper. The open neighbours not held yet are returned in `ALLMOVES2` order. |
| Solve.Lower18 | src/solve.rs:189-199 | A held neighbour reached more cheaply takes this path and score and is queued; otherwise it is left alone. |
| Solve.Insert18 | src/solve.rs:206-214 | Each open neighbour not held yet is inserted with this path plus its move and score plus one, and is queued. |
| Solve.Visited18 | src/solve.rs:164-214 | After a visit, the held nodes and the queue are sound walks, the visited point is closed (its open neighbours are held no dearer than one more), and every changed node is queued. |
| Solve.NextLayer18 | src/solve.rs:162-222 | Before round `depth`, every point that a walk of at most `depth` moves reaches is visited or queued. |
| Solve.Exhausted18 | src/solve.rs:162 | Once the queue is empty, every point reachable over open floor has been visited. |
| Solve.Record18 | src/solve.rs:166-177 | The first end-point visit recorded is a shortest walk; later ones are kept only when shorter, or added when as short. |
| Solve.Round18 | src/solve.rs:164-221 | One round visits every queued node and queues, for the next round, exactly the nodes its visits insert or lower; the state between rounds is preserved. |
| Solve.Visit18 | src/solve.rs:164-214 | A visit records the node as a solution when it is at the end and no recorded one is cheaper, then expands it. |
| Solve.Advance18 | src/solve.rs:215-218 | At the end of a round, walks of `depth` moves reach only visited or newly queued points. |
| Solve.Dry18 | src/solve.rs:162 | When the queue runs dry before the round limit, every walk to the end has been recorded: a solution exists whenever the end is reachable. |
| Solve.Tie18 | src/solve.rs:173-175 | Another walk to the end as short as the recorded ones joins them. |
| Solve.Start18 | src/solve.rs:158-161 | Before the first round only the deer's point is held and queued, with score 0 and the empty path. |
| Solve.FindBestPath18 | src/solve.rs:151-234 | `find_best_path_18`: a result is a shortest walk over open floor from the deer to the end, shorter than `max_depth`, with the cells `get_path_pts` lists for it. `max_depth_hit` is set exactly when all `max_depth` rounds ran. A search that stops before that finds the end whenever it is reachable; no result means every walk to the end has at least `max_depth` moves. `max_depth` is at most 10240, as a longer path overflows the `ShrunkPath` stack. |
| Solve.RoundAny18 | src/solve.rs:250-303 | A round of `find_any_path_18`: as a round of `find_best_path_18`, except that the first queued node at the end point is recorded and ends the search. |
| Solve.FindAnyPath18 | src/solve.rs:237-315 | `find_any_path_18`: a result is a shortest walk to the end, shorter than `max_depth`, with no visited cells and `max_depth_hit` set; no result means every walk to the end has at least `max_depth` moves. `max_depth` is at most 10240, as a longer path overflows the `ShrunkPath` stack. |
| Solve.CoversPrefixes | src/level.rs:454-463 | `get_path_pts` lists the end point of every prefix of the path. |
| Solve.WalkCostSnoc | src/path2.rs:173-185 | One more move costs 1 plus 1000 per quarter turn from the direction faced so far. |
| Solve.CoversPathPoints | src/solve.rs:87-120 | A cell list that holds the cells `get_path_pts` lists covers the path. |
| Solve.ChildSound16 | src/solve.rs:70-73 | A sound node's move onto open floor gives a sound node. Its score is the walk cost and its cells cover the longer path. |
| Solve.InsertSorted | src/solve.rs:102-104 | Inserting into a strictly sorted list keeps it strictly sorted, and its elements become the old ones plus v. |
| Solve.SortDedup | src/solve.rs:102-104 | `append`, `sort` and `dedup`: the result is strictly sorted and has exactly the input's elements. |
| Solve.SortedUnique | src/solve.rs:102-104 | Two strictly sorted lists with the same elements are equal, so the merged cell list does not depend on the order its parts were gathered in. |
| Solve.Meet16 | src/solve.rs:84-116 | A held neighbour key: a cheaper arrival takes the node over with its own path and cells and is queued. An equally cheap arrival with some new cell merges the cells (sorted, without repeats), keeps the held path, and is queued. Anything else changes nothing; no other key changes. |
| Solve.MergePts | src/solve.rs:100-104 | The merged cell list is the sorted, repeat-free union of the held cells and the new path's cells. The flag says whether any cell of the new path was missing from the held ones. |
| Solve.ExpandSound16 | src/solve.rs:70-129 | What an expansion holds and queues is sound when what it started from is. |
| Solve.Lower16 | src/solve.rs:84-116 | The filter's step for one held key, keeping the bookkeeping: every change is a child or a grown node, and every lowered score is queued. |
| Solve.Relax16 | src/solve.rs:74-118 | Held keys are met as in `Meet16`; the open neighbours whose keys are not held are returned in `ALLMOVES2` order. |
| Solve.Insert16 | src/solve.rs:116-123 | Each open neighbour whose key is not held yet is inserted with this path plus its move, its walk cost and its path's cells, and is queued. |
| Solve.Place16 | src/solve.rs:116-123 | One new key inserted with its path's cells and queued. |
| Solve.Expand16 | src/solve.rs:70-129 | Expanding a node of `find_best_path_16`: every open neighbour's key ends up held with a score no worse than through this node. Scores only go down, and every inserted or lowered node is queued with its new score. |
| Solve.RelaxKeep16 | src/solve.rs:53-129 | After a visit, the relaxed keys are those left alone, plus the visited key when its queued score was its held one. |
| Solve.CoverKeep16 | src/solve.rs:53-129 | After a visit, every held key is relaxed or still queued. |
| Solve.BestKeep16 | src/solve.rs:57-67 | A cheaper arrival at the end replaces the recorded solutions; an equally cheap one joins them. |
| Solve.Visit16 | src/solve.rs:53-129 | A visit records the node when it is at the end and no recorded solution is cheaper, then expands it. |
| Solve.Round16 | src/solve.rs:49-128 | One round visits every queued node; what its visits insert, lower or reach with new cells is queued for the next round. |
| Solve.Exhausted16 | src/solve.rs:50 | With nothing queued, every key a walk over open floor ends in is held no dearer than that walk. |
| Solve.Optimal16 | src/solve.rs:50 | With nothing queued, the recorded solutions are at least as cheap as every walk from the deer to the end. |
| Solve.Start16 | src/solve.rs:46-49 | Before the first round only the deer's key is held and queued, with score 0, the empty path and the deer's cell. |
| Solve.FindBestPath16 | src/solve.rs:29-138 | `find_best_path_16`: a result is a walk over open floor from the deer to the end, scored by its cost (1 per move plus 1000 per quarter turn), with `max_depth_hit` false. Its cells cover a walk to the end no dearer than it. When the queue empties within the round limit, a result is a cheapest walk and no result means the end is unreachable. `max_depth` is at most 10240, as a longer path overflows the `ShrunkPath` stack. |
| Solve.NoWalk18 | src/solve.rs:223-233 | With no solution when the queue runs dry or the round limit is reached, every walk to the end has at least `max_depth` moves. |
| Day01.SplitColumns | src/day01.rs:7-17 | the numbers at even reading positions form the left column and those at odd positions the right one, in order, with lengths ceil(n/2) and floor(n/2) |
| Day01.Evens | src/day01.rs:11-17 | the left column as a value: element i is input number 2i |
| Day01.Odds | src/day01.rs:11-17 | the right column as a value: element i is input number 2i+1 |
| Day01.Sort | src/day01.rs:20-21 | `sort` yields an ascending sequence holding exactly the same numbers (multiset) |
| Day01.SortedUnique | src/day01.rs:20-21 | two ascending sequences with the same multiset are equal, so the sorted column depends only on which numbers it holds |
| Day01.DistanceSumZero | src/day01.rs:24 | the sum of `abs_diff`s of two equally long sequences is zero iff they are equal |
| Day01.DistanceSumPrefix | src/day01.rs:24 | only the first |a| entries of the right column enter the part-one sum |
| Day01.TotalDistance | src/day01.rs:24 | the loop computes the sum over i of |a[i] - b[i]|; the right column must be at least as long as the left, as `b[i]` is indexed for every i |
| Day01.PartOneZero | src/day01.rs:20-24 | part one is zero exactly when the two columns hold the same numbers |
| Day01.CountOccurrences | src/day01.rs:33-44 | the map's keys are exactly the numbers of the right column and each value is that number's multiplicity |
| Day01.SimilarityScore | src/day01.rs:47-52 | the loop computes the similarity score: each left number times the number of times it occurs on the right, summed |
| Day01.SimilarityAppendRight | src/day01.rs:33-52 | one more right-column number y raises the score by y times its multiplicity on the left |
| Day01.SimilaritySymmetric | src/day01.rs:47-52 | the similarity score does not depend on which column is the left one |
| Day01.Solve | src/day01.rs:1-56 | both answers: the distance sum of the two sorted columns and the similarity score, from an even count of numbers |
| Day02.IsSafe | src/day02.rs:7-37 | the early-exit scan answers true iff every adjacent pair differs, moves in the direction fixed by the first two levels, and by at most 3 |
| Day02.SafeIsMonotone | src/day02.rs:7-37 | a report is safe iff it is strictly rising or strictly falling with steps of at most 3 |
| Day02.Without | src/day02.rs:49-50 | `v.remove(i)`: one element shorter, the same before i and shifted down by one after it |
| Day02.CreateVariants | src/day02.rs:46-54 | one variant per level, variant i being the report with level i removed |
| Day02.IsTolerated | src/day02.rs:57-69 | the per-report test of part two answers true iff the report is safe or some one-level-removed variant is |
| Day02.SafeAtMostTolerated | src/day02.rs:40-70 | every safe report is tolerated, so part two never counts fewer than part one |
| Day02.Solve | src/day02.rs:1-75 | `safe` counts the safe reports and `safe2` the tolerated ones, and `safe <= safe2`; reports need two levels, and a report of exactly two levels that is not safe makes its variants panic at `r[1]` |
| Day04.Window | src/day04.rs:19-37 | a window is four cells read from (x, y) in its direction, starting with the cell at (x, y) |
| Day04.Reverse | src/day04.rs:12-13 | the letters in reverse order (SAMX is XMAS backwards) |
| Day04.Tally | src/day04.rs:20-21 | adding one for a window equal to XMAS and one for a window equal to SAMX counts the window once if it reads XMAS forwards or backwards, and never twice |
| Day04.Tallied | src/day04.rs:18-40 | the two tallies of a fitting window equal `Found`, the forwards-or-backwards test |
| Day04.FoundGuarded | src/day04.rs:18-36 | the bounds tests `x < w-3`, `y < h-3`, `x >= 3` admit exactly the windows that fit inside the grid |
| Day04.CountAt | src/day04.rs:17-40 | one pass of the inner loop adds the XMAS count of the windows that fit at (x, y) |
| Day04.PartOne | src/day04.rs:10-42 | the part-one count is the number of in-grid windows, in the four directions, that read XMAS forwards or backwards |
| Day04.PartTwo | src/day04.rs:55-68 | the part-two count is the number of interior A cells whose two diagonals each read M-A-S one way or the other |
| Day05.InvalidPairIsReversedRule | src/day05.rs:20-27 | `invalid_pair(a, b)` holds exactly when the reversed rule b\|a exists and the pages differ |
| Day05.IsOrdered | src/day05.rs:35-38 | the `f \|= invalid_pair` scan reports an update ordered iff no adjacent pair is invalid; an update needs a page because `u.len()-1` is taken |
| Day05.Failed | src/day05.rs:30-41 | the kept updates are updates of the input that are not ordered |
| Day05.PartOne | src/day05.rs:29-46 | `sum` is the sum of the middle pages of the ordered updates, and the failed list holds the others in input order |
| Day05.InsertTail | src/day05.rs:57-62 | inserting one page into the sorted prefix, moving it left past every page it must precede and stopping at the first it need not, keeps the pages (multiset) and adds one |
| Day05.SortPages | src/day05.rs:57-62 | the insertion sort `sort_by` performs on an update reorders its pages without adding or losing any (multiset) |
| Day05.InsertTailOrdered | src/day05.rs:20-62 | with consistent rules, inserting into an ordered prefix leaves it ordered, and the last page is the inserted one or the old last one |
| Day05.SortPagesOrdered | src/day05.rs:57-62 | with consistent rules, the reordered update breaks no rule |
| Day05.PartialRulesExample | src/day05.rs:57-62 | when the rules leave pairs unordered the result depends on the algorithm: rules 2\|1 and 1\|3 sort [1,2,3] to [2,1,3], whose middle page is 1 |
| Day05.PartTwo | src/day05.rs:51-68 | `sum2` is the sum of the middle pages of the failed updates after `sort_by` |
| Day05.Solve | src/day05.rs:1-73 | both sums: the middle pages of the ordered updates, and those of the failed updates once sorted |
| Day06.Turn | src/day06.rs:89-92 | a right turn (`gd <<= 1`, 16 wrapping to UP) maps a direction bit to a direction bit |
| Day06.TurnCycle | src/day06.rs:12-15 | the turns go UP, RIGHT, DOWN, LEFT and back to UP |
| Day06.TurnBack | src/day06.rs:61-92 | two right turns face the opposite way (`map_dir` negated) |
| Day06.Reaches | src/day06.rs:89-92 | every direction is reached from every other within three turns |
| Day06.Peek | src/day06.rs:72-77 | `peek` gives '!' off the map and the cell's character on it |
| Day06.Next | src/day06.rs:83-100 | one step of the walk keeps the facing a direction bit (leave the map, turn at '#', or step onto '.') |
| Day06.Run | src/day06.rs:80-101 | the guard after n steps is `None` once it has left, and faces a direction while on the map |
| Day06.RunGone | src/day06.rs:80-101 | once off the map the guard stays off |
| Day06.Stepped | src/day06.rs:83-100 | one step from a state: '!' ends the walk, '#' turns in place and marks nothing, and anything else is open floor that the guard enters and marks with its facing |
| Day06.MarkWasState | src/day06.rs:58-97 | every recorded (cell, direction) mark is a state the guard was in |
| Day06.StateIsMarked | src/day06.rs:58-97 | every cell the guard stands on carries a mark |
| Day06.Periodic | src/day06.rs:152-176 | a state that comes back repeats with the same period for ever |
| Day06.Looping | src/day06.rs:168-169 | if the guard is twice in the same state it never leaves the map |
| Day06.OrBit | src/day06.rs:97 | `\|= d` sets bit d and no other, and leaves the high nibble alone |
| Day06.NonZeroBit | src/day06.rs:104-115 | a cell of `visited` is non-zero exactly when some direction bit is set |
| Day06.Blank | src/day06.rs:53-57 | the fresh `visited` table has h rows of w zeros |
| Day06.Record | src/day06.rs:97 | `visited[y][x] \|= d` keeps the table's shape |
| Day06.Recorded | src/day06.rs:97 | recording a mark keeps the table in step with the set of marks plus the new one |
| Day06.BlankMatches | src/day06.rs:53-58 | the table after `visited[gy][gx] = gd` holds exactly the start mark |
| Day06.Seen | src/day06.rs:168 | the test `visited2[y][x] & gd != 0` holds iff (x, y, gd) is already a mark |
| Day06.DirOf | src/day06.rs:26-32 | `^ > v <` decode to the four direction bits |
| Day06.FindGuard | src/day06.rs:18-42 | the first cell in row-major order that is neither '.' nor '#' is the guard's, with its direction decoded |
| Day06.Cleared | src/day06.rs:50 | after `data[gy][gx] = '.'` the map is open floor at the start and otherwise unchanged in shape and alphabet |
| Day06.Patrol | src/day06.rs:79-101 | the part-one walk ends with the guard on the map at step `steps` and off it at step `steps+1`, and `visited` holds exactly the marks of steps 0..steps |
| Day06.PatrolStep | src/day06.rs:83-100 | one turn of the walking loop keeps the patrol invariant, counting a step unless the guard left |
| Day06.PatrolMove | src/day06.rs:94-98 | a step onto open floor stays inside the map and records the cell entered with the current facing |
| Day06.CellsAreStood | src/day06.rs:104-121 | the cells with a non-zero entry in `visited` are exactly the cells the guard stood on |
| Day06.CountStood | src/day06.rs:104 | the part-one count is the number of distinct cells the guard stood on |
| Day06.GridCells | src/day06.rs:113-121 | the site list holds exactly the cells with a non-zero entry, in row-major order |
| Day06.GridCellsDistinct | src/day06.rs:113-121 | the site list has no repeats |
| Day06.Without | src/day06.rs:127 | the candidate sites are the visited cells other than the start |
| Day06.Block | src/day06.rs:135-136 | placing the obstruction `d[y][x] = '#'` keeps the map's height |
| Day06.BlockElsewhere | src/day06.rs:136 | the new obstruction changes only its own cell |
| Day06.Trial | src/day06.rs:138-183 | the walk with loop detection stops, and reports a loop exactly when the guard, left to walk, never leaves the map |
| Day06.TrialTraps | src/day06.rs:132-183 | the trial of a site decides whether an obstruction there traps the guard |
| Day06.OpenStart | src/day06.rs:132-147 | with two ways out of the start cell, any single new obstruction leaves the guard a direction to move in |
| Day06.OpenOffMap | src/day06.rs:72-77 | a side leading off the map stays open whatever cell of the map is obstructed |
| Day06.TrapSet | src/day06.rs:129-184 | the trapping sites among the candidates |
| Day06.TrapStep | src/day06.rs:177-179 | each trapping site adds one to `looped_count` |
| Day06.SitesTrapping | src/day06.rs:113-132 | the sites tried are the cells stood on other than the start, and part two counts those that trap |
| Day06.PartTwo | src/day06.rs:129-185 | `looped_count` is the number of candidate sites where the new obstruction traps the guard |
| Day06.Solve | src/day06.rs:1-187 | part one is the number of distinct cells stood on before leaving; part two the number of those cells, the start excepted, where one more obstruction makes the guard walk for ever |
| Day07.DecimalDigits | src/day07.rs:93-95 | `to_string` writes at least one digit (0 is "0") |
| Day07.DigitsBound | src/day07.rs:93-95 | a number is below 10 to the power of its digit count, the factor the concatenation shifts by |
| Day07.JoinSplits | src/day07.rs:92-96 | the concatenated number splits back into its left part (quotient) and its right part (remainder) |
| Day07.Bit | src/day07.rs:30 | `(op_map >> k) & 1` is 0 or 1 |
| Day07.BitsOf | src/day07.rs:28-36 | the bitmap decodes to one add/multiply code per slot, slot i being bit i |
| Day07.EncodeBits | src/day07.rs:22-26 | every assignment of add/multiply to the slots is some bitmap below 2^slots, so the loop tries all of them |
| Day07.HoldsWithAddMul | src/day07.rs:13-44 | part one accepts a line iff some choice of + and * evaluated left to right gives the target; the extra half of `1 << (num_ops + 1)` re-tries the same maps |
| Day07.ValueBound | src/day07.rs:63-66 | a base-3 operator map is below 3^slots and equals 3^slots - 1 iff every slot is JOIN |
| Day07.ValueInjective | src/day07.rs:63-79 | different operator maps have different base-3 values, so counting visits each map once |
| Day07.CarryDone | src/day07.rs:67-77 | the carry loop ends without a carry, one above the old value, whenever some slot is not JOIN, so the `unexpected carry overflow` panic never fires |
| Day07.IncOpsMap | src/day07.rs:63-79 | `inc_ops_map` returns false and leaves the map alone once every slot is JOIN, and otherwise advances it to the next base-3 value |
| Day07.EvalMap | src/day07.rs:86-99 | the inner loop evaluates the numbers left to right under the operator map (add, multiply, decimal join) |
| Day07.EvalNext | src/day07.rs:87-99 | each number applies its slot's operator to the running result |
| Day07.TriedNext | src/day07.rs:84-105 | after a failed map every map below the next one in counting order has failed, and after the all-JOIN map every map has |
| Day07.NoneHold | src/day07.rs:84-105 | when every map below 3^slots fails, the line cannot hold |
| Day07.HoldsWithJoin | src/day07.rs:50-108 | part two accepts a line iff some choice of +, * and join gives the target |
| Day07.MoreOperators | src/day07.rs:13-44 | part two accepts every line part one accepts |
| Day07.Solve | src/day07.rs:1-114 | the two sums are the targets of the lines that hold with two and with three operators |
| Day07.SumsOrdered | src/day07.rs:46 | part two's sum is at least part one's |
| Day08.PairsWith | src/day08.rs:27 | the first position paired with each later one, in order |
| Day08.PairsSound | src/day08.rs:27 | every pair `combinations(2)` lists is two positions in list order |
| Day08.PairsComplete | src/day08.rs:27 | every two positions in list order are listed as a pair |
| Day08.PairsAreAntennas | src/day08.rs:18-27 | the pairs of found positions are exactly the pairs of distinct antennas of that frequency, each unordered pair once |
| Day08.AddReflections | src/day08.rs:27-35 | the inner loop appends both reflections of every pair: `p0 - d` and `p1 + d` |
| Day08.NodeStep1 | src/day08.rs:17-38 | one more frequency adds exactly that frequency's reflections to the antinodes so far |
| Day08.Antinodes1 | src/day08.rs:14-38 | the list holds exactly the reflections of all same-frequency antenna pairs, on or off the map |
| Day08.InsertSorted | src/day08.rs:41-42 | insertion into a strictly ascending list keeps it strictly ascending and adds just the one point |
| Day08.SortDedup | src/day08.rs:41-42 | `sort` then `dedup` yields a strictly ascending list of the same points |
| Day08.KeepOnMap | src/day08.rs:43 | the `is_valid` filter keeps the on-map points, in order |
| Day08.PartOne | src/day08.rs:40-44 | the part-one count is the number of distinct on-map reflections of antenna pairs |
| Day08.OnMapBetween | src/day08.rs:69-80 | between two map points of a line every lattice multiple is on the map too, so each walk stops at the first off-map point and misses none |
| Day08.StepsBounded | src/day08.rs:69-80 | a walk by a non-zero step leaves the map within w + h steps, so the while loops end |
| Day08.WalkOut | src/day08.rs:69-80 | one while loop pushes start, start + d, start + 2d, ... exactly while they lie on the map |
| Day08.WalkCovered | src/day08.rs:69-80 | the walk from base + c·d holds exactly the map points at multiples k >= c |
| Day08.LinePoints | src/day08.rs:64-80 | the points pushed for one pair are exactly the map points on the lattice line through the two antennas |
| Day08.LineCovered | src/day08.rs:64-80 | both antennas plus the two walks are exactly the map points on their line |
| Day08.OnLineSymmetric | src/day08.rs:62-64 | the line through p and q is the line through q and p |
| Day08.AddLines | src/day08.rs:62-81 | the inner loop for one frequency appends every pair's line points |
| Day08.NodeStep2 | src/day08.rs:52-84 | one more frequency adds exactly its pairs' line points |
| Day08.Antinodes2 | src/day08.rs:49-84 | the list holds exactly the map points on some same-frequency antenna pair's line |
| Day08.PartTwo | src/day08.rs:86-89 | the part-two count is the number of distinct map points on some antenna pair's line |
| Day08.PartOneInPartTwo | src/day08.rs:29-80 | part one's on-map antinodes are part two's too (multiples -1 and 2) |
| Day09.Repeat | src/day09.rs:31 | `iter::repeat(b).take(n)`: n copies of b |
| Day09.ExpandBlocks | src/day09.rs:26-37 | the block loop builds the disk map's expansion: digit 2k gives that many blocks of file k, and odd digits give free blocks |
| Day09.ExpandLength | src/day09.rs:26-37 | the disk is as long as the digits add up to |
| Day09.ExpandCounts | src/day09.rs:26-37 | file k fills exactly as many blocks as digit 2k says |
| Day09.FirstFree | src/day09.rs:41-55 | `position(b == None)` is the first free block, or `None` when there is none |
| Day09.LastFile | src/day09.rs:49-52 | the walk of `last_idx` stops at the last file block at or before its start |
| Day09.SwapKeeps | src/day09.rs:45-46 | moving a file block into a free block keeps the blocks (multiset) |
| Day09.CompactBlocks | src/day09.rs:41-56 | part one's compaction keeps the disk's length and blocks (multiset) and leaves no file block after a free one |
| Day09.ComputeChecksum | src/day09.rs:57-62 | the checksum loop computes the sum of position times id over the file blocks |
| Day09.ChecksumFree | src/day09.rs:58-62 | freeing block i takes exactly i times its id off the checksum |
| Day09.ChecksumTrailingFree | src/day09.rs:58-62 | free blocks at the end do not change the checksum |
| Day09.Segments | src/day09.rs:72-82 | one segment per digit: file k of size digit 2k, then a gap of the next digit's size |
| Day09.BuildSegments | src/day09.rs:72-85 | the segment loop builds those segments and leaves `id` at the highest file id (`MaxId`) |
| Day09.SegmentsFlatten | src/day09.rs:26-37 | the segments expand to exactly part one's blocks, so both encodings describe the same disk |
| Day09.IndexOf | src/day09.rs:88 | `position(s.id == Some(id))`: the first segment of that file, or `None` |
| Day09.FirstFit | src/day09.rs:96 | `position(s.id == None && s.size >= seg.size)`: the first gap big enough, or `None` |
| Day09.Remove | src/day09.rs:93 | `Vec::remove` shortens the list by one |
| Day09.Insert | src/day09.rs:105-112 | `Vec::insert` lengthens the list by one |
| Day09.RemoveAt | src/day09.rs:93 | `remove(i)` keeps the elements before i and shifts the rest down |
| Day09.InsertAt | src/day09.rs:105-112 | `insert(i, x)` puts x at i, keeps what is before and shifts the rest up |
| Day09.PlaceKeeps | src/day09.rs:98-109 | moving a file into a gap, freeing its old place and keeping the leftover gap, keeps the disk size and the file segments |
| Day09.MoveFileKeeps | src/day09.rs:92-113 | one move keeps the disk size and every file's segment count |
| Day09.MoveFileStays | src/day09.rs:110-113 | with no fitting gap to its left the file is put back where it was |
| Day09.MoveFileLeft | src/day09.rs:96-109 | otherwise the file goes into the first gap that fits, and nothing before that gap changes |
| Day09.MoveSegment | src/day09.rs:92-113 | one pass of the loop body, before the merge, computes the move of the file at `seg_idx` |
| Day09.Coalesce | src/day09.rs:115-121 | `coalesce` never lengthens the list and empties it only if it was empty |
| Day09.CoalesceLast | src/day09.rs:115-121 | merging keeps whether the list ends in a gap |
| Day09.CoalesceNoAdjacent | src/day09.rs:115-121 | after merging no two gaps are side by side |
| Day09.CoalesceFlatten | src/day09.rs:115-121 | merging gaps does not change the blocks the segments stand for |
| Day09.CoalesceKeeps | src/day09.rs:115-121 | merging keeps the disk size and the file segments |
| Day09.MovedFrom | src/day09.rs:86-134 | the layout the move loop leaves keeps the disk size and every file's segments (as a multiset), and keeps gaps apart |
| Day09.Turn | src/day09.rs:88-91 | a turn for an id whose file is missing leaves the layout as it is and ends the loop; any turn keeps size, files and separated gaps |
| Day09.Moved | src/day09.rs:92-127 | after a present file's move and merge, and the turns for the lower ids, size and files are kept and no two gaps are side by side |
| Day09.MovedFromStep | src/day09.rs:86-127 | one turn of the loop: for a present file, the rest of the loop starts from the moved-and-merged layout at the next lower id, and at id 0 that layout is the result |
| Day09.StepKeeps | src/day09.rs:92-121 | one move followed by the merge keeps the disk size and the file segments and leaves no two gaps side by side |
| Day09.MoveAndMerge | src/day09.rs:92-121 | one pass of the loop body moves the file at `seg_idx` and merges the gaps, and the loop's remaining turns from its result give the layout the whole loop gives |
| Day09.CompactFiles | src/day09.rs:86-134 | the move loop yields exactly `MovedFrom(segs0, maxId)`: from the highest id down to 0, each file still present moved once into the first gap on its left that fits, gaps merged after every move, a missing id ending the loop; the result keeps the disk size and every file's segments, and keeps gaps apart |
| Day09.SegmentsAlternate | src/day09.rs:72-82 | the initial segments have no two gaps side by side |
| Day09.Solve | src/day09.rs:21-150 | part one: the compacted blocks are a permutation of the expansion with all files in front, and `checksum` is their checksum; part two: `segs` is `MovedFrom(Segments(input), MaxId(input))`, the layout the move loop produces from the disk map, it keeps size and files with no adjacent gaps, and `checksum2` is the checksum of its expansion |
| Day10.Possibles | src/day10.rs:52-55 | the `possibles` filter keeps only neighbours on the grid one height above the current cell, at most one per move |
| Day10.FindPossibles | src/day10.rs:52-55 | the filter loop computes those neighbours in `ALLMOVES` order |
| Day10.PathWalk | src/day10.rs:40-64 | `path_walk` appends to `hike_paths` every hike continuing the path, and adds their end cells to `nines` |
| Day10.WalkEach | src/day10.rs:58-63 | the `for_each` walks each possible next cell with the path extended, appending their hikes in order |
| Day10.WalkNext | src/day10.rs:59-62 | one turn of the `for_each` appends the hikes through the i-th possible cell |
| Day10.HikesViaSnoc | src/day10.rs:58-63 | the hikes through the first i+1 next cells are those through the first i, followed by those through cell i |
| Day10.EndsBound | src/day10.rs:28-29 | a trailhead's set of reached nines is no larger than its list of hikes |
| Day10.EndsAreLast | src/day10.rs:46-47 | the recorded nines are exactly the last cells of the recorded hikes |
| Day10.HikesSound | src/day10.rs:40-64 | every recorded hike continues the path one height step at a time to a 9 |
| Day10.ExtendsBack | src/day10.rs:58-63 | a hike from the extended path is a hike from the path |
| Day10.PossiblesComplete | src/day10.rs:52-55 | every neighbour on the grid one height above is among the possibles |
| Day10.HikesComplete | src/day10.rs:40-64 | every hike continuing the path to a 9 is recorded |
| Day10.HikesViaHas | src/day10.rs:58-63 | a hike through one of the possible cells is among the hikes the `for_each` records |
| Day10.ScoreIsReachableNines | src/day10.rs:25-28 | a trailhead's score counts exactly the 9s some hike from it reaches |
| Day10.ScoreBelowRating | src/day10.rs:28-29 | a trailhead's score is at most its rating |
| Day10.ScoresBelowRatings | src/day10.rs:33-34 | the sum of scores is at most the sum of ratings |
| Day10.Solve | src/day10.rs:7-38 | the trailheads are exactly the 0 cells in reading order, and the answers are the sums of their scores and of their ratings |
| Day11.Digits | src/day11.rs:99 | `to_string`: at least one decimal digit, each below 10 |
| Day11.ParseDigits | src/day11.rs:99-101 | parsing a number's digits gives the number back |
| Day11.DigitsLength | src/day11.rs:59-89 | a number in [10^(k-1), 10^k) has exactly k digits |
| Day11.CountDigitsOddCorrect | src/day11.rs:59-89 | for every u32 the ladder of `count_digits_odd` answers whether the digit count is odd (a u32 has at most ten digits) |
| Day11.HalvesRejoin | src/day11.rs:99-101 | for an even digit count the left half shifted by half the digits, plus the right half, gives the number back |
| Day11.HalvesJoin | src/day11.rs:100-101 | a digit string splits at any point into its left part times a power of ten plus its right part |
| Day11.Blink | src/day11.rs:94-106 | one stone becomes one or two stones: 0 becomes 1, an even digit count splits in half, and anything else is multiplied by 2024 modulo 2^32 |
| Day11.ParseBound | src/day11.rs:100-101 | a parsed digit string is below 10 to its length, so both halves fit in a u32 |
| Day11.BlinkFits | src/day11.rs:94-106 | blinking keeps every stone a u32 |
| Day11.CountIsFlattenLength | src/day11.rs:45-57 | `count_stones` equals the length of `flatten_v` |
| Day11.Leaves | src/day11.rs:31 | the re-planted list has one leaf per stone |
| Day11.FlattenLeaves | src/day11.rs:30-31 | flattening a re-planted list gives it back, so the flattening every fifth blink changes no count |
| Day11.FlattenBlink | src/day11.rs:45-50 | blinking the tree and flattening equals flattening and blinking each stone in order |
| Day11.BlinkListGrows | src/day11.rs:94-106 | a blink never loses a stone |
| Day11.CountNeverDecreases | src/day11.rs:26-27 | the stone count never decreases from one blink to the next |
| Day11.BlinkListFits | src/day11.rs:94-106 | a blink of u32 stones gives u32 stones |
| Day11.BlinksStep | src/day11.rs:24-26 | k + 1 blinks are one more blink of the list after k |
| Day11.BlinkOnce | src/day11.rs:25-32 | one pass of the loop leaves a tree that flattens to the list after b blinks, and counts that list's stones |
| Day11.Plant | src/day11.rs:15-16 | the stones as read flatten to the input list |
| Day11.CountBlinks | src/day11.rs:24-40 | the loop records the stone counts after the `first` and `last` blink counts |
| Day11.Solve | src/day11.rs:13-44 | the answers are the numbers of stones after 25 and 75 blinks |
| Day12.FenceCount | src/day12.rs:137-143 | the fences on the first k sides of a cell number at most k |
| Day12.FenceBitsExact | src/day12.rs:139-142 | starting from an empty cell, a side's bit is set in `fenced_sides` exactly when that side is fenced (off the grid or another crop), and no other bit is |
| Day12.FenceBitsSum | src/day12.rs:142 | or-ing the side bits of the first k sides equals their sum |
| Day12.FencesAppend | src/day12.rs:140-152 | the fence count of two cell lists adds up |
| Day12.CheckSurrounds | src/day12.rs:128-156 | the flood fill from a visited cell appends only new cells of the crop, returns their number as `area` and the fences of the cell and the new cells as `perimeter`, records each such cell's fenced sides, and leaves every region cell's open sides leading to visited cells |
| Day12.VisitSide | src/day12.rs:137-154 | one side of the cell: a fence, a cell already visited, or a new cell of the region filled from |
| Day12.FenceStep | src/day12.rs:139-143 | a fenced side adds one to the perimeter and its bit to the cell |
| Day12.SeenStep | src/day12.rs:145-147 | a side leading to a visited cell changes nothing |
| Day12.FillStep | src/day12.rs:148-153 | a side leading to a new cell adds that cell and everything filled from it, with their fences and bits |
| Day12.NeighbourBack | src/day12.rs:137-138 | the side opposite d leads back |
| Day12.SideAt | src/day12.rs:77-80 | `Grid::get` on the side grid is `Some` exactly on the grid |
| Day12.TableCountsCorners | src/day12.rs:48-64 | the nine-entry table counts, for every mask of four fences, the corners where an upper or lower fence meets a left or right one |
| Day12.CellTable | src/day12.rs:46-66 | each pass's per-cell contributions form a table shaped like the grid |
| Day12.CountCorners | src/day12.rs:44-122 | `count_corners` returns the sum of both passes: the table's corners of every cell plus the convex corners found through diagonal neighbours |
| Day12.PassAt | src/day12.rs:46-66 | the outer loop of either pass sums its rows |
| Day12.RowAt | src/day12.rs:47-65 | the inner loop of either pass sums one row |
| Day12.CellAt | src/day12.rs:48-64 | the loop body at one cell adds that cell's contribution to the pass |
| Day12.ConvexAt | src/day12.rs:72-116 | the second pass's body counts a corner for each kept diagonal whose fence meets the cell's own |
| Day12.DiagonalAt | src/day12.rs:82-94 | a diagonal neighbour's bits are kept only when one of the two cells between is visited |
| Day12.BackInto | src/day12.rs:21-22 | a cell whose same-crop neighbour lies in an earlier region lies there too, since that region is closed |
| Day12.OwnClosed | src/day12.rs:128-156 | the new region's cells are closed among themselves |
| Day12.SidesOfRegion | src/day12.rs:23 | the side grid of one region, started from zeros, holds the fence bits of the region's cells and zero elsewhere |
| Day12.CropRegionsSnoc | src/day12.rs:21-37 | adding a region keeps the earlier ones as they were |
| Day12.NewRegion | src/day12.rs:23-31 | the fill from a spot and `count_corners` make a new region: linked, closed, its perimeter its fences, its corners counted from its side grid |
| Day12.MeasureRegion | src/day12.rs:23-36 | the loop body for an unvisited spot adds one region starting at it, priced area times perimeter and discounted area times corners |
| Day12.CropSpots | src/day12.rs:19 | `grid.find(crop)` lists crop cells, and every crop cell |
| Day12.VisitSpot | src/day12.rs:21-37 | a visited spot is skipped and any other starts a region, keeping the spots so far covered |
| Day12.SolveCrop | src/day12.rs:19-37 | the spots loop splits the crop's cells into regions that cover them, and sums their prices and discounted prices |
| Day12.SolvedSnoc | src/day12.rs:17-38 | one more crop adds its regions and its prices to the totals |
| Day12.Solve | src/day12.rs:8-42 | the totals are the sums, over the regions of every crop A to Z, of area times perimeter and of area times corners |
| Day13.ParseUsize | src/day13.rs:28-35 | `parse::<usize>` succeeds only on an optional '+' and a run of digits whose value is below 2^64, and returns that value |
| Day13.DigitRun | src/day13.rs:32-33 | the run of digits starting at k is maximal |
| Day13.MatchAt | src/day13.rs:32-33 | a match of `X=(\d+), Y=(\d+)` at k spells "X=", the first group, ", Y=" and the second group, each group a non-empty run of digits |
| Day13.Search | src/day13.rs:33 | `captures` finds the leftmost match, and `None` means no position matches |
| Day13.ParseMachine | src/day13.rs:27-36 | a machine parses from a group of three lines only when the third line holds a match |
| Day13.GroupFits | src/day13.rs:21-27 | group g, lines 4g to 4g+2, lies inside the input |
| Day13.ParseTo | src/day13.rs:26-37 | parsing the first g groups gives g machines, or a panic |
| Day13.ParseToExact | src/day13.rs:26-37 | parsing succeeds exactly when every group parses, and machine h is group h's |
| Day13.ParseMachines | src/day13.rs:23-37 | the loop pushes one machine per group, in order, or stops at the first failure |
| Day13.PairInRange | src/day13.rs:44-45 | the nested loops visit every press pair (na, nb) in 1..=100 squared once, in order |
| Day13.CombosToExact | src/day13.rs:44-50 | a combo is pushed exactly for the winning pairs visited so far, with cost 3·na + nb |
| Day13.FindCombos | src/day13.rs:43-50 | the nested loops push every winning pair in range with its cost |
| Day13.MinCost | src/day13.rs:52-55 | the cost of `combos[0]` after sorting by cost is the least cost among the combos |
| Day13.MachineCostIsCheapest | src/day13.rs:43-56 | a machine adds the least price of a winning pair in range, and nothing when no pair in range wins |
| Day13.Part1 | src/day13.rs:39-57 | part one's total is the sum of the machines' least costs |
| Day13.Shift | src/day13.rs:63-65 | every prize moves by 10000000000000 on both axes and the buttons stay |
| Day13.ShiftTargets | src/day13.rs:63-65 | the in-place loop shifts every prize |
| Day13.AcceptedOnlyExact | src/day13.rs:95-101 | a machine adds to part two only when the candidate presses reach the prize exactly, and then adds 3·a + b |
| Day13.Part2 | src/day13.rs:67-102 | part two's total sums the accepted candidates' costs |
| Day13.Solve | src/day13.rs:18-107 | both totals from the parsed machines, with part two's candidate presses given |
| Day14.Rem | src/day14.rs:44-45 | Rust's `%` truncates: the remainder is smaller than the divisor and takes the sign of the dividend |
| Day14.RemNonNegative | src/day14.rs:44-45 | on non-negative operands Rust's `%` and the Euclidean one agree |
| Day14.Normalise | src/day14.rs:28-33 | a negative velocity is replaced by `size + v`, which for v >= -size is a non-negative velocity congruent to v |
| Day14.ReadRobots | src/day14.rs:19-36 | the floor size is the first two numbers, and robot i is read from numbers 2+4i to 5+4i with normalised velocity |
| Day14.Quadrant | src/day14.rs:48-58 | a position is on no quadrant iff it lies on a middle line; otherwise its quadrant records which side of each middle line it is on |
| Day14.EveryRobotOnce | src/day14.rs:42-59 | every robot is counted in exactly one quadrant or on a middle line |
| Day14.InQuadSnoc | src/day14.rs:48-58 | one more robot adds one to its own quadrant and nothing to the others |
| Day14.CountQuads | src/day14.rs:39-61 | the result is the product of the four quadrant counts after 100 steps |
| Day14.AfterIsWrapped | src/day14.rs:28-45 | with a non-negative start and a velocity of at most one floor size backwards, the robot lands where p + 100v does modulo the floor size, inside the floor |
| Day14.Solve | src/day14.rs:15-65 | part one's result is the product of the quadrant counts of the robots read, and 0 with no robot |
| Day15.Put | src/day15.rs:169-170 | `grid.put` keeps the map's shape |
| Day15.LookPut | src/day15.rs:169-170 | after a write, the cell written holds the new byte (when inside the map) and every other cell is unchanged |
| Day15.CountPut | src/day15.rs:169-170 | a write changes the count of a byte by what it adds and what it removes |
| Day15.Push | src/day15.rs:144-173 | `push_boxes` as a value: a successful push keeps the map's shape |
| Day15.PushBoxes | src/day15.rs:144-173 | the recursive push reports success exactly when the value model does, and then leaves its map; on failure nothing is written |
| Day15.PushShape | src/day15.rs:144-173 | a successful push leaves floor where it started, puts what stood there one cell on, touches nothing behind the start or off its row, and keeps every wall |
| Day15.PushKeepsBoxes | src/day15.rs:163-171 | a push never changes the number of boxes |
| Day15.FreeAlongBox | src/day15.rs:163-166 | with a box in front, the row is free from it exactly when it is free from the next cell |
| Day15.FreeAlongHere | src/day15.rs:155-161 | with no box in front, the row is free exactly when that cell is open |
| Day15.PushSucceeds | src/day15.rs:144-173 | a push from an open cell succeeds exactly when the boxes ahead of it end at a free cell |
| Day15.Walk | src/day15.rs:51-60 | part one's walk keeps the map's shape |
| Day15.WalkKeeps | src/day15.rs:51-60 | along the walk the robot stays on floor, the number of boxes stays the same and every wall stays where it was |
| Day15.Cells | src/day15.rs:64 | `grid.find(b)` lists exactly the cells holding b |
| Day15.CellsSorted | src/day15.rs:64 | those cells come in row-major order |
| Day15.SortedSame | src/day15.rs:64 | two row-major lists of the same cells are the same list, so the score does not depend on how the cells are found |
| Day15.Gps | src/day15.rs:64 | the GPS score sums 100·y + x over exactly the cells holding the byte, each once |
| Day15.PartOne | src/day15.rs:44-65 | part one lifts the robot off the map, pushes along each move, moves the robot only after a successful push, and scores the boxes |
| Day15.RowTree | src/day15.rs:188-221 | the left/right scan returns the chain of boxes in the row, starting at the pushed box, when it ends at floor; otherwise some chain of boxes from it is stuck at a wall or the edge |
| Day15.RowBlocked | src/day15.rs:194-201 | the row stops at a wall or the edge right past the last box |
| Day15.PastRightHalf | src/day15.rs:205-218 | the cell two past a box cannot be a right half, so a push right never meets `]` |
| Day15.ColumnTree | src/day15.rs:224-261 | the breadth-first up/down walk returns a list of boxes, starting at the pushed one, each pushed by an earlier one and all free to move; or finds some pushed box blocked |
| Day15.WeightPop | src/day15.rs:225-259 | each turn of the walk makes a well-founded measure of the queue smaller, so the walk ends |
| Day15.Visit | src/day15.rs:226-258 | one turn of the walk pops the head and adds the boxes standing on its two cells, keeping the search invariant |
| Day15.Found | src/day15.rs:244-258 | the boxes found at the two cells a box moves into cover every box half among them |
| Day15.QueueBlocked | src/day15.rs:231-239 | a queued cell that is a wall or off the map blocks the box waiting on it |
| Day15.BoxTreeIsPushable | src/day15.rs:176-262 | pushing into a box half either moves a list of boxes, starting with that box, each pushed by an earlier one and all free to move together, or fails because some box the push reaches is blocked |
| Day15.PushesWithin | src/day15.rs:176-262 | a list that can move holds every box any push from the same cell reaches, and none of those is blocked, so the two outcomes exclude each other |
| Day15.PushesSame | src/day15.rs:176-262 | two lists that can both move hold the same boxes |
| Day15.OutcomesExclude | src/day15.rs:176-262 | a push cannot both succeed and fail |
| Day15.Erase | src/day15.rs:111-114 | erasing the boxes keeps the map's shape |
| Day15.Place | src/day15.rs:116-119 | setting the boxes down keeps the map's shape |
| Day15.EraseAt | src/day15.rs:111-114 | erasing turns exactly the cells of the boxes into floor |
| Day15.PlaceAt | src/day15.rs:116-119 | placing puts a left half where a box arrives and a right half beside it |
| Day15.MoveBoxes | src/day15.rs:109-119 | the move of a pushable tree erases every box of the list, then puts each back one step along the move |
| Day15.EraseBoxes | src/day15.rs:111-114 | the erase loop computes the erased map |
| Day15.PlaceBoxes | src/day15.rs:116-119 | the place loop computes the placed map |
| Day15.MovedLook | src/day15.rs:109-119 | erasing then placing leaves each cell as the boxes' move says |
| Day15.MoveKeeps | src/day15.rs:109-119 | moving a closed list of boxes keeps every box whole and every wall in place; the listed boxes move one step and the others stay |
| Day15.RobotLands | src/day15.rs:120-121 | the robot moves into a cell the pushed boxes left free |
| Day15.StepTwo | src/day15.rs:96-132 | one move of part two as intended (with the corrected `add_dir`): blocked by a wall or the edge, a push of a box tree, or a step onto floor |
| Day15.StepKeeps | src/day15.rs:96-132 | every move keeps the warehouse whole and every wall where it was |
| Day15.SameOutcome | src/day15.rs:106-124 | two lists that can both move leave the same map |
| Day15.StepDetermined | src/day15.rs:96-132 | a move has one outcome, whichever pushable list the walk finds |
| Day15.TraceKeeps | src/day15.rs:96-132 | however many moves the robot makes, the warehouse stays whole, the walls stay and the robot stands on floor |
| Day15.TraceDetermined | src/day15.rs:96-132 | the moves decide the final map and robot |
| Day15.Pair | src/day15.rs:74-80 | each byte becomes two: a box `[]`, the robot `@.`, and floor and walls doubled |
| Day15.Widened | src/day15.rs:72-85 | the widened map is twice as wide with the same rows |
| Day15.Widen | src/day15.rs:72-83 | the loop over the bytes pushes each byte's pair |
| Day15.WidenedLook | src/day15.rs:72-85 | cell x of a widened row is half x % 2 of the old cell x / 2 |
| Day15.WidenedRobot | src/day15.rs:76-90 | the widened map holds the robot only at twice its old column |
| Day15.WidenedPair | src/day15.rs:76 | a `[` of the widened map has its `]` to the right, and only then |
| Day15.WidenedWarehouse | src/day15.rs:85-93 | the widened map with the robot lifted off is a warehouse: boxes whole, every cell floor, wall or half a box, and the robot on floor |
| Day15.ScoresTwoUnique | src/day15.rs:96-137 | the part-two score is a function of the map and the moves |
| Day15.PartTwo | src/day15.rs:69-139 | part two widens the map, lifts the robot, makes every move by the wide rules, and sums the GPS coordinates of the left halves |
| Day15.Solve | src/day15.rs:8-142 | both parts from the same map and moves: part one on the map as read, part two on its widened copy |
| Day15AsWritten.Shifted | src/day15.rs:109 | each cell moved with `add_dir` as written |
| Day15AsWritten.PlaceAsWritten | src/day15.rs:109-119 | the boxes set down at their as-written `add_dir` cells keep the map's shape |
| Day15AsWritten.DownLeftUnchecked | src/day15.rs:98-130 | as written, Down and Left look at the robot's own cell, so the robot steps whatever the next cell holds, even onto a wall |
| Day15AsWritten.OntoWall | src/day15.rs:98-130 | as written, when the looked-at cell is floor and the real next cell a wall, the robot ends on the wall |
| Day15AsWritten.ColumnNeverClears | src/day15.rs:224-259 | as written, while a right half waits in an upward walk's queue the walk never clears |
| Day15AsWritten.UpIntoBoxStalls | src/day15.rs:98-126 | as written, Up looks at the cell to the right; with a box there no box moves and the robot stays put, however long the walk runs |
| Day17.Shr | src/day17.rs:43-45 | the division instructions' `n / 2^k` is never more than n |
| Day17.XorBound | src/day17.rs:57-73 | the xor of two k-bit numbers is a k-bit number, so `bxl` and `bxc` keep registers within 64 bits |
| Day17.XorSelf | src/day17.rs:57-73 | x ^ x == 0 and x ^ 0 == x |
| Day17.Combo | src/day17.rs:88-96 | `get_combo_value`: operands 0 to 3 stand for themselves and 4 to 6 for registers A, B and C (7 panics and is excluded) |
| Day17.HaltedStays | src/day17.rs:32-36 | once the instruction index is past the program, the computer stays halted and unchanged |
| Day17.NextOutput | src/day17.rs:76-80 | one step appends at most one output value, and it is below 8 |
| Day17.OutputGrows | src/day17.rs:76-119 | running only appends to the output, and only values 0 to 7 |
| Day17.NextFits | src/day17.rs:41-84 | one step keeps the registers within 64 bits, given byte operands |
| Day17.RunFits | src/day17.rs:114-119 | any number of steps keeps the registers within 64 bits |
| Day17.Computer.constructor | src/day17.rs:19-26 | `new`: registers, instruction index and output zero, and the program stored |
| Day17.Computer.Reset | src/day17.rs:27-31 | `reset`: registers, instruction index and output back to zero; the program stays |
| Day17.Computer.SetRegisters | src/day17.rs:110-112 | setting the registers changes nothing else |
| Day17.Computer.Step | src/day17.rs:32-87 | `step` returns false and changes nothing once halted; otherwise it executes one instruction (divisions, xors, `bst`, `jnz`, `out`) and returns true |
| Day17.Program | src/day17.rs:107 | the program is every number after the three registers, cut to 8 bits (`u as u8`) |
| Day17.Part1 | src/day17.rs:100-123 | part one's output is what the program prints within a million steps, every value below 8 |
| Day18.BaseCount | src/day18.rs:17 | the base maze takes 1024 bytes, or every byte when fewer pairs were given |
| Day18.Cells | src/day18.rs:21-54 | byte i lands at its coordinates shifted by the frame, strictly inside the framed grid |
| Day18.Border | src/day18.rs:19-25 | every point of the frame is on its ring |
| Day18.BorderRing | src/day18.rs:19-25 | every ring point is in the frame, so the frame walls the grid in completely |
| Day18.PlacedBits | src/day18.rs:20-56 | after setting the bits of some points, a cell is a wall exactly when it was one before or it is one of those points |
| Day18.ClearedBits | src/day18.rs:19 | a new bitmap has no walls |
| Day18.Walls | src/day18.rs:20-23 | every wall set for the base maze is on the bitmap |
| Day18.BaseBits | src/day18.rs:19-28 | a base-maze cell is a wall exactly when it is on the frame or one of the first `count` bytes fell there and it is neither start nor end |
| Day18.ProbeBits | src/day18.rs:52-56 | a probe's cell is a wall exactly when it is a base wall or one of bytes count..=idx fell there |
| Day18.ProbesGrow | src/day18.rs:52-56 | a later probe has every wall an earlier one has |
| Day18.FewerWalls | src/day18.rs:52-57 | a walk over open floor stays a walk when walls are removed |
| Day18.BorderlessPanics | src/day18.rs:19-34 | as written, the unframed start (0, 0) has its first look (0, -1) off the bitmap, so no maze lets the search start safely |
| Day18.StaysIn | src/day18.rs:34-57 | with the frame in place every walk from the start stays inside the grid |
| Day18.WalledEnclosed | src/day18.rs:34-57 | a framed maze lets the searches look around every cell they reach without leaving the bitmap |
| Day18.ProbeWalled | src/day18.rs:52-56 | every probe's maze keeps the frame |
| Day18.BaseWalled | src/day18.rs:19-28 | the base maze keeps the frame |
| Day18.ReachesMonotone | src/day18.rs:44-61 | once a probe blocks the exit, every later probe blocks it too: the property the bisection relies on |
| Day18.FirstBlocked | src/day18.rs:44-61 | the first blocking probe from i on lies between i and the number of bytes |
| Day18.FirstBlockedLeast | src/day18.rs:44-61 | FirstBlocked blocks the exit (unless it is the end), and every probe before it reaches the exit |
| Day18.BracketIsFirst | src/day18.rs:44-61 | a bracket (every probe before it reaches, it blocks or is the end) is exactly the first blocking byte |
| Day18.Settled | src/day18.rs:46-50 | once idx_min and idx_max are adjacent, idx_max is the bracket |
| Day18.ProbeBitmap | src/day18.rs:52-56 | restoring the cached bitmap and setting bytes count..=idx gives the probe's maze |
| Day18.Probe | src/day18.rs:52-57 | a probe's `ok` is true exactly when its maze has a walk from start to end |
| Day18.Bisect | src/day18.rs:38-61 | the bisection ends at the bracket: the first byte after the base whose fall cuts the exit off, or the end |
| Day18.Answer | src/day18.rs:64-68 | "no solution found" exactly when the bisection ends past the last byte; otherwise that byte's coordinates |
| Day18.FrameBitmap | src/day18.rs:19 | a fresh bitmap holding just the frame's walls |
| Day18.PlaceBytes | src/day18.rs:20-23 | the loop adds the first `count` bytes to the frame |
| Day18.BaseBitmap | src/day18.rs:19-40 | the cached bitmap is the base maze |
| Day18.Objects | src/day18.rs:28 | reading the maze's text back gives one object per cell |
| Day18.Solve | src/day18.rs:10-75 | part one is the length of a shortest walk through the base maze; part two names the first byte that cuts the exit off |
| Day19.Pack | src/day19.rs:23-33 | the buffer holds the first min(8, \|p\|) bytes of p and zeros after them |
| Day19.PackInjective | src/day19.rs:16-33 | two patterns of at most eight bytes pack to the same buffer exactly when they are equal, so comparing buffers compares towels |
| Day19.FromSlice | src/day19.rs:23-61 | `from_slice` copies min(8, len) bytes and leaves the rest zero |
| Day19.FromSliceIsPack | src/day19.rs:23-33 | what `from_slice` builds is the packed pattern |
| Day19.Trunc | src/day19.rs:34-44 | `trunc(s)` gives min(8, s) bytes, and for s up to the length they are the buffer's first s bytes |
| Day19.TruncPack | src/day19.rs:34-44 | truncating a packed pattern to i bytes packs its first i bytes |
| Day19.TruncSelf | src/day19.rs:45-50 | `trunc_self(s)` keeps min(len, s) bytes, the buffer's own first bytes, and zeros the rest |
| Day19.FindTp | src/day19.rs:169-172 | a towel is kept exactly when it is listed and starts the pattern |
| Day19.FindAllSoln | src/day19.rs:195-212 | the empty pattern has exactly one layout |
| Day19.AnyIffCount | src/day19.rs:175-212 | `find_any_soln` succeeds exactly when `find_all_soln` is positive |
| Day19.AnyRestIffSum | src/day19.rs:184-210 | some towel's rest can be laid out exactly when the sum over the towels is positive |
| Day19.SumRestCovers | src/day19.rs:206-210 | the sum counts at least the ways for each towel's rest |
| Day19.SumRestPick | src/day19.rs:206-210 | a positive sum has a towel whose rest has a positive count |
| Day19.CountedLayout | src/day19.rs:195-212 | a positive count means the pattern is a concatenation of listed towels |
| Day19.LayoutCounted | src/day19.rs:195-212 | a concatenation of listed towels makes the count positive |
| Day19.Possible | src/day19.rs:175-192 | part one counts a pattern exactly when it can be laid out from the towels |
| Day19.OneLenValue | src/day19.rs:143-159 | the term for one towel is its rest's count when the towel starts the pattern and has the round's length, else 0 |
| Day19.LenSumEmpty | src/day19.rs:143-159 | no towels give no ways |
| Day19.LenSumSplit | src/day19.rs:143-159 | the count by length over one more towel adds that towel's term |
| Day19.SumRestOver | src/day19.rs:200-211 | summing over the towels that start the pattern equals summing over all towels with 0 for the others |
| Day19.SumOverByLength | src/day19.rs:143-159 | summing towel by towel equals summing length by length, for distinct short towels |
| Day19.CountByLength | src/day19.rs:139-161 | the solver's sum over lengths 8 down to 1 equals the recursive count |
| Day19.Packs | src/day19.rs:86 | the solver's towels are the listed towels packed, in order |
| Day19.LengthBits | src/day19.rs:118-128 | after i rounds the lengths byte is below 2^i |
| Day19.Pow2 | src/day19.rs:121 | a power of two is at least 1 |
| Day19.LengthBitsMeaning | src/day19.rs:118-128 | bit j of the byte after i rounds says whether the first i - j bytes form a towel |
| Day19.Solver.constructor | src/day19.rs:85-92 | `new`: the packed towels, in order, and both caches empty |
| Day19.Solver.Lookup | src/day19.rs:93-95 | true exactly when the buffer is one of the towels |
| Day19.Solver.CachedLookup | src/day19.rs:96-106 | the same answer as `lookup`, and the cache now maps the buffer to it |
| Day19.Solver.GetLengths | src/day19.rs:118-128 | the byte whose bit 8 - i says whether the first i bytes form a towel |
| Day19.Solver.CachedGetLengths | src/day19.rs:129-138 | the same byte as `get_lengths`, and the cache now maps the buffer to it |
| Day19.Solver.GetNumCombos | src/day19.rs:139-161 | the number of layouts by the length bits (the Combos function) |
| Day19.Solver.CombosAt | src/day19.rs:144-158 | one round adds 1 when the towel is the whole pattern, the rest's count when it is shorter, else 0 |
| Day19.PrefixShortLookup | src/day19.rs:122-125 | the bit for a length is set exactly when the pattern's first `len` bytes are a towel |
| Day19.CombosCount | src/day19.rs:139-161 | for distinct towels of at most eight bytes the solver's count is the recursive count of layouts (0 for the empty pattern) |
| Day19.ComboSumCount | src/day19.rs:143-159 | the solver's partial sums equal the count by length |
| Day19.ComboTermCount | src/day19.rs:145-158 | each length's term equals the count by length's term |
| Day19.LenSumEmptyPattern | src/day19.rs:147-149 | the empty pattern sets no length bit |
| Day19.CountPossible | src/day19.rs:309-314 | part one counts at most every pattern |
| Day19.SolverTotalWays | src/day19.rs:322-336 | part two's total equals the recursive counts summed |
| Day19.PartOne | src/day19.rs:309-314 | the loop counts the patterns the search lays out |
| Day19.PartTwo | src/day19.rs:322-336 | the loop adds up the solver's counts |
| Day19.Solve | src/day19.rs:247-342 | part one counts the possible patterns; for distinct towels of at most eight bytes, part two is the total number of layouts |
| Day20.IndexFrom | src/day20.rs:50-54 | the first index from i on holding v: it holds v, no earlier index from i does, and None exactly when none does |
| Day20.LandingDistance | src/day20.rs:41-42 | the wall cell is one step from the point, the landing cell two |
| Day20.LandingAhead | src/day20.rs:54-55 | along a path of unit steps the landing point is found at least two places on, so `i2 - i - 2` never underflows |
| Day20.WalkPrefix | src/day20.rs:21-25 | every prefix of a walk over open floor is one too |
| Day20.PathPointsUsable | src/day20.rs:21-25 | the points of the best walk are on the bitmap and follow each other one step at a time |
| Day20.EveryMove | src/day20.rs:40 | the part-one loop tries each of the four moves |
| Day20.UptoCount | src/day20.rs:39-63 | counting point by point and move by move counts the pairs before the current one |
| Day20.ShortCutsAtCount | src/day20.rs:40-62 | the count for one point equals the number of its shortcut moves |
| Day20.ShortCutsCountAll | src/day20.rs:39-63 | the count over the first n points equals the number of shortcut pairs among them |
| Day20.ShortCutsCount | src/day20.rs:39-63 | part one counts exactly the (point, move) pairs that jump one wall onto a later path point at least 100 places on |
| Day20.ShortCutsFrom | src/day20.rs:40-62 | the inner loop counts point i's shortcut moves |
| Day20.PartOne | src/day20.rs:38-63 | the loop's count is the shortcut count over all path points |
| Day20.Saving | src/day20.rs:82-91 | a saving is recorded exactly when the points are at most 20 apart and the cheat saves at least 100; it is the steps skipped |
| Day20.SavingsFromBound | src/day20.rs:81-92 | every saving recorded from one point is at least 100 |
| Day20.SavingsBound | src/day20.rs:80-93 | every recorded saving is at least 100 |
| Day20.SavingsFromCount | src/day20.rs:81-92 | one saving is recorded per cheat from point i |
| Day20.PairedCount | src/day20.rs:80-93 | pairing the cheat ends with their start keeps their number |
| Day20.SavingsCount | src/day20.rs:80-93 | part two records one saving per pair of path points a cheat joins |
| Day20.CheatsSplit | src/day20.rs:80-93 | the cheats from the first n points are those from the first n - 1 plus, disjoint from them, those from point n - 1 |
| Day20.CheatsFrom | src/day20.rs:81-92 | the inner loop appends the savings of the cheats from point i |
| Day20.PartTwo | src/day20.rs:77-93 | `p2count` is the number of savings recorded, each at least 100, and equals the number of cheats |
| Day20.Solve | src/day20.rs:11-106 | both counts are taken over the points of a shortest walk: part one the one-wall shortcuts, part two the cheats of up to 20 steps |
| Day21.NumPos | src/day21.rs:24-39 | every numeric key's cell is on the numeric keypad |
| Day21.DirPos | src/day21.rs:82-91 | every directional key's cell is on the directional keypad |
| Day21.KeyCells | src/day21.rs:24-39 | each key's cell gives the key back, and both kinds of robot start on A |
| Day21.KeypadsInjective | src/day21.rs:24-39 | no two keys of a keypad share a cell |
| Day21.Repeat | src/day21.rs:46-58 | `vec![c; n]` is n copies of c |
| Day21.Sideways | src/day21.rs:47-57 | the horizontal run has one press per column crossed |
| Day21.Upright | src/day21.rs:46-58 | the vertical run has one press per row crossed |
| Day21.WalkAppend | src/day21.rs:40-62 | walking two runs is walking one after the other, and avoiding a gap on both is avoiding it on each |
| Day21.SidewaysWalk | src/day21.rs:47-57 | a horizontal run moves the arm by dx and misses a gap off its segment |
| Day21.UprightWalk | src/day21.rs:46-58 | a vertical run moves the arm by dy and misses a gap off its segment |
| Day21.RunsAreArrows | src/day21.rs:45-59 | both run orders consist only of arrows |
| Day21.NumPathRoute | src/day21.rs:40-62 | robot 1's presses take the arm from its cell to the target without crossing the numeric keypad's gap, then press A |
| Day21.DirPathRoute | src/day21.rs:92-117 | a directional robot's presses take the arm to the target without crossing the directional keypad's gap, then press A |
| Day21.RouteKeys | src/day21.rs:40-62 | every press of a route is a key of the directional keypad |
| Day21.Robot1.constructor | src/day21.rs:63-65 | robot 1 starts on A |
| Day21.Robot1.MoveAndGetPath | src/day21.rs:40-62 | the arm ends on key c, and the presses are a gap-free route to it ending in A |
| Day21.RobotM.constructor | src/day21.rs:79-81 | a directional robot starts on A |
| Day21.RobotM.MoveAndGetPath | src/day21.rs:92-117 | the arm ends on key c, and the presses are a gap-free route to it ending in A |
| Day21.Layer | src/day21.rs:141-143 | relaying keys gives directional presses and leaves the arm on the last key |
| Day21.LayerLength | src/day21.rs:141-143 | each relayed key costs at least one press, and the presses end in A |
| Day21.Relay | src/day21.rs:141-143 | relaying through a robot gives the Layer presses and arm |
| Day21.TypeKey | src/day21.rs:139-145 | typing one key keeps every arm on its keypad |
| Day21.TypeCode | src/day21.rs:138-146 | typing a code keeps every arm on its keypad |
| Day21.CodesPrefix | src/day21.rs:136 | every prefix of the codes is codes, and each code is one line |
| Day21.Complexity | src/day21.rs:135-152 | the complexity sum keeps every arm on its keypad |
| Day21.AddCode | src/day21.rs:148-151 | one more code keeps every arm on its keypad |
| Day21.TimesIsProduct | src/day21.rs:149 | the complexity is the product of length and number |
| Day21.TypeCodeLength | src/day21.rs:138-147 | each key of a code costs at least one press of the outer robot |
| Day21.TypeKeyWith | src/day21.rs:139-145 | the three robots' calls give TypeKey's presses and arms |
| Day21.ComplexityStep | src/day21.rs:136-152 | one turn of the outer loop adds the code's presses times its number, and moves the arms on |
| Day21.ComplexityUnfold | src/day21.rs:136-152 | the complexity of one more code is AddCode of the complexity so far |
| Day21.TypeCodeWith | src/day21.rs:137-146 | the inner loop collects TypeCode's presses and arms |
| Day21.Solve | src/day21.rs:128-156 | part one is the complexity sum over the codes, and part two repeats it |
| Day22.MixPrune | src/day22.rs:8-17 | mixing and pruning leaves a 24-bit number |
| Day22.Round2048 | src/day22.rs:15-17 | the third round leaves a 24-bit number |
| Day22.SecretNumberStep | src/day22.rs:6-19 | the next secret number is a 24-bit number |
| Day22.Round64Low | src/day22.rs:7-9 | the first round depends only on the low 24 bits |
| Day22.StepLow | src/day22.rs:6-19 | the next secret depends only on the low 24 bits of the current one |
| Day22.Iterate | src/day22.rs:36-37 | zero steps leave the number as it is; any step leaves a 24-bit number |
| Day22.Price | src/day22.rs:35-40 | a price is the last decimal digit, 0 to 9 |
| Day22.Secrets | src/day22.rs:36-44 | k steps give k numbers |
| Day22.Prices | src/day22.rs:40-41 | one price per number |
| Day22.PricesAt | src/day22.rs:40-41 | price i is the last digit of number i |
| Day22.Changes | src/day22.rs:42-43 | one change per price |
| Day22.SecretsAt | src/day22.rs:36-39 | number i is the secret after i + 1 steps |
| Day22.ChangesAt | src/day22.rs:35-43 | change i is price i minus the one before, the first against the initial number's price |
| Day22.ChangesBound | src/day22.rs:42 | every change is between -9 and 9, so it fits the Rust `i8` |
| Day22.PricesDigits | src/day22.rs:40 | every price is a digit |
| Day22.PricesSnoc | src/day22.rs:41 | one more number appends its price |
| Day22.ChangesSnoc | src/day22.rs:42-43 | one more price appends its change from the last price |
| Day22.Buyer | src/day22.rs:31-44 | one buyer's 2000 numbers, their prices and their changes |
| Day22.SumLastSnoc | src/day22.rs:48-49 | one more buyer adds their 2000th number to the sum |
| Day22.BuyersOfSnoc | src/day22.rs:45-47 | one more buyer appends their prices and changes |
| Day22.Part1 | src/day22.rs:28-50 | part one is the sum of every buyer's 2000th number, with every buyer's prices and changes kept |
| Day22.BuyersSnoc | src/day22.rs:45-47 | the buyers stay well formed when one is added |
| Day22.FirstMatch | src/day22.rs:65-74 | a match is found among the 1996 windows at or after j |
| Day22.FirstMatchIsFirst | src/day22.rs:65-74 | the window found matches the pattern and none before it does; None means none matches |
| Day22.BuyerPriceNonNegative | src/day22.rs:70-72 | a buyer never pays a negative price |
| Day22.BuyerPrices | src/day22.rs:64-75 | one price per buyer |
| Day22.FirstPrice | src/day22.rs:65-74 | the loop with `break` adds the price at the pattern's first occurrence, or 0 |
| Day22.PatternPrice | src/day22.rs:63-75 | the price of a pattern is the sum over the buyers from `buyer_idx` on |
| Day22.Pattern | src/day22.rs:62 | a candidate pattern has four changes |
| Day22.Consider | src/day22.rs:62-79 | one candidate keeps the best so far up to date |
| Day22.KeepBest | src/day22.rs:76 | a candidate no better than the best leaves it |
| Day22.NewBest | src/day22.rs:76-79 | a strictly better candidate becomes the best |
| Day22.Part2 | src/day22.rs:56-83 | the loops end with the best candidate value and its pattern |
| Day22.NextBuyer | src/day22.rs:59-61 | the best after a buyer's last window is the best before the next buyer |
| Day22.SumSplit | src/day22.rs:64-75 | a sum over buyers splits at any point |
| Day22.SumNonNegative | src/day22.rs:64-75 | a sum of non-negative prices is non-negative |
| Day22.SumZero | src/day22.rs:64-75 | a sum of zeros is zero |
| Day22.ValueAtMostTotal | src/day22.rs:64 | counting from `buyer_idx` on never earns more than counting over every buyer |
| Day22.EarliestBuyer | src/day22.rs:59-64 | a pattern that occurs has a first buyer whose changes contain it |
| Day22.PricesBeforeZero | src/day22.rs:65-74 | buyers whose changes lack the pattern pay nothing |
| Day22.TotalAttained | src/day22.rs:59-80 | the first occurrence of a pattern is priced over every buyer that has it |
| Day22.BestIsBestTotal | src/day22.rs:56-83 | no pattern earns more over all buyers than the best price found, and when that price is positive its pattern earns exactly it |
| Day22.Solve | src/day22.rs:21-88 | part one is the sum of the 2000th numbers; part two's best price is the most any pattern earns over all buyers |
| Day23.Insert | src/day23.rs:16 | inserting into an ordered set keeps it ordered, adds exactly x, and grows it by one unless x was there |
| Day23.Common | src/day23.rs:111 | `intersection` keeps exactly the members in both sets, in order, and is no larger than the first |
| Day23.Link | src/day23.rs:15-18 | adding a link keeps the graph well formed |
| Day23.LinkEdges | src/day23.rs:15-18 | adding a link adds exactly the edge a to b |
| Day23.AddPair | src/day23.rs:14-24 | adding a pair keeps the graph well formed |
| Day23.Built | src/day23.rs:11-25 | the built graph is well formed |
| Day23.LinkedSymmetric | src/day23.rs:14-24 | two computers are paired in the input in either order or not at all |
| Day23.BuiltEdges | src/day23.rs:14-24 | the graph's links are exactly the input pairs, both ways |
| Day23.BuiltSymmetric | src/day23.rs:14-24 | the links are symmetric |
| Day23.Pairs | src/day23.rs:10 | at most one pair per line |
| Day23.BuildGraph | src/day23.rs:11-25 | the loop with its two `get_mut` lookups builds the graph of the pairs |
| Day23.Permutations | src/day23.rs:58 | `permutations(3)` gives six orders, the trio itself among them |
| Day23.PermutationsSymmetric | src/day23.rs:58-59 | being a reordering of each other is symmetric |
| Day23.LinkedPairs | src/day23.rs:51-54 | the pairs kept are exactly the `combinations(2)` of the links whose first member links to the second |
| Day23.FindTrios | src/day23.rs:40-65 | every recorded trio is linked all round; none repeats an earlier one in another order; every three computers linked all round, two of them distinct, are recorded in some order |
| Day23.CoveredGrows | src/day23.rs:56-64 | recording more trios keeps what was covered before, and the step just taken covers its candidate |
| Day23.TriangleCovered | src/day23.rs:43-65 | a triangle is found from its first corner, since the other two are among its links |
| Day23.AppendTrio | src/day23.rs:58-63 | recording a trio none of whose orders was recorded keeps the trios linked and unrepeated |
| Day23.TTrios | src/day23.rs:67-68 | exactly the trios with a member whose name starts with 't', in order |
| Day23.MembersDiffer | src/day23.rs:58-59 | two trios of distinct computers that are not reorderings of each other have different members |
| Day23.TTriosCount | src/day23.rs:67-74 | the trios with a 't' member stand for as many distinct sets of computers |
| Day23.NoRepeatsPrefix | src/day23.rs:59-62 | dropping the last trio keeps the trios unrepeated |
| Day23.TSetsSnoc | src/day23.rs:67 | one more trio adds its members' set when it has a 't' member |
| Day23.FreshMembers | src/day23.rs:59-62 | the last trio's members differ from every earlier trio's |
| Day23.ReorderedMembers | src/day23.rs:58 | a reordering has the same members |
| Day23.TrioIsTriangle | src/day23.rs:67 | a recorded trio with a 't' member is a triangle with one |
| Day23.TriangleIsTrio | src/day23.rs:67 | a covered triangle with a 't' member is the set of some recorded trio |
| Day23.TrioSets | src/day23.rs:40-68 | the recorded trios with a 't' member are exactly the triangles with one |
| Day23.TTriosAreTTriangles | src/day23.rs:40-74 | part one counts the triangles with a 't' member, in graphs without self links |
| Day23.TestSet | src/day23.rs:93-94 | a computer with its links, in order |
| Day23.Reduction | src/day23.rs:108-123 | the reducing pass stays within the test set, in order, and counts at most the members it visits |
| Day23.Reduce | src/day23.rs:108-123 | the reducing loop gives the Reduction set and count |
| Day23.TestMembers | src/day23.rs:111 | every member of a test set has a node, so `unwrap` never panics |
| Day23.LargestSet | src/day23.rs:89-132 | the loops keep the first accepted set of largest size, in order |
| Day23.BoundedStep | src/day23.rs:107-131 | after one pass the best set bounds every accepted set so far |
| Day23.BoundedWeaker | src/day23.rs:125 | a larger bound still bounds |
| Day23.Advance | src/day23.rs:124-130 | one pass replaces the best only by a strictly larger accepted set |
| Day23.NextKey | src/day23.rs:91-107 | after the lowest threshold the next computer starts at the top one |
| Day23.Join | src/day23.rs:135 | joining two-letter names with commas gives 3n - 1 characters |
| Day23.Solve | src/day23.rs:9-139 | part one counts recorded trios with a 't' member, which is the number of such triangles in graphs without self links; part two is the largest accepted set |
| Day24.FromStr | src/day24.rs:28-35 | reading an operation's name gives the operation with that name (any other text panics and is excluded) |
| Day24.ToString | src/day24.rs:36-42 | every operation is written as AND, OR or XOR |
| Day24.FromToString | src/day24.rs:28-42 | reading back a written operation gives the operation |
| Day24.TruthTable | src/day24.rs:43-49 | AND is true only on two trues, OR false only on two falses, XOR is OR without AND, and each is symmetric |
| Day24.Update | src/day24.rs:61-65 | `update` sets only the value, and only when there was none |
| Day24.FirstWriteWins | src/day24.rs:61-65 | a second update changes nothing: the first value written stays |
| Day24.BlankSet | src/day24.rs:135-138 | setting a wire's value leaves the circuit's shape as it was |
| Day24.UnsetSet | src/day24.rs:113 | setting a gate's value leaves the gates' shape as it was |
| Day24.Find | src/day24.rs:94-102 | the index found holds the id; None means no wire has it |
| Day24.FindFrom | src/day24.rs:94-102 | the index found from i on holds the id; None means none from i on has it |
| Day24.FindFirst | src/day24.rs:94-102 | no index before the one found holds the id |
| Day24.IdsLength | src/day24.rs:80 | one id per wire |
| Day24.ClosedGate | src/day24.rs:109-115 | in a closed circuit each gate's input and output wires are found, so the `unwrap`s never panic |
| Day24.Visit | src/day24.rs:108-117 | one gate of a sweep changes only values |
| Day24.PassFrom | src/day24.rs:107-119 | a sweep changes only values |
| Day24.PendingSet | src/day24.rs:113 | giving a pending gate a value leaves one gate fewer pending |
| Day24.VisitCount | src/day24.rs:108-117 | each evaluation counted is one pending gate fewer, and a gate not evaluated changes nothing |
| Day24.PassCount | src/day24.rs:106-119 | a sweep's count is the number of gates it took out of pending |
| Day24.Settle | src/day24.rs:103-122 | `run_calculation` changes only values |
| Day24.GrowsTrans | src/day24.rs:103-122 | values kept over two steps are kept over both |
| Day24.ShapeSizes | src/day24.rs:103-122 | the same shape means the same wires and ids, and the same gates apart from their values |
| Day24.ValueGrows | src/day24.rs:61-65 | a wire that has a value keeps it |
| Day24.VisitGrows | src/day24.rs:108-117 | one gate's visit keeps every value already there |
| Day24.PassGrows | src/day24.rs:107-119 | a sweep keeps every value already there |
| Day24.SettleGrows | src/day24.rs:103-122 | `run_calculation` evaluates each gate at most once: values already there stay |
| Day24.ConsistentGrows | src/day24.rs:108-116 | gates evaluated from their inputs keep the circuit consistent |
| Day24.VisitConsistent | src/day24.rs:108-117 | one gate's visit keeps each evaluated gate's value op(a, b) of its inputs |
| Day24.PassConsistent | src/day24.rs:107-119 | a sweep keeps the circuit consistent |
| Day24.SettleConsistent | src/day24.rs:103-122 | after `run_calculation` every evaluated gate holds op(a, b) of its input wires |
| Day24.IdleSweep | src/day24.rs:105-121 | a sweep that evaluates nothing changes nothing, and every pending gate from there on lacks an input |
| Day24.SettleStuck | src/day24.rs:103-122 | after `run_calculation` every gate without a value has an input without one |
| Day24.LeTotal | src/day24.rs:131-132 | any two ids compare one way or the other |
| Day24.LeTrans | src/day24.rs:131-132 | the id order is transitive |
| Day24.Selected | src/day24.rs:128-129 | exactly the wires whose id starts with c, in list order |
| Day24.Insert | src/day24.rs:131-132 | stable insertion adds exactly one index |
| Day24.Sort | src/day24.rs:131-191 | sorting permutes the indices |
| Day24.ConsSorted | src/day24.rs:131-132 | an index no greater than the rest heads a sorted list |
| Day24.InsertFrom | src/day24.rs:131-132 | every other index of the insertion came from the list |
| Day24.InsertSorted | src/day24.rs:131-132 | insertion keeps the list sorted |
| Day24.InsertNoDup | src/day24.rs:131-132 | insertion of a new index keeps the list free of duplicates |
| Day24.SortProperties | src/day24.rs:131-132 | the sort is sorted and free of duplicates |
| Day24.Order | src/day24.rs:128-132 | the order permutes the wires whose id starts with c |
| Day24.OrderProperties | src/day24.rs:128-132 | the order lists every wire starting with c exactly once, in ascending id order |
| Day24.Pow2 | src/day24.rs:146 | a power of two is at least 1 |
| Day24.BitsValueHead | src/day24.rs:135-193 | a number's low k + 1 bits are its lowest bit plus twice the low k bits of the rest |
| Day24.BitsValueOf | src/day24.rs:135-193 | a number below 2^k is its k low bits |
| Day24.SetBits | src/day24.rs:134-139 | setting bits changes only values |
| Day24.SetBitsAt | src/day24.rs:134-139 | the m-th wire of the order gets bit m, and every other wire is unchanged |
| Day24.SetInputs | src/day24.rs:123-140 | `set_input` changes only values |
| Day24.NumberOfBits | src/day24.rs:193 | reading wires holding the bits of x gives x's low bits |
| Day24.NumberBound | src/day24.rs:193 | reading k wires gives a number below 2^k |
| Day24.InputBits | src/day24.rs:123-140 | the m-th x wire gets bit m of x and the m-th y wire bit m of y |
| Day24.InputRoundTrip | src/day24.rs:123-140 | after `set_input(x, y)` reading the x wires gives x and the y wires y, when they fit |
| Day24.Read | src/day24.rs:187-194 | reading the wires starting with c gives a number below 2 to the number of them |
| Day24.Circuit.constructor | src/day24.rs:85-90 | `new`: no wires and no gates |
| Day24.Circuit.VisitGate | src/day24.rs:108-117 | one gate of a sweep, as Visit |
| Day24.Circuit.RunCalculation | src/day24.rs:103-122 | `run_calculation` leaves the circuit settled |
| Day24.Circuit.Sweep | src/day24.rs:106-119 | one sweep over the gates in order, as PassFrom, with its count |
| Day24.Circuit.SetBitsOf | src/day24.rs:134-139 | one loop of `set_input` sets the bits along one order and leaves the gates |
| Day24.Circuit.SetInput | src/day24.rs:123-140 | `set_input` (its `assert!`s as requires) gives the x wires x's bits and the y wires y's, gates unchanged |
| Day24.Circuit.GetOutput | src/day24.rs:187-194 | the z wires in ascending id order read as a number below 2 to their count |
| Day24.Circuit.GetInputX | src/day24.rs:195-202 | the x wires read as a number below 2 to their count |
| Day24.Circuit.GetInputY | src/day24.rs:203-210 | the y wires read as a number below 2 to their count |
| Day24.Circuit.TestRow | src/day24.rs:141-186 | `test_row` as written: the outcome of four trials run one after another on the same circuit, which is left with the last trial's values |
| Day24.Circuit.AddLine | src/day24.rs:235-268 | one gate line attaches the gate to its wires and appends it |
| Day24.Circuit.Clear | src/day24.rs:141-186 | clearing takes every value off, keeping the shape |
| Day24.Circuit.TestRowFresh | src/day24.rs:141-186 | `test_row` as intended: each of the four trials judged on the bare circuit |
| Day24.Circuit.FreshOutput | src/day24.rs:148-151 | one fresh trial reads the z wires of the settled circuit |
| Day24.PowAdd | src/day24.rs:146 | 2^(i + j) == 2^i * 2^j |
| Day24.Pow2Monotone | src/day24.rs:146 | powers of two grow with the exponent |
| Day24.Pow2Limit | src/day24.rs:125-146 | for row <= 44, n = 1 << row passes `set_input`'s range check |
| Day24.Window | src/day24.rs:153-181 | `(r >> row) & 0x03` is below 4 |
| Day24.ShrPow | src/day24.rs:153 | shifting m * 2^k right by k gives m |
| Day24.Trial | src/day24.rs:148-151 | a trial changes only values and keeps the circuit closed |
| Day24.RowState | src/day24.rs:141-186 | the circuit `test_row` leaves behind has the shape it was given |
| Day24.ShapeTwice | src/day24.rs:141-186 | clearing twice is clearing once |
| Day24.SettleDone | src/day24.rs:103-122 | a circuit whose gates all have values is left as it is |
| Day24.SetInputsKeeps | src/day24.rs:123-140 | `set_input` touches only the x and y wires |
| Day24.NumberSame | src/day24.rs:193 | wires with the same values read the same number |
| Day24.SetInputsRead | src/day24.rs:123-140 | `set_input` leaves the z reading as it was |
| Day24.StaleRow | src/day24.rs:141-186 | as written, when the first trial gives every gate a value, every row fails: the later trials read the first one's output again |
| Day24.WindowOnes | src/day24.rs:153-183 | the sums 0, n and n + n have windows 0, 1 and 2 |
| Day24.JudgeSums | src/day24.rs:153-185 | readings that are the sums pass the row |
| Day24.FreshJudged | src/day24.rs:141-186 | the fresh outcome judges the four fresh readings |
| Day24.AdderRowPasses | src/day24.rs:141-186 | with fresh trials, a circuit that adds the row's bits passes it |
| Day24.CoversAt | src/day24.rs:241-256 | every gate names wires that exist |
| Day24.CoversWider | src/day24.rs:241-256 | more wires still cover the gates |
| Day24.NamedClosed | src/day24.rs:241-265 | a circuit whose gates name existing wires is closed |
| Day24.IdsSnoc | src/day24.rs:245-255 | a pushed wire appends its id |
| Day24.IdsSetGates | src/day24.rs:243-248 | adding to a wire's output gates leaves the ids |
| Day24.AttachIds | src/day24.rs:242-251 | attaching a gate to a wire keeps the ids and makes that wire present |
| Day24.EnsureIds | src/day24.rs:252-256 | the output wire is present afterwards, and no id is lost |
| Day24.AddGateNamed | src/day24.rs:235-268 | a gate line keeps every gate naming existing wires |
| Day24.LoadFromKeeps | src/day24.rs:234-270 | loading keeps gates naming wires, and never moves, renames or clears the initial wires |
| Day24.AddGateKeeps | src/day24.rs:235-268 | one gate line keeps both |
| Day24.Unloaded | src/day24.rs:222-228 | the initial wires, in order, with no gates |
| Day24.Described | src/day24.rs:219-270 | the loaded circuit is closed |
| Day24.GatesFrom | src/day24.rs:258-265 | one gate per line |
| Day24.GatesFromAt | src/day24.rs:258-265 | gate g is the one line g describes |
| Day24.AppendStep | src/day24.rs:258 | appending a gate then the rest is appending them all |
| Day24.LoadFromGates | src/day24.rs:234-270 | loading appends the lines' gates to the ones there |
| Day24.DescribedGates | src/day24.rs:219-270 | the loaded gates are the lines' gates, in order, without values |
| Day24.NoneEvaluated | src/day24.rs:259 | gates without values are all pending and trivially consistent |
| Day24.AddWiresLeads | src/day24.rs:241-256 | attaching a gate keeps the initial wires leading the list |
| Day24.LoadedWires | src/day24.rs:241-256 | attaching gates only appends wires or extends their output lists |
| Day24.Part1 | src/day24.rs:273-277 | part one reads the z wires of the loaded circuit after `run_calculation` |
| Day24.Load | src/day24.rs:219-270 | the loading loops build the circuit the input describes |
| Day25.BlockCountExact | src/day25.rs:9-26 | block b is read exactly when its last line, 8b + 6, is within the input |
| Day25.ColumnCount | src/day25.rs:12-18 | a column's count over n rows is at most n |
| Day25.Heights | src/day25.rs:10-18 | five heights, each at most 5 |
| Day25.ColumnHeights | src/day25.rs:10-18 | the nested loop fills `deets` with the number of '#' in each column of the five middle rows |
| Day25.EachOnce | src/day25.rs:19-25 | every schematic becomes either a lock or a key |
| Day25.Schematics | src/day25.rs:9-27 | the loop files the schematics topped by '#' as locks and the rest as keys, in order |
| Day25.FitsPair | src/day25.rs:32-42 | a pair is counted exactly when no column sum exceeds 5 |
| Day25.FitCountIsPairs | src/day25.rs:29-44 | the count is the number of (key, lock) pairs that fit |
| Day25.PairsSplit | src/day25.rs:30-44 | the pairs of all keys are those of all but the last plus, disjoint from them, the last key's |
| Day25.FitRowIsRow | src/day25.rs:31-43 | one key's count is the number of locks it fits |
| Day25.CountFits | src/day25.rs:29-44 | the loops count FitCount |
| Day25.Solve | src/day25.rs:4-50 | `day25` counts the key and lock pairs that fit |
| Day25.SchematicsShape | src/day25.rs:10 | every key and lock has five heights |

## Left out

- Printing, timing (`crate::time`, the progress counters `depth` and `t` of day 19's `get_num_combos`), thread pools and `main.rs`: I/O with no effect on the answers. src/main.rs, src/day03.rs and src/day16.rs are not part of this model.
- Reading the input: regular-expression and `split` parsing is replaced by already-parsed parameters (numbers, lines split into fields). The level text (`Level::from_str`), day 23's `ab-cd` links, day 13's machine blocks, day 24's gate lines and day 25's schematics keep their parsing.
- Integer widths: `usize`, `u16`, `u32`, `u64` and `i32`/`isize` are unbounded here, except where the width is the logic: the 64-bit bitmap words, day 11's `u32` stones, day 17's 64-bit registers (`Fits`), day 22's 24-bit prune, the `as u8` casts of `CmpData`, and the `i32` sign test of `vector_in_bounds`.
- Day11.Blink: the `* 2024` wraps modulo 2^32 as a release build does; a debug build panics on the overflow instead.
- Overflow panics of debug builds elsewhere (sums that exceed their integer type) are not modelled; sums are unbounded.
- Levels.Level.FromStr: it requires text that `from_str` either reads to the end or stops in at a first repeated mark. A line of the wrong width or a stray character before that point panics in `from_str` (an out-of-range index or the `unwrap` of `Obj::from_char`) and is excluded.
- `Level::from_file`, `to_string` (of `Level` and `LevelBitmap`), `to_level`, `get_obj_at_idx`, `set_obj_at_pt`, `set_obj_at_idx`, `set_obj_at_pt_checked`, `get_vslice`, `get_hslice`, `get_level_width`, `get_level_height`, `clear_deer`, `place_deer`, `strip_sprites`, `eq_data`, `in_wall_pts8` and `vector_in_bounds8` (src/level.rs): file I/O, display, or helpers that no modelled code path calls. The `VectorSm` type of the last two is not part of this model. `have_win_condition` is modelled as a predicate without a contract.
- Display and conversion helpers: `Vector::to_usize`, `to_string`, `is_valid`, `Move::to_xy`, `to_string` (src/vector.rs); `XY::new`, `is_valid`, `to_string` and `Grid::has_xy` (src/grid.rs); `Move::to_vector_sm`, `Move::to_string` (src/path.rs); `Move2::to_vector_sm`, `to_string` and `ShrunkPath::to_string` (src/path2.rs).
- `Vector::apply_dir` is not part of this model's sources: it is modelled as adding the move's unit vector. `StackStack16` and `StackStack8` are not part of this model: they are modelled by their effect, as sequences of node indices and move codes.
- Solve.Enclosed: `has_space_at` has no bounds check (src/level.rs:451-453). The searches therefore require that every cell reachable from the deer has its four neighbours inside the bitmap, which a walled level gives. A level open at its edge panics there.
- Solve.FindBestPath16: a cheapest result, and no result meaning no walk, are stated only when the queue empties within `max_depth` rounds (the ghost `exhausted`). Otherwise only soundness is stated. The visited cells are stated to cover a walk to the end no dearer than the result, not to be exactly the cells of all cheapest walks. That the start and end are among them follows only for a deer standing on the start.
- Solve: the ordered `BTreeMap` of nodes is a Dafny `map`, and the order in which the equal-score solutions of `find_best_path_16` are found is not pinned; the contracts hold for any order.
- Day05.SortPages: it models `sort_by` as the insertion sort (`insert_tail`) that Rust's standard library runs on slices of at most 20 elements. Longer updates go through the library's merge-based sort, which is not modelled. Its result is proved to break no rule only when the rules are consistent (`Consistent`); for rules that order only some pairs, `PartialRulesExample` shows the result depends on the algorithm.
- Day06.Solve: it takes the guard's start and a step bound by which the guard leaves the map as ghost parameters. It requires that two of the start's four neighbours are open or off the map (`TwoWaysOut`), so one new obstruction cannot trap the guard on the spot; the puzzle's inputs satisfy this.
- Day09.Solve: part one's checksum is pinned only to some compacted permutation of the blocks, for the reason the next line gives; part two's checksum is fixed exactly.
- Day09.CompactBlocks: it states that the blocks are a permutation of the input and are compacted (no free block before a file block). It does not state which free block each file block moves to, so the contract alone does not fix the part-one checksum.
- Day13.Solve: part two's `f64` line intersection is not modelled. The candidate press counts it computes are a parameter, and the model checks and prices them exactly as the code does.
- Day15.PartOne: it requires exactly one robot `@` on the map. The code takes the first match, `grid.find(b'@')[0]` (src/day15.rs:45), and a single robot is the puzzle's input format. `move_robot` also assumes that the map holds only '.', 'O' and '#' besides the robot (src/day15.rs:152, 161).
- Day15.PartTwo: it models the move with the intended `add_dir`; the walk as written is `Day15AsWritten` (see Findings).
- Day17: part two (src/day17.rs:125-173), a search for a register value that is only printed, is not modelled; `day17` returns `(0, 0)`.
- Day18.Solve: it runs the searches on the grid framed by a ring of wall, the behaviour the code evidently intends. As written the unframed search panics (see Findings). It requires a walk of fewer than 1000 moves, since `day18` unwraps the result.
- Day19: `get_valid_steps`, `test_pattern` and `get_lengths_slow_reveresed` are never called and are left out. `tps.sort()` followed by `binary_search` is modelled as membership in the towel list.
- Day19.Solve: part two is stated equal to the number of layouts only for distinct towels of at most eight bytes, the limit of the eight-byte `Array8` packing.
- Day20: the grouping of `cheat_savings` by saving (src/day20.rs:95-99) is only printed and is left out.
- Day22.Solve: part two's best pattern and price are returned by the model; the Rust code only prints them and returns "no result".
- Day23.Solve: part one is stated as the number of triangles containing a `t` computer only for a network without self-links (`a-a`). With self-links only soundness is stated.
- Day24: part two (src/day24.rs:280-391) is not modelled: it is unfinished exploratory code that returns "no result".
- Day25: part two returns "no result" and is not modelled.

## Findings

| source | as written | input that shows it | evidently intended | confidence | as-written member | corrected member |
|---|---|---|---|---|---|---|
| src/vector.rs:45-47 | `add_dir` compares the move's discriminant (1, 2, 4 or 8) with the indices 0..3 of the commented-out table, so Up moves +x, Right moves +y, and Down and Left do not move | deer at (2, 2) with (1, 2) open: `complete_map_solve` (src/pathnodemap.rs:156) never reaches (1, 2); a key push puts the deer where the recorded move does not lead | each move adds its own unit vector, as the `match` commented out below it does (src/vector.rs:48-53) | high, not executed | Moves.AddDirAsWrittenDisplacement, PathNodeMaps.FloodOneWay, PathNodeMaps.FloodMissesLeft, Path2.KeyPushMisplaces | Moves.AddDir, PathNodeMaps.FloodExact, PathNodeMaps.KeyPushWalk |
| src/day15.rs:98-130, 170-262 | part two looks at the `add_dir` cell before moving but steps by the move's real vector | a wall directly left of the robot: moving Left looks at the robot's own floor cell and steps onto the wall; a box right of the robot: moving Up re-queues the box for ever | look at and push into the cell the move leads to | high, not executed | Day15AsWritten.DownLeftUnchecked, Day15AsWritten.OntoWall, Day15AsWritten.UpIntoBoxStalls | Day15.StepTwo, Day15.TraceKeeps |
| src/path2.rs:103-105 | `ShrunkPath::clear` resets only `count`; the words already on the stack stay; the next push starts a new word after them, while `to_path` still reads the old first word | push Right, clear, push Up: `to_path` gives [Right] | clear leaves the empty path, so the same calls give [Up] | high, not executed | Path2.ShrunkPath.ClearAsWritten, Path2.ClearThenPushAsWritten | Path2.ShrunkPath.Clear, Path2.ClearThenPush |
| src/day24.rs:141-186 | `test_row` runs four trials on one circuit without resetting the gates, so after the first trial no gate is pending and the later trials read the first output again | any circuit whose first trial gives every gate a value: every row fails, even for a correct adder | each trial runs on the bare circuit | high, not executed | Day24.StaleRow | Day24.Circuit.TestRowFresh, Day24.AdderRowPasses |
| src/day18.rs:19-34 | the maze has no border, and the searches probe the neighbours of (0, 0) with `has_space_at`, which indexes `bitmap[-1 as usize]` | any input: the first probe (0, -1) panics | a maze walled in, or a bounds check in `has_space_at` | high, not executed | Day18.BorderlessPanics | Day18.WalledEnclosed, Day18.Solve |
