// Day 18: falling bytes on a 71 x 71 memory grid. The first (at most) 1024
// bytes become walls of a maze walked from the top-left to the bottom-right
// corner; then a bisection over the remaining bytes finds the first one
// after which the exit can no longer be reached.
//
// As written (src/day18.rs:18-37) the maze has no border, and the searches
// of src/solve.rs look at the four neighbours of the start (0, 0) through
// `has_space_at`, which has no bounds check (src/level.rs:451-453): the
// first of them, (0, -1), indexes the bitmap row `-1 as usize` and panics
// (BorderlessPanics). The model runs the searches on the grid framed by a
// ring of wall instead, so the memory cell (x, y) is the bitmap point
// (x + 1, y + 1) and the walks stay on the grid.

module Day18 {
  import opened Wrappers
  import opened Vectors
  import opened Levels
  import opened Path2
  import opened Words
  import opened Objs
  import Search = Solve

  const WIDTH: nat := 71
  const HEIGHT: nat := 71
  // At most this many bytes fall before the shortest walk is measured.
  const BASE_LIMIT: nat := 1024
  // The round limits of `find_best_path_18` and `find_any_path_18`.
  const BEST_DEPTH: nat := 1000
  const ANY_DEPTH: nat := 10000
  // The framed maze: the grid with a ring of wall around it.
  const FW: nat := WIDTH + 2
  const FH: nat := HEIGHT + 2
  // The memory cells (0, 0) and (70, 70), one cell in from the frame.
  const START: Vector := Vector(1, 1)
  const END: Vector := Vector(WIDTH, HEIGHT)

  // ---------------------------------------------------------------------
  // The bytes

  // The numbers of the input, read two at a time as x, y.
  function Pairs(nums: seq<int>): nat
  {
    |nums| / 2
  }

  // `count`: the bytes that form the base maze.
  function BaseCount(nums: seq<int>): (r: nat)
    ensures r <= Pairs(nums) && r <= BASE_LIMIT
    ensures r == Pairs(nums) || r == BASE_LIMIT
  {
    if Pairs(nums) < BASE_LIMIT then Pairs(nums) else BASE_LIMIT
  }

  // The i-th byte.
  function Point(nums: seq<int>, i: nat): Vector
    requires i < Pairs(nums)
  {
    Vector(nums[2 * i], nums[2 * i + 1])
  }

  predicate InGrid(v: Vector)
  {
    0 <= v.x < WIDTH && 0 <= v.y < HEIGHT
  }

  // Every byte lands on the grid: writing one elsewhere panics.
  predicate OnGrid(nums: seq<int>)
  {
    forall i :: 0 <= i < Pairs(nums) ==> InGrid(Point(nums, i))
  }

  // The points of the framed maze that stand for memory cells.
  predicate Interior(v: Vector)
  {
    1 <= v.x <= WIDTH && 1 <= v.y <= HEIGHT
  }

  // The frame around them.
  predicate Ring(v: Vector)
  {
    0 <= v.x < FW && 0 <= v.y < FH && !Interior(v)
  }

  // Where each byte lands in the framed maze.
  function Cells(nums: seq<int>): (r: seq<Vector>)
    requires OnGrid(nums)
    ensures |r| == Pairs(nums)
    ensures forall i :: 0 <= i < |r| ==> r[i] == Add(Point(nums, i), Vector(1, 1)) && Interior(r[i])
  {
    seq(Pairs(nums), i requires 0 <= i < Pairs(nums) => Add(Point(nums, i), Vector(1, 1)))
  }

  // The frame's points: top row, bottom row, left column, right column.
  function Border(): (r: seq<Vector>)
    ensures forall i :: 0 <= i < |r| ==> Ring(r[i])
  {
    seq(FW, x => Vector(x, 0)) + seq(FW, x => Vector(x, FH - 1)) +
    seq(FH, y => Vector(0, y)) + seq(FH, y => Vector(FW - 1, y))
  }

  lemma BorderRing(v: Vector)
    requires Ring(v)
    ensures v in Border()
  {
    var b := Border();
    if v.y == 0 {
      assert b[v.x] == v;
    } else if v.y == FH - 1 {
      assert b[FW + v.x] == v;
    } else if v.x == 0 {
      assert b[2 * FW + v.y] == v;
    } else {
      assert b[2 * FW + FH + v.y] == v;
    }
  }

  // ---------------------------------------------------------------------
  // Wall bitmaps

  // The rows with the bits of pts[lo..hi] set, in order.
  function Placed(rows: seq<seq<bv64>>, pts: seq<Vector>, lo: nat, hi: nat): (r: seq<seq<bv64>>)
    requires RowsShape(rows) && lo <= hi <= |pts|
    requires forall i :: lo <= i < hi ==> InBitmap(|rows|, pts[i])
    ensures RowsShape(r) && |r| == |rows|
    decreases hi - lo
  {
    if hi == lo then rows
    else SetBitAt(Placed(rows, pts, lo, hi - 1), pts[hi - 1])
  }

  // A point is a wall after placing pts[lo..hi] exactly when it was one
  // before or one of those points is it.
  lemma {:induction false} PlacedBits(rows: seq<seq<bv64>>, pts: seq<Vector>, lo: nat, hi: nat, v: Vector)
    requires RowsShape(rows) && lo <= hi <= |pts|
    requires forall i :: lo <= i < hi ==> InBitmap(|rows|, pts[i])
    requires InBitmap(|rows|, v)
    ensures BitAt(Placed(rows, pts, lo, hi), v) <==> BitAt(rows, v) || v in pts[lo..hi]
    decreases hi - lo
  {
    if hi > lo {
      PlacedBits(rows, pts, lo, hi - 1, v);
      SetBitAtFacts(Placed(rows, pts, lo, hi - 1), pts[hi - 1], v);
      assert pts[lo..hi] == pts[lo..hi - 1] + [pts[hi - 1]];
    }
  }

  lemma ClearedBits(h: nat, v: Vector)
    requires InBitmap(h, v)
    ensures !BitAt(Cleared(h), v)
  {
    ZeroWord(BitNo(v.x % 64));
  }

  // The walls of the base maze in the order they are set: the frame, then
  // the first `count` bytes.
  function Walls(nums: seq<int>): (r: seq<Vector>)
    requires OnGrid(nums)
    ensures forall i :: 0 <= i < |r| ==> InBitmap(FH, r[i])
  {
    Border() + Cells(nums)[..BaseCount(nums)]
  }

  // The base maze: the frame and the first `count` bytes, with the start
  // and the end marked over whatever byte fell there, so both are open
  // floor.
  function BaseRows(nums: seq<int>): (r: seq<seq<bv64>>)
    requires OnGrid(nums)
    ensures RowsShape(r) && |r| == FH
  {
    ClearBitAt(ClearBitAt(Placed(Cleared(FH), Walls(nums), 0, |Walls(nums)|), START), END)
  }

  lemma BaseBits(nums: seq<int>, v: Vector)
    requires OnGrid(nums) && InBitmap(FH, v)
    ensures BitAt(BaseRows(nums), v) <==>
              Ring(v) || (v != START && v != END && v in Cells(nums)[..BaseCount(nums)])
  {
    var walls := Walls(nums);
    var placed := Placed(Cleared(FH), walls, 0, |walls|);
    PlacedBits(Cleared(FH), walls, 0, |walls|, v);
    ClearedBits(FH, v);
    assert walls[0..|walls|] == walls;
    if Ring(v) {
      BorderRing(v);
    }
    if v in Border() {
      var k :| 0 <= k < |Border()| && Border()[k] == v;
    }
    ClearBitAtFacts(placed, START, v);
    ClearBitAtFacts(ClearBitAt(placed, START), END, v);
  }

  // The maze of the probe at idx: the base maze with bytes count..=idx added.
  function ProbeRows(nums: seq<int>, idx: nat): (r: seq<seq<bv64>>)
    requires OnGrid(nums) && BaseCount(nums) <= idx < Pairs(nums)
    ensures RowsShape(r) && |r| == FH
  {
    Placed(BaseRows(nums), Cells(nums), BaseCount(nums), idx + 1)
  }

  // A probe's walls are the frame, the base walls and the later bytes up
  // to idx.
  lemma ProbeBits(nums: seq<int>, idx: nat, v: Vector)
    requires OnGrid(nums) && BaseCount(nums) <= idx < Pairs(nums) && InBitmap(FH, v)
    ensures BitAt(ProbeRows(nums, idx), v) <==>
              Ring(v) || (v != START && v != END && v in Cells(nums)[..BaseCount(nums)]) ||
              v in Cells(nums)[BaseCount(nums)..idx + 1]
  {
    PlacedBits(BaseRows(nums), Cells(nums), BaseCount(nums), idx + 1, v);
    BaseBits(nums, v);
  }

  // Every wall of an earlier probe is a wall of a later one.
  ghost predicate MoreWalls(a: seq<seq<bv64>>, b: seq<seq<bv64>>)
    requires RowsShape(a) && RowsShape(b)
  {
    |a| == |b| && forall v :: InBitmap(|a|, v) && BitAt(a, v) ==> BitAt(b, v)
  }

  lemma ProbesGrow(nums: seq<int>, i: nat, j: nat)
    requires OnGrid(nums) && BaseCount(nums) <= i <= j < Pairs(nums)
    ensures MoreWalls(ProbeRows(nums, i), ProbeRows(nums, j))
  {
    var cells, count := Cells(nums), BaseCount(nums);
    forall v | InBitmap(FH, v) && BitAt(ProbeRows(nums, i), v)
      ensures BitAt(ProbeRows(nums, j), v)
    {
      ProbeBits(nums, i, v);
      ProbeBits(nums, j, v);
      if v in cells[count..i + 1] {
        var k :| 0 <= k < i + 1 - count && cells[count..i + 1][k] == v;
        assert cells[count..j + 1][k] == v;
      }
    }
  }

  // A walk over the open floor of a maze with more walls is a walk over
  // the open floor of one with fewer.
  lemma {:induction false} FewerWalls(a: seq<seq<bv64>>, b: seq<seq<bv64>>, start: Vector, path: seq<Move2>)
    requires RowsShape(a) && RowsShape(b) && MoreWalls(a, b)
    requires Search.SpaceWalk(b, start, path)
    ensures Search.SpaceWalk(a, start, path)
    decreases |path|
  {
    if path != [] {
      FewerWalls(a, b, start, path[..|path| - 1]);
    }
  }

  // ---------------------------------------------------------------------
  // The frame keeps the searches on the grid

  /** As written, the start (0, 0) is on the bitmap's edge: the searches'
    * first look, at (0, -1), is off the bitmap, where `get_v` panics, so
    * no maze of any walls lets the start be walked from safely. */
  lemma BorderlessPanics(rows: seq<seq<bv64>>)
    requires RowsShape(rows)
    ensures !InBitmap(|rows|, ApplyDir(Vector(0, 0), Up))
    ensures !Search.Enclosed(rows, Vector(0, 0))
  {
    var none: seq<Move2> := [];
    assert Search.SpaceWalk(rows, Vector(0, 0), none);
    assert !Search.Inside(rows, Walk(Vector(0, 0), none));
  }

  // A maze whose frame is all wall.
  ghost predicate Walled(rows: seq<seq<bv64>>)
    requires RowsShape(rows)
  {
    |rows| == FH && forall v :: Ring(v) ==> BitAt(rows, v)
  }

  // Every walk from the start over open floor stays on the grid.
  lemma {:induction false} StaysIn(rows: seq<seq<bv64>>, path: seq<Move2>)
    requires RowsShape(rows) && Walled(rows) && Search.SpaceWalk(rows, START, path)
    ensures Interior(Walk(START, path))
    decreases |path|
  {
    if path != [] {
      StaysIn(rows, path[..|path| - 1]);
      var v := Walk(START, path);
      assert !Ring(v);
    }
  }

  lemma WalledEnclosed(rows: seq<seq<bv64>>)
    requires RowsShape(rows) && Walled(rows)
    ensures Search.Enclosed(rows, START)
  {
    forall path | Search.SpaceWalk(rows, START, path)
      ensures Search.Inside(rows, Walk(START, path))
    {
      StaysIn(rows, path);
    }
  }

  lemma ProbeWalled(nums: seq<int>, idx: nat)
    requires OnGrid(nums) && BaseCount(nums) <= idx < Pairs(nums)
    ensures Walled(ProbeRows(nums, idx))
  {
    forall v | Ring(v)
      ensures BitAt(ProbeRows(nums, idx), v)
    {
      ProbeBits(nums, idx, v);
    }
  }

  lemma BaseWalled(nums: seq<int>)
    requires OnGrid(nums)
    ensures Walled(BaseRows(nums))
  {
    forall v | Ring(v)
      ensures BitAt(BaseRows(nums), v)
    {
      BaseBits(nums, v);
    }
  }

  // ---------------------------------------------------------------------
  // The bisection

  // What `find_any_path_18(&level, 10_000).is_some()` decides: a walk of
  // fewer than 10000 moves reaches the exit.
  ghost predicate Reaches(rows: seq<seq<bv64>>)
    requires RowsShape(rows)
  {
    exists p :: Search.WalkTo(rows, START, END, p) && |p| < ANY_DEPTH
  }

  // The exit can be reached in the maze of every probe between count and
  // idx whenever it can be in a later one.
  ghost predicate Monotone(nums: seq<int>)
    requires OnGrid(nums)
  {
    forall i, j :: BaseCount(nums) <= i <= j < Pairs(nums) && Reaches(ProbeRows(nums, j)) ==>
                     Reaches(ProbeRows(nums, i))
  }

  /** More walls, fewer walks: a later byte never reopens the exit. */
  lemma ReachesMonotone(nums: seq<int>)
    requires OnGrid(nums)
    ensures Monotone(nums)
  {
    forall i, j | BaseCount(nums) <= i <= j < Pairs(nums) && Reaches(ProbeRows(nums, j))
      ensures Reaches(ProbeRows(nums, i))
    {
      var p :| Search.WalkTo(ProbeRows(nums, j), START, END, p) && |p| < ANY_DEPTH;
      ProbesGrow(nums, i, j);
      FewerWalls(ProbeRows(nums, i), ProbeRows(nums, j), START, p);
      assert Search.WalkTo(ProbeRows(nums, i), START, END, p);
    }
  }

  // The first probe from i on whose maze blocks the exit, or the number of
  // bytes when none does.
  ghost function FirstBlocked(nums: seq<int>, i: nat): (r: nat)
    requires OnGrid(nums) && BaseCount(nums) <= i
    ensures i <= r || r == Pairs(nums)
    ensures r <= Pairs(nums) || r == i
    decreases Pairs(nums) - i
  {
    if i >= Pairs(nums) then Pairs(nums)
    else if !Reaches(ProbeRows(nums, i)) then i
    else FirstBlocked(nums, i + 1)
  }

  /** FirstBlocked is the least probe from i on that blocks the exit. */
  lemma {:induction false} FirstBlockedLeast(nums: seq<int>, i: nat)
    requires OnGrid(nums) && BaseCount(nums) <= i
    ensures FirstBlocked(nums, i) < Pairs(nums) ==> !Reaches(ProbeRows(nums, FirstBlocked(nums, i)))
    ensures forall k :: i <= k < FirstBlocked(nums, i) && k < Pairs(nums) ==> Reaches(ProbeRows(nums, k))
    decreases Pairs(nums) - i
  {
    if i < Pairs(nums) && Reaches(ProbeRows(nums, i)) {
      FirstBlockedLeast(nums, i + 1);
      var r := FirstBlocked(nums, i + 1);
      assert FirstBlocked(nums, i) == r;
      forall k | i <= k < r && k < Pairs(nums)
        ensures Reaches(ProbeRows(nums, k))
      {
        if k > i {
          assert i + 1 <= k < r;
        }
      }
    }
  }

  // What the bisection leaves: idx_max blocks (or is the end of the bytes)
  // and the probe just before it reaches the exit (or was never probed).
  ghost predicate Bracketed(nums: seq<int>, idx: nat)
    requires OnGrid(nums)
  {
    BaseCount(nums) <= idx <= Pairs(nums) &&
    (idx == BaseCount(nums) ==> idx == Pairs(nums)) &&
    (idx < Pairs(nums) ==> !Reaches(ProbeRows(nums, idx))) &&
    (idx > BaseCount(nums) + 1 ==> Reaches(ProbeRows(nums, idx - 1)))
  }

  // The bracket is exactly the first blocking byte after the base ones.
  lemma {:induction false} BracketIsFirst(nums: seq<int>, idx: nat, i: nat)
    requires OnGrid(nums) && Monotone(nums) && Bracketed(nums, idx)
    requires BaseCount(nums) < i <= idx || i == idx
    ensures FirstBlocked(nums, i) == idx
    decreases Pairs(nums) - i
  {
    if i < idx && i < Pairs(nums) {
      if idx > BaseCount(nums) + 1 {
        assert Reaches(ProbeRows(nums, i));
      } else {
        assert false;
      }
      BracketIsFirst(nums, idx, i + 1);
    }
  }

  // Once idx_min and idx_max are adjacent (or both at the end), idx_max
  // is bracketed.
  lemma Settled(nums: seq<int>, lo: nat, hi: nat)
    requires OnGrid(nums) && BaseCount(nums) <= lo <= hi <= Pairs(nums) && (lo + hi) / 2 == lo
    requires lo < hi || hi == BaseCount(nums) == Pairs(nums)
    requires hi < Pairs(nums) ==> !Reaches(ProbeRows(nums, hi))
    requires lo > BaseCount(nums) ==> Reaches(ProbeRows(nums, lo))
    ensures Bracketed(nums, hi)
  {
    assert hi <= lo + 1;
  }

  // `level.wall_bmp = bmp_cache.clone()` followed by the fill loop.
  method ProbeBitmap(cache: LevelBitmap, nums: seq<int>, idx: nat) returns (bmp: LevelBitmap)
    requires OnGrid(nums) && BaseCount(nums) <= idx < Pairs(nums)
    requires cache.Valid() && cache.w == FW && cache.h == FH && cache.bitmap == BaseRows(nums)
    ensures fresh(bmp) && bmp.Valid() && bmp.w == FW && bmp.h == FH
    ensures bmp.bitmap == ProbeRows(nums, idx)
  {
    bmp := cache.Clone();
    var count := BaseCount(nums);
    var cells := Cells(nums);
    for fillIdx := count to idx + 1
      invariant bmp.Valid() && bmp.w == FW && bmp.h == FH
      invariant bmp.bitmap == Placed(BaseRows(nums), cells, count, fillIdx)
    {
      var v := Vector(nums[2 * fillIdx] + 1, nums[2 * fillIdx + 1] + 1);
      assert v == cells[fillIdx];
      bmp.SetV(v);
    }
  }

  // The level the searches run on: its deer at the start, its exit at the
  // end, the walls of wall_bmp.
  ghost predicate Searching(level: Level)
    reads level, level.wallBmp
  {
    level.Valid() && level.w == FW && level.h == FH && level.deerPos == START && level.endPos == END
  }

  // One probe: the base walls and bytes count..=idx, searched with
  // `find_any_path_18`.
  method Probe(level: Level, cache: LevelBitmap, nums: seq<int>, idx: nat) returns (ok: bool)
    requires OnGrid(nums) && BaseCount(nums) <= idx < Pairs(nums)
    requires cache.Valid() && cache.w == FW && cache.h == FH && cache.bitmap == BaseRows(nums)
    requires Searching(level)
    modifies level
    ensures Searching(level)
    ensures ok == Reaches(ProbeRows(nums, idx))
  {
    var bmp := ProbeBitmap(cache, nums, idx);
    level.wallBmp := bmp;
    ProbeWalled(nums, idx);
    WalledEnclosed(bmp.bitmap);
    var r := Search.FindAnyPath18(level, ANY_DEPTH);
    ok := r.Some?;
  }

  // The bisection loop. Each probe strictly narrows (idx_min, idx_max); a
  // reaching probe raises idx_min, a blocking one lowers idx_max.
  method Bisect(level: Level, cache: LevelBitmap, nums: seq<int>) returns (idx: nat)
    requires OnGrid(nums)
    requires cache.Valid() && cache.w == FW && cache.h == FH && cache.bitmap == BaseRows(nums)
    requires Searching(level) && level.wallBmp != cache
    modifies level
    ensures Bracketed(nums, idx)
  {
    var idxMin := BaseCount(nums);
    var idxMax := Pairs(nums);
    while true
      invariant Searching(level)
      invariant BaseCount(nums) <= idxMin <= idxMax <= Pairs(nums)
      invariant idxMin < idxMax || idxMax == BaseCount(nums) == Pairs(nums)
      invariant idxMax < Pairs(nums) ==> !Reaches(ProbeRows(nums, idxMax))
      invariant idxMin > BaseCount(nums) ==> Reaches(ProbeRows(nums, idxMin))
      decreases idxMax - idxMin
    {
      idx := (idxMin + idxMax) / 2;
      if idx == idxMin {
        Settled(nums, idxMin, idxMax);
        idx := idxMax;
        break;
      }
      var ok := Probe(level, cache, nums, idx);
      if ok {
        idxMin := idx;
      } else {
        idxMax := idx;
      }
    }
  }

  // The second answer: the coordinates of the blocking byte, or None for
  // "no solution found".
  function Answer(nums: seq<int>, idx: nat): (r: Option<Vector>)
    requires idx <= Pairs(nums)
    ensures r.None? <==> idx == Pairs(nums)
    ensures r.Some? ==> r.value == Point(nums, idx)
  {
    if 2 * idx + 1 < |nums| then Some(Vector(nums[2 * idx], nums[2 * idx + 1])) else None
  }

  // ---------------------------------------------------------------------
  // The whole day

  // A fresh bitmap with the frame's walls, the first |Border()| of walls.
  method FrameBitmap(walls: seq<Vector>) returns (base: LevelBitmap)
    requires |Border()| <= |walls| && walls[..|Border()|] == Border()
    ensures fresh(base) && base.Valid() && base.w == FW && base.h == FH
    ensures base.bitmap == Placed(Cleared(FH), walls, 0, |Border()|)
  {
    base := new LevelBitmap(FW, FH);
    var border := Border();
    for k := 0 to |border|
      invariant base.Valid() && base.w == FW && base.h == FH
      invariant base.bitmap == Placed(Cleared(FH), walls, 0, k)
    {
      assert walls[k] == walls[..|border|][k] == border[k];
      base.SetV(border[k]);
    }
  }

  // The loop setting the first `count` bytes, after the frame.
  method PlaceBytes(base: LevelBitmap, nums: seq<int>)
    requires OnGrid(nums) && base.Valid() && base.w == FW && base.h == FH
    requires base.bitmap == Placed(Cleared(FH), Walls(nums), 0, |Border()|)
    modifies base
    ensures base.Valid() && base.bitmap == Placed(Cleared(FH), Walls(nums), 0, |Walls(nums)|)
  {
    var walls := Walls(nums);
    var border := Border();
    var count := BaseCount(nums);
    var cells := Cells(nums);
    for i := 0 to count
      invariant base.Valid() && base.w == FW && base.h == FH
      invariant base.bitmap == Placed(Cleared(FH), walls, 0, |border| + i)
    {
      var v := Vector(nums[2 * i] + 1, nums[2 * i + 1] + 1);
      assert v == cells[i] == walls[|border| + i];
      base.SetV(v);
    }
  }

  // The frame, then the first `count` bytes, then the start and the end
  // cleared.
  method BaseBitmap(nums: seq<int>) returns (base: LevelBitmap)
    requires OnGrid(nums)
    ensures fresh(base) && base.Valid() && base.w == FW && base.h == FH
    ensures base.bitmap == BaseRows(nums)
  {
    var walls := Walls(nums);
    var border := Border();
    assert walls[..|border|] == border;
    base := FrameBitmap(walls);
    PlaceBytes(base, nums);
    ghost var placed := base.bitmap;
    base.ClearV(START);
    base.ClearV(END);
    assert base.bitmap == ClearBitAt(ClearBitAt(placed, START), END);
  }

  // The objects `Level::from_str` reads from the maze's text: a wall for
  // each set bit, floor elsewhere (the start and end marks are floor).
  function Objects(rows: seq<seq<bv64>>): (r: seq<Obj>)
    requires RowsShape(rows) && |rows| == FH
    ensures |r| == FW * FH
  {
    seq(FW * FH, i requires 0 <= i < FW * FH =>
      if i / FW < FH && BitAt(rows, Vector(i % FW, i / FW)) then Wall else Space)
  }

  /** `day18`: the length of a shortest walk through the base maze, which
    * `day18` unwraps (so one of fewer than 1000 moves must exist), and
    * the first byte whose fall cuts the exit off. */
  method Solve(nums: seq<int>) returns (p1: nat, p2: Option<Vector>)
    requires OnGrid(nums)
    requires exists p :: Search.WalkTo(BaseRows(nums), START, END, p) && |p| < BEST_DEPTH
    ensures exists p :: Search.WalkTo(BaseRows(nums), START, END, p) && |p| == p1
    ensures forall p :: Search.WalkTo(BaseRows(nums), START, END, p) ==> p1 <= |p|
    ensures Bracketed(nums, FirstBlocked(nums, BaseCount(nums) + 1))
    ensures p2 == Answer(nums, FirstBlocked(nums, BaseCount(nums) + 1))
  {
    var base := BaseBitmap(nums);
    var level := new Level(FW, FH, START, Right, START, END, Objects(base.bitmap), base);
    BaseWalled(nums);
    WalledEnclosed(base.bitmap);
    ghost var short :| Search.WalkTo(BaseRows(nums), START, END, short) && |short| < BEST_DEPTH;
    var soln, _ := Search.FindBestPath18(level, BEST_DEPTH);
    p1 := soln.value.score;
    var cache := base.Clone();
    var idx := Bisect(level, cache, nums);
    p2 := Answer(nums, idx);
    ReachesMonotone(nums);
    if idx > BaseCount(nums) {
      BracketIsFirst(nums, idx, BaseCount(nums) + 1);
    }
  }
}
