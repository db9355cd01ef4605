// src/day15.rs: a robot pushing boxes around a walled warehouse, first
// with one-cell boxes 'O' and then on a map twice as wide with two-cell
// boxes "[]".
module Day15 {
  import opened Wrappers
  import opened Vectors
  import opened Moves
  import G = Grids

  type Byte = G.Byte
  type Rows = seq<seq<Byte>>

  const WALL: Byte := 35    // '#'
  const FLOOR: Byte := 46   // '.'
  const BOX: Byte := 79     // 'O'
  const ROBOT: Byte := 64   // '@'
  const BOX_L: Byte := 91   // '['
  const BOX_R: Byte := 93   // ']'

  // ---------------------------------------------------------------------
  // The grid as a value

  predicate Inside(rows: Rows, w: int, v: Vector)
  {
    0 <= v.x < w && 0 <= v.y < |rows|
  }

  // `grid.get`: the byte at v, None off the grid.
  function Look(rows: Rows, w: int, v: Vector): Option<Byte>
    requires G.Rectangular(rows, w)
  {
    if Inside(rows, w, v) then Some(rows[v.y][v.x]) else None
  }

  // `grid.put`: a write inside the grid, nothing outside.
  function Put(rows: Rows, w: int, v: Vector, b: Byte): (r: Rows)
    requires G.Rectangular(rows, w)
    ensures |r| == |rows| && G.Rectangular(r, w)
  {
    if Inside(rows, w, v) then rows[v.y := rows[v.y][v.x := b]] else rows
  }

  lemma LookPut(rows: Rows, w: int, v: Vector, b: Byte, p: Vector)
    requires G.Rectangular(rows, w)
    ensures Look(Put(rows, w, v, b), w, p) == if p == v && Inside(rows, w, v) then Some(b) else Look(rows, w, p)
  {
  }

  // Not a wall and on the grid.
  predicate Open(o: Option<Byte>)
  {
    o.Some? && o.value != WALL
  }

  // ---------------------------------------------------------------------
  // Counting

  function CountRow(row: seq<Byte>, b: Byte): nat
  {
    if row == [] then 0 else CountRow(row[..|row| - 1], b) + (if row[|row| - 1] == b then 1 else 0)
  }

  // The number of cells holding b.
  function Count(rows: Rows, b: Byte): nat
  {
    if rows == [] then 0 else Count(rows[..|rows| - 1], b) + CountRow(rows[|rows| - 1], b)
  }

  function Is(c: Byte, b: Byte): nat
  {
    if c == b then 1 else 0
  }

  lemma {:induction false} CountRowSet(row: seq<Byte>, x: nat, c: Byte, b: Byte)
    requires x < |row|
    ensures CountRow(row[x := c], b) + Is(row[x], b) == CountRow(row, b) + Is(c, b)
  {
    var n := |row|;
    var r := row[x := c];
    if x < n - 1 {
      assert r[..n - 1] == row[..n - 1][x := c];
      CountRowSet(row[..n - 1], x, c, b);
    } else {
      assert r[..n - 1] == row[..n - 1];
    }
  }

  lemma {:induction false} CountSet(rows: Rows, y: nat, x: nat, c: Byte, b: Byte)
    requires y < |rows| && x < |rows[y]|
    ensures Count(rows[y := rows[y][x := c]], b) + Is(rows[y][x], b) == Count(rows, b) + Is(c, b)
  {
    var n := |rows|;
    var r := rows[y := rows[y][x := c]];
    if y < n - 1 {
      assert r[..n - 1] == rows[..n - 1][y := rows[y][x := c]];
      CountSet(rows[..n - 1], y, x, c, b);
    } else {
      assert r[..n - 1] == rows[..n - 1];
      CountRowSet(rows[y], x, c, b);
    }
  }

  // A write changes the count of b by what it adds and what it removes.
  lemma CountPut(rows: Rows, w: int, v: Vector, c: Byte, b: Byte)
    requires G.Rectangular(rows, w) && Inside(rows, w, v)
    ensures Count(Put(rows, w, v, c), b) + Is(rows[v.y][v.x], b) == Count(rows, b) + Is(c, b)
  {
    CountSet(rows, v.y, v.x, c, b);
  }

  // ---------------------------------------------------------------------
  // Part 1: pushing a row of boxes

  // Steps along m before v leaves the grid; it falls by one per step.
  function Room(w: int, h: int, v: Vector, m: Move): nat
  {
    match m
    case Up => if v.y >= 0 then v.y + 1 else 0
    case Down => if v.y < h then h - v.y else 0
    case Left => if v.x >= 0 then v.x + 1 else 0
    case Right => if v.x < w then w - v.x else 0
  }

  /** `push_boxes` on the grid as a value: what stands at v moves one cell
    * along m, first pushing the box in its way; None when something in
    * the row is a wall or the edge. */
  function Push(rows: Rows, w: int, v: Vector, m: Move): (r: Option<Rows>)
    requires G.Rectangular(rows, w)
    ensures r.Some? ==> |r.value| == |rows| && G.Rectangular(r.value, w)
    decreases Room(w, |rows|, v, m)
  {
    var o := Look(rows, w, v);
    var n := Add(v, ToVector(m));
    var next := Look(rows, w, n);
    if !Open(o) || !Open(next) then None
    else
      var pushed := if next == Some(BOX) then Push(rows, w, n, m) else Some(rows);
      match pushed
      case None => None
      case Some(r) => Some(Put(Put(r, w, n, o.value), w, v, FLOOR))
  }

  method PushBoxes(grid: G.Grid, xy: Vector, m: Move) returns (ok: bool)
    requires grid.Valid()
    modifies grid
    ensures grid.Valid()
    ensures ok == Push(old(grid.data), grid.w, xy, m).Some?
    ensures grid.data == if ok then Push(old(grid.data), grid.w, xy, m).value else old(grid.data)
    decreases Room(grid.w, grid.h, xy, m)
  {
    var o := grid.Get(G.XY(xy.x, xy.y));
    if o.None? || o == Some(WALL) {
      return false;
    }
    var nxy := Add(xy, ToVector(m));
    var nextO := grid.Get(G.XY(nxy.x, nxy.y));
    if nextO.None? || nextO == Some(WALL) {
      return false;
    }
    ok := true;
    if nextO == Some(BOX) {
      ok := PushBoxes(grid, nxy, m);
    }
    if ok {
      var _ := grid.Put(G.XY(nxy.x, nxy.y), o.value);
      var _ := grid.Put(G.XY(xy.x, xy.y), FLOOR);
    }
  }

  // v itself and the cells beyond it along m.
  predicate Beyond(v: Vector, m: Move, p: Vector)
  {
    match m
    case Up => p.x == v.x && p.y <= v.y
    case Down => p.x == v.x && p.y >= v.y
    case Left => p.y == v.y && p.x <= v.x
    case Right => p.y == v.y && p.x >= v.x
  }

  /** A successful push leaves floor where it started, puts what stood
    * there one cell on, touches nothing behind the start or off its row,
    * and keeps every wall. */
  lemma {:induction false} PushShape(rows: Rows, w: int, v: Vector, m: Move)
    requires G.Rectangular(rows, w) && Push(rows, w, v, m).Some?
    ensures Inside(rows, w, v) && Inside(rows, w, Add(v, ToVector(m)))
    ensures Look(Push(rows, w, v, m).value, w, v) == Some(FLOOR)
    ensures Look(Push(rows, w, v, m).value, w, Add(v, ToVector(m))) == Look(rows, w, v)
    ensures forall p :: !Beyond(v, m, p) ==> Look(Push(rows, w, v, m).value, w, p) == Look(rows, w, p)
    ensures forall p :: Look(Push(rows, w, v, m).value, w, p) == Some(WALL) <==> Look(rows, w, p) == Some(WALL)
    decreases Room(w, |rows|, v, m)
  {
    var n := Add(v, ToVector(m));
    var o := Look(rows, w, v);
    var r := if Look(rows, w, n) == Some(BOX) then Push(rows, w, n, m).value else rows;
    if Look(rows, w, n) == Some(BOX) {
      PushShape(rows, w, n, m);
    }
    var r1 := Put(r, w, n, o.value);
    var r2 := Put(r1, w, v, FLOOR);
    assert Push(rows, w, v, m).value == r2;
    forall p
      ensures Look(r2, w, p) == if p == v then Some(FLOOR) else if p == n then o else Look(r, w, p)
    {
      LookPut(r, w, n, o.value, p);
      LookPut(r1, w, v, FLOOR, p);
    }
  }

  // The number of boxes never changes.
  lemma {:induction false} PushKeepsBoxes(rows: Rows, w: int, v: Vector, m: Move)
    requires G.Rectangular(rows, w) && Push(rows, w, v, m).Some?
    ensures Count(Push(rows, w, v, m).value, BOX) == Count(rows, BOX)
    decreases Room(w, |rows|, v, m)
  {
    var n := Add(v, ToVector(m));
    var o := Look(rows, w, v);
    var r := if Look(rows, w, n) == Some(BOX) then Push(rows, w, n, m).value else rows;
    if Look(rows, w, n) == Some(BOX) {
      PushKeepsBoxes(rows, w, n, m);
      PushShape(rows, w, n, m);
      assert !Beyond(n, m, v);
    }
    // r holds the old byte at v, and no box at n.
    assert Look(r, w, v) == o && Look(r, w, n) != Some(BOX);
    var r1 := Put(r, w, n, o.value);
    CountPut(r, w, n, o.value, BOX);
    LookPut(r, w, n, o.value, v);
    CountPut(r1, w, v, FLOOR, BOX);
  }

  // The cell i steps from p along m.
  function Step(p: Vector, m: Move, i: nat): Vector
  {
    if i == 0 then p else Add(Step(p, m, i - 1), ToVector(m))
  }

  lemma {:induction false} StepShift(p: Vector, m: Move, i: nat)
    ensures Step(p, m, i + 1) == Step(Add(p, ToVector(m)), m, i)
  {
    if i > 0 {
      StepShift(p, m, i - 1);
    }
  }

  // From p along m: k boxes, then a cell that is neither wall nor box.
  ghost predicate FreeAlong(rows: Rows, w: int, p: Vector, m: Move)
    requires G.Rectangular(rows, w)
  {
    exists k: nat :: FreeAt(rows, w, p, m, k)
  }

  // k boxes from p along m, then a free cell.
  ghost predicate FreeAt(rows: Rows, w: int, p: Vector, m: Move, k: nat)
    requires G.Rectangular(rows, w)
  {
    (forall i: nat :: i < k ==> Look(rows, w, Step(p, m, i)) == Some(BOX)) &&
    Open(Look(rows, w, Step(p, m, k))) && Look(rows, w, Step(p, m, k)) != Some(BOX)
  }

  lemma FreeAtBack(rows: Rows, w: int, n: Vector, m: Move, k: nat)
    requires G.Rectangular(rows, w) && Look(rows, w, n) == Some(BOX)
    requires FreeAt(rows, w, Add(n, ToVector(m)), m, k)
    ensures FreeAt(rows, w, n, m, k + 1)
  {
    var n2 := Add(n, ToVector(m));
    forall i: nat | i < k + 1
      ensures Look(rows, w, Step(n, m, i)) == Some(BOX)
    {
      if i > 0 {
        StepShift(n, m, i - 1);
      }
    }
    StepShift(n, m, k);
  }

  lemma FreeAtOn(rows: Rows, w: int, n: Vector, m: Move, k: nat)
    requires G.Rectangular(rows, w) && Look(rows, w, n) == Some(BOX)
    requires FreeAt(rows, w, n, m, k)
    ensures k > 0 && FreeAt(rows, w, Add(n, ToVector(m)), m, k - 1)
  {
    var n2 := Add(n, ToVector(m));
    assert Step(n, m, 0) == n;
    forall i: nat | i < k - 1
      ensures Look(rows, w, Step(n2, m, i)) == Some(BOX)
    {
      StepShift(n, m, i);
      assert Look(rows, w, Step(n, m, i + 1)) == Some(BOX);
    }
    StepShift(n, m, k - 1);
  }

  // A box in front: the row is free from it exactly when it is free
  // from the next cell.
  lemma FreeAlongBox(rows: Rows, w: int, n: Vector, m: Move)
    requires G.Rectangular(rows, w) && Look(rows, w, n) == Some(BOX)
    ensures FreeAlong(rows, w, n, m) <==> FreeAlong(rows, w, Add(n, ToVector(m)), m)
  {
    var n2 := Add(n, ToVector(m));
    if FreeAlong(rows, w, n2, m) {
      var k: nat :| FreeAt(rows, w, n2, m, k);
      FreeAtBack(rows, w, n, m, k);
    }
    if FreeAlong(rows, w, n, m) {
      var k: nat :| FreeAt(rows, w, n, m, k);
      FreeAtOn(rows, w, n, m, k);
    }
  }

  // No box in front: the row is free exactly when that cell is open.
  lemma FreeAlongHere(rows: Rows, w: int, n: Vector, m: Move)
    requires G.Rectangular(rows, w) && Look(rows, w, n) != Some(BOX)
    ensures FreeAlong(rows, w, n, m) <==> Open(Look(rows, w, n))
  {
    assert Step(n, m, 0) == n;
    if Open(Look(rows, w, n)) {
      assert FreeAt(rows, w, n, m, 0);
    }
    if FreeAlong(rows, w, n, m) {
      var k: nat :| FreeAt(rows, w, n, m, k);
    }
  }

  /** A push from an open cell succeeds exactly when the boxes ahead of it
    * end at a free cell. */
  lemma {:induction false} PushSucceeds(rows: Rows, w: int, v: Vector, m: Move)
    requires G.Rectangular(rows, w)
    ensures Push(rows, w, v, m).Some? <==> Open(Look(rows, w, v)) && FreeAlong(rows, w, Add(v, ToVector(m)), m)
    decreases Room(w, |rows|, v, m)
  {
    var n := Add(v, ToVector(m));
    if Look(rows, w, n) == Some(BOX) {
      FreeAlongBox(rows, w, n, m);
      if Open(Look(rows, w, v)) {
        PushSucceeds(rows, w, n, m);
      }
    } else {
      FreeAlongHere(rows, w, n, m);
    }
  }

  // ---------------------------------------------------------------------
  // Part 1: the robot's moves

  // The grid and the robot after the moves: the robot steps only when its
  // push succeeds.
  function Walk(rows: Rows, w: int, robot: Vector, moves: seq<Move>): (r: (Rows, Vector))
    requires G.Rectangular(rows, w)
    ensures |r.0| == |rows| && G.Rectangular(r.0, w)
  {
    if moves == [] then (rows, robot)
    else
      var before := Walk(rows, w, robot, moves[..|moves| - 1]);
      var m := moves[|moves| - 1];
      match Push(before.0, w, before.1, m)
      case Some(r) => (r, Add(before.1, ToVector(m)))
      case None => before
  }

  /** Along the walk the robot stays on floor, and the boxes and walls
    * keep their number and places respectively. */
  lemma {:induction false} WalkKeeps(rows: Rows, w: int, robot: Vector, moves: seq<Move>)
    requires G.Rectangular(rows, w) && Look(rows, w, robot) == Some(FLOOR)
    ensures Look(Walk(rows, w, robot, moves).0, w, Walk(rows, w, robot, moves).1) == Some(FLOOR)
    ensures Count(Walk(rows, w, robot, moves).0, BOX) == Count(rows, BOX)
    ensures forall p :: Look(Walk(rows, w, robot, moves).0, w, p) == Some(WALL) <==> Look(rows, w, p) == Some(WALL)
  {
    if moves != [] {
      var before := Walk(rows, w, robot, moves[..|moves| - 1]);
      WalkKeeps(rows, w, robot, moves[..|moves| - 1]);
      var m := moves[|moves| - 1];
      if Push(before.0, w, before.1, m).Some? {
        PushShape(before.0, w, before.1, m);
        PushKeepsBoxes(before.0, w, before.1, m);
      }
    }
  }

  // ---------------------------------------------------------------------
  // GPS coordinates

  predicate Sorted(s: seq<G.XY>)
  {
    forall i, j :: 0 <= i < j < |s| ==> G.RowMajorBefore(s[i], s[j])
  }

  // The cells of row y holding b among the first n, left to right.
  function RowCells(row: seq<Byte>, y: int, b: Byte, n: nat): (r: seq<G.XY>)
    requires n <= |row|
    ensures forall s {:trigger s in r} :: s in r <==> s.y == y && 0 <= s.x < n && row[s.x] == b
  {
    if n == 0 then [] else RowCells(row, y, b, n - 1) + (if row[n - 1] == b then [G.XY(n - 1, y)] else [])
  }

  // The cells of the first n rows holding b, in row-major order.
  function Cells(rows: Rows, w: nat, b: Byte, n: nat): (r: seq<G.XY>)
    requires G.Rectangular(rows, w) && n <= |rows|
    ensures forall s {:trigger s in r} :: s in r <==> 0 <= s.y < n && 0 <= s.x < w && rows[s.y][s.x] == b
  {
    if n == 0 then [] else Cells(rows, w, b, n - 1) + RowCells(rows[n - 1], n - 1, b, w)
  }

  lemma {:induction false} RowCellsSorted(row: seq<Byte>, y: int, b: Byte, n: nat)
    requires n <= |row|
    ensures Sorted(RowCells(row, y, b, n))
  {
    if n > 0 {
      RowCellsSorted(row, y, b, n - 1);
      var a := RowCells(row, y, b, n - 1);
      forall i | 0 <= i < |a|
        ensures a[i].y == y && a[i].x < n - 1
      {
        assert a[i] in a;
      }
    }
  }

  lemma SortedJoin(a: seq<G.XY>, c: seq<G.XY>, y: int)
    requires Sorted(a) && Sorted(c)
    requires forall s :: s in a ==> s.y < y
    requires forall s :: s in c ==> s.y == y
    ensures Sorted(a + c)
  {
    forall i, j | 0 <= i < j < |a + c|
      ensures G.RowMajorBefore((a + c)[i], (a + c)[j])
    {
      if j < |a| {
        assert (a + c)[i] == a[i] && (a + c)[j] == a[j];
      } else if i >= |a| {
        assert (a + c)[i] == c[i - |a|] && (a + c)[j] == c[j - |a|];
      } else {
        assert (a + c)[i] == a[i] && (a + c)[j] == c[j - |a|];
        assert a[i] in a && c[j - |a|] in c;
      }
    }
  }

  lemma {:induction false} CellsSorted(rows: Rows, w: nat, b: Byte, n: nat)
    requires G.Rectangular(rows, w) && n <= |rows|
    ensures Sorted(Cells(rows, w, b, n))
  {
    if n > 0 {
      CellsSorted(rows, w, b, n - 1);
      RowCellsSorted(rows[n - 1], n - 1, b, w);
      var a := Cells(rows, w, b, n - 1);
      var c := RowCells(rows[n - 1], n - 1, b, w);
      SortedJoin(a, c, n - 1);
    }
  }

  // Two row-major sorted lists with the same cells are the same list.
  lemma {:induction false} SortedSame(a: seq<G.XY>, c: seq<G.XY>)
    requires Sorted(a) && Sorted(c) && forall s :: s in a <==> s in c
    ensures a == c
    decreases |a|
  {
    if c != [] {
      assert c[0] in c;
    }
    if a != [] {
      assert a[0] in c && c[0] in a;
      assert a[0] == c[0];
      forall s
        ensures s in a[1..] <==> s in c[1..]
      {
        if s in a[1..] {
          var i :| 1 <= i < |a| && a[i] == s;
          assert s in a;
          var j :| 0 <= j < |c| && c[j] == s;
          assert j != 0;
          assert c[1..][j - 1] == s;
        }
        if s in c[1..] {
          var j :| 1 <= j < |c| && c[j] == s;
          assert s in c;
          var i :| 0 <= i < |a| && a[i] == s;
          assert i != 0;
          assert a[1..][i - 1] == s;
        }
      }
      SortedSame(a[1..], c[1..]);
    }
  }

  // The sum of x + 100y over the cells.
  function Score(cells: seq<G.XY>): int
  {
    if cells == [] then 0 else Score(cells[..|cells| - 1]) + cells[|cells| - 1].x + cells[|cells| - 1].y * 100
  }

  // The GPS score of the cells holding b: found with `grid.find`, whose
  // cells are exactly those of b, each once.
  method Gps(grid: G.Grid, b: Byte) returns (score: int)
    requires grid.Valid()
    ensures score == Score(Cells(grid.data, grid.w, b, grid.h))
  {
    var found := grid.Find(b);
    CellsSorted(grid.data, grid.w, b, grid.h);
    SortedSame(found, Cells(grid.data, grid.w, b, grid.h));
    score := Score(found);
  }

  /** Part 1: the robot is lifted off the map, every move pushes what lies
    * ahead when it can, and the score sums the boxes' GPS coordinates. */
  method PartOne(grid: G.Grid, moves: seq<Move>, ghost robot: Vector) returns (score: int)
    requires grid.Valid() && Look(grid.data, grid.w, robot) == Some(ROBOT)
    requires forall p :: Look(grid.data, grid.w, p) == Some(ROBOT) ==> p == robot
    modifies grid
    ensures grid.Valid()
    ensures grid.data == Walk(Put(old(grid.data), grid.w, robot, FLOOR), grid.w, robot, moves).0
    ensures score == Score(Cells(grid.data, grid.w, BOX, grid.h))
  {
    var found := grid.Find(ROBOT);
    assert G.XY(robot.x, robot.y) in found;
    var robotXY := Vector(found[0].x, found[0].y);
    assert Look(grid.data, grid.w, robotXY) == Some(ROBOT);
    var _ := grid.Put(G.XY(robotXY.x, robotXY.y), FLOOR);
    ghost var start := grid.data;
    for i := 0 to |moves|
      invariant grid.Valid()
      invariant grid.data == Walk(start, grid.w, robot, moves[..i]).0
      invariant robotXY == Walk(start, grid.w, robot, moves[..i]).1
    {
      assert moves[..i + 1][..i] == moves[..i];
      var able := PushBoxes(grid, robotXY, moves[i]);
      if able {
        robotXY := Add(robotXY, ToVector(moves[i]));
      }
    }
    assert moves[..|moves|] == moves;
    score := Gps(grid, BOX);
  }

  // ---------------------------------------------------------------------
  // Part 2: the map twice as wide, with boxes of two cells

  const RIGHT := Vector(1, 0)

  predicate WideByte(b: Byte)
  {
    b == FLOOR || b == WALL || b == BOX_L || b == BOX_R
  }

  // Every cell is floor, wall or half a box.
  ghost predicate WideCells(rows: Rows, w: int)
    requires G.Rectangular(rows, w)
  {
    forall p :: Look(rows, w, p).Some? ==> WideByte(Look(rows, w, p).value)
  }

  // A '[' stands exactly where a ']' stands to its right.
  ghost predicate Paired(rows: Rows, w: int)
    requires G.Rectangular(rows, w)
  {
    forall p :: Look(rows, w, p) == Some(BOX_L) <==> Look(rows, w, Add(p, RIGHT)) == Some(BOX_R)
  }

  // Boxes are named by their left half.
  predicate IsBox(rows: Rows, w: int, b: Vector)
    requires G.Rectangular(rows, w)
  {
    Look(rows, w, b) == Some(BOX_L)
  }

  ghost predicate AllBoxes(rows: Rows, w: int, mb: seq<Vector>)
    requires G.Rectangular(rows, w)
  {
    forall b :: b in mb ==> IsBox(rows, w, b)
  }

  // p is one of the two cells of a box of mb.
  predicate Covers(mb: seq<Vector>, p: Vector)
  {
    p in mb || Sub(p, RIGHT) in mb
  }

  // The cell a box moves into is free, or a box of mb moves out of it.
  predicate FreeFor(rows: Rows, w: int, mb: seq<Vector>, t: Vector)
    requires G.Rectangular(rows, w)
  {
    Look(rows, w, t) == Some(FLOOR) || Covers(mb, t)
  }

  // Both cells box b moves into are free for it.
  predicate Done(rows: Rows, w: int, mb: seq<Vector>, m: Move, b: Vector)
    requires G.Rectangular(rows, w)
  {
    FreeFor(rows, w, mb, AddDir(b, m)) && FreeFor(rows, w, mb, Add(AddDir(b, m), RIGHT))
  }

  // Every box of mb can move along m once all of mb moves.
  ghost predicate Closed(rows: Rows, w: int, mb: seq<Vector>, m: Move)
    requires G.Rectangular(rows, w)
  {
    forall b :: b in mb ==> IsBox(rows, w, b) && Done(rows, w, mb, m, b)
  }

  // Box c overlaps a cell that box b moves into.
  predicate Feeds(b: Vector, c: Vector, m: Move)
  {
    var t := AddDir(b, m);
    c.y == t.y && t.x - 1 <= c.x <= t.x + 1
  }

  // Box i is pushed by an earlier box.
  ghost predicate Fed(mb: seq<Vector>, m: Move, i: int)
    requires 0 <= i < |mb|
  {
    exists j :: 0 <= j < i && Feeds(mb[j], mb[i], m)
  }

  // Every box after the first is pushed by an earlier one.
  ghost predicate Chained(mb: seq<Vector>, m: Move)
  {
    |mb| > 0 && forall i :: 0 < i < |mb| ==> Fed(mb, m, i)
  }

  // The box whose half lies at n.
  function Start(rows: Rows, w: int, n: Vector): Vector
    requires G.Rectangular(rows, w)
  {
    if Look(rows, w, n) == Some(BOX_R) then Sub(n, RIGHT) else n
  }

  // mb lists boxes that a push into n along m moves, starting with the
  // box at n.
  ghost predicate Pushes(rows: Rows, w: int, n: Vector, m: Move, mb: seq<Vector>)
    requires G.Rectangular(rows, w)
  {
    Chained(mb, m) && mb[0] == Start(rows, w, n) && AllBoxes(rows, w, mb)
  }

  // A cell box b moves into is a wall or off the map.
  predicate Blocked(rows: Rows, w: int, b: Vector, m: Move)
    requires G.Rectangular(rows, w)
  {
    !Open(Look(rows, w, AddDir(b, m))) || !Open(Look(rows, w, Add(AddDir(b, m), RIGHT)))
  }

  // Some box of mb is blocked.
  ghost predicate Stuck(rows: Rows, w: int, mb: seq<Vector>, m: Move)
    requires G.Rectangular(rows, w)
  {
    exists b :: b in mb && Blocked(rows, w, b, m)
  }

  lemma GetLook(grid: G.Grid, v: Vector)
    requires grid.Valid()
    ensures grid.Get(G.XY(v.x, v.y)) == Look(grid.data, grid.w, v)
  {
  }

  // Along a row, boxes follow each other at distance two.
  ghost predicate Stride(mb: seq<Vector>, d: Vector)
  {
    forall i :: 0 < i < |mb| ==> mb[i] == Add(mb[i - 1], d)
  }

  // `box_tree_is_pushable` for a push to the left or right: the boxes
  // touching one another in the row.
  method RowTree(grid: G.Grid, xy: Vector, m: Move) returns (r: Option<seq<Vector>>)
    requires grid.Valid() && Paired(grid.data, grid.w) && WideCells(grid.data, grid.w)
    requires m == Left || m == Right
    requires IsBox(grid.data, grid.w, xy)
    ensures r.Some? ==> |r.value| > 0 && r.value[0] == xy && Chained(r.value, m) && Closed(grid.data, grid.w, r.value, m)
    ensures r.None? ==> exists mb :: |mb| > 0 && mb[0] == xy && Chained(mb, m) && AllBoxes(grid.data, grid.w, mb) && Stuck(grid.data, grid.w, mb, m)
  {
    ghost var rows, w := grid.data, grid.w;
    var d := if m == Right then Vector(2, 0) else Vector(-2, 0);
    var boxes := [xy];
    var q := AddDir(xy, m);
    if m == Right {
      q := AddDir(q, m);
    }
    while true
      invariant |boxes| > 0 && boxes[0] == xy && AllBoxes(rows, w, boxes) && Stride(boxes, d)
      invariant m == Right ==> q == Add(boxes[|boxes| - 1], d)
      invariant m == Left ==> (q == Sub(boxes[|boxes| - 1], RIGHT) ||
        (q == Add(boxes[|boxes| - 1], d) && Look(rows, w, Add(q, RIGHT)) == Some(BOX_R)))
      decreases Room(grid.w, grid.h, q, m)
    {
      var o := grid.Get(G.XY(q.x, q.y));
      GetLook(grid, q);
      if o.None? || o.value == WALL {
        StrideChained(boxes, d, m);
        RowBlocked(rows, w, boxes[|boxes| - 1], d, m, q);
        assert boxes[|boxes| - 1] in boxes;
        return None;
      }
      if o.value == FLOOR {
        StrideChained(boxes, d, m);
        StrideClosed(rows, w, boxes, d, m, q);
        return Some(boxes);
      }
      if o.value == BOX_L {
        assert Look(rows, w, Add(q, RIGHT)) == Some(BOX_R);
        assert IsBox(rows, w, boxes[|boxes| - 1]) by {
          assert boxes[|boxes| - 1] in boxes;
        }
        StrideSnoc(boxes, d, q);
        boxes := boxes + [q];
        q := if m == Right then AddDir(AddDir(q, m), m) else AddDir(q, m);
        continue;
      }
      if o.value == BOX_R {
        if m == Right {
          PastRightHalf(rows, w, boxes[|boxes| - 1]);
        }
        assert m == Left;
        q := AddDir(q, m);
        continue;
      }
      assert false;
    }
  }

  // The cell two past a box cannot be a right half.
  lemma PastRightHalf(rows: Rows, w: int, b: Vector)
    requires G.Rectangular(rows, w) && Paired(rows, w) && IsBox(rows, w, b)
    ensures Look(rows, w, Add(b, Vector(2, 0))) != Some(BOX_R)
  {
    var c := Add(b, RIGHT);
    assert Look(rows, w, Add(b, RIGHT)) == Some(BOX_R);
    assert Add(c, RIGHT) == Add(b, Vector(2, 0));
    assert Look(rows, w, c) == Some(BOX_L) <==> Look(rows, w, Add(c, RIGHT)) == Some(BOX_R);
  }

  // The row stops at a wall or the edge right past the last box.
  lemma RowBlocked(rows: Rows, w: int, last: Vector, d: Vector, m: Move, q: Vector)
    requires G.Rectangular(rows, w) && Paired(rows, w)
    requires (m == Right && d == Vector(2, 0)) || (m == Left && d == Vector(-2, 0))
    requires m == Right ==> q == Add(last, d)
    requires m == Left ==> (q == Sub(last, RIGHT) ||
        (q == Add(last, d) && Look(rows, w, Add(q, RIGHT)) == Some(BOX_R)))
    requires !Open(Look(rows, w, q))
    ensures Blocked(rows, w, last, m)
  {
  }

  lemma StrideSnoc(mb: seq<Vector>, d: Vector, q: Vector)
    requires |mb| > 0 && Stride(mb, d) && q == Add(mb[|mb| - 1], d)
    ensures Stride(mb + [q], d)
  {
  }

  lemma StrideChained(mb: seq<Vector>, d: Vector, m: Move)
    requires |mb| > 0 && Stride(mb, d)
    requires (m == Right && d == Vector(2, 0)) || (m == Left && d == Vector(-2, 0))
    ensures Chained(mb, m)
  {
    forall i | 0 < i < |mb|
      ensures Fed(mb, m, i)
    {
      assert Feeds(mb[i - 1], mb[i], m);
    }
  }

  // The row ends at floor q just past the last box.
  lemma StrideClosed(rows: Rows, w: int, mb: seq<Vector>, d: Vector, m: Move, q: Vector)
    requires G.Rectangular(rows, w) && |mb| > 0 && AllBoxes(rows, w, mb) && Stride(mb, d)
    requires (m == Right && d == Vector(2, 0)) || (m == Left && d == Vector(-2, 0))
    requires Look(rows, w, q) == Some(FLOOR)
    requires q == if m == Right then Add(mb[|mb| - 1], d) else Sub(mb[|mb| - 1], RIGHT)
    ensures Closed(rows, w, mb, m)
  {
    forall b | b in mb
      ensures Done(rows, w, mb, m, b)
    {
      var i :| 0 <= i < |mb| && mb[i] == b;
      if i + 1 < |mb| {
        assert mb[i + 1] in mb;
      }
    }
  }

  // A tree of boxes: each after the first overlaps a cell its parent, an
  // earlier box, moves into.
  ghost predicate Tree(rows: Rows, w: int, m: Move, mb: seq<Vector>, parent: seq<nat>)
    requires G.Rectangular(rows, w)
  {
    |mb| > 0 && |parent| == |mb| && AllBoxes(rows, w, mb) &&
    forall i :: 0 < i < |mb| ==> parent[i] < i && Feeds(mb[parent[i]], mb[i], m)
  }

  // Each queued cell is the left cell that box owner[k] moves into.
  ghost predicate Waiting(mb: seq<Vector>, m: Move, queue: seq<Vector>, owner: seq<nat>)
  {
    |owner| == |queue| && forall k :: 0 <= k < |queue| ==> owner[k] < |mb| && AddDir(mb[owner[k]], m) == queue[k]
  }

  ghost predicate Growing(rows: Rows, w: int, m: Move, xy: Vector, mb: seq<Vector>, parent: seq<nat>,
                          queue: seq<Vector>, owner: seq<nat>)
    requires G.Rectangular(rows, w)
  {
    Tree(rows, w, m, mb, parent) && mb[0] == xy && Waiting(mb, m, queue, owner)
  }

  // Every box still waits for its cells to be looked at, or they are free.
  ghost predicate Settled(rows: Rows, w: int, mb: seq<Vector>, m: Move, queue: seq<Vector>)
    requires G.Rectangular(rows, w)
  {
    forall b :: b in mb ==> AddDir(b, m) in queue || Done(rows, w, mb, m, b)
  }

  lemma GrowingPop(rows: Rows, w: int, m: Move, xy: Vector, mb: seq<Vector>, parent: seq<nat>,
                   queue: seq<Vector>, owner: seq<nat>)
    requires G.Rectangular(rows, w) && Growing(rows, w, m, xy, mb, parent, queue, owner) && queue != []
    ensures Growing(rows, w, m, xy, mb, parent, queue[1..], owner[1..])
  {
    assert forall k :: 0 <= k < |queue| - 1 ==> queue[1..][k] == queue[k + 1] && owner[1..][k] == owner[k + 1];
  }

  // The cells the boxes of s move into, in order.
  function Ahead(s: seq<Vector>, m: Move): (r: seq<Vector>)
    ensures |r| == |s| && forall k :: 0 <= k < |s| ==> r[k] == AddDir(s[k], m)
  {
    if s == [] then [] else [AddDir(s[0], m)] + Ahead(s[1..], m)
  }

  function Repeat(j: nat, n: nat): (r: seq<nat>)
    ensures |r| == n && forall k :: 0 <= k < n ==> r[k] == j
  {
    seq(n, _ => j)
  }

  function Indices(from: nat, n: nat): (r: seq<nat>)
    ensures |r| == n && forall k :: 0 <= k < n ==> r[k] == from + k
  {
    seq(n, k => from + k)
  }

  lemma GrowingAdd(rows: Rows, w: int, m: Move, xy: Vector, mb: seq<Vector>, parent: seq<nat>,
                   queue: seq<Vector>, owner: seq<nat>, j: nat, found: seq<Vector>)
    requires G.Rectangular(rows, w) && Growing(rows, w, m, xy, mb, parent, queue, owner)
    requires j < |mb| && forall z :: z in found ==> Feeds(mb[j], z, m) && IsBox(rows, w, z)
    ensures Growing(rows, w, m, xy, mb + found, parent + Repeat(j, |found|), queue + Ahead(found, m),
                    owner + Indices(|mb|, |found|))
  {
    TreeAdd(rows, w, m, mb, parent, j, found);
    WaitingAdd(mb, m, queue, owner, found);
  }

  lemma TreeAdd(rows: Rows, w: int, m: Move, mb: seq<Vector>, parent: seq<nat>, j: nat, found: seq<Vector>)
    requires G.Rectangular(rows, w) && Tree(rows, w, m, mb, parent)
    requires j < |mb| && forall z :: z in found ==> Feeds(mb[j], z, m) && IsBox(rows, w, z)
    ensures Tree(rows, w, m, mb + found, parent + Repeat(j, |found|))
  {
    var mb', parent' := mb + found, parent + Repeat(j, |found|);
    assert forall i :: 0 <= i < |mb| ==> mb'[i] == mb[i] && parent'[i] == parent[i];
    forall i | |mb| <= i < |mb'|
      ensures parent'[i] < i && Feeds(mb'[parent'[i]], mb'[i], m) && IsBox(rows, w, mb'[i])
    {
      assert mb'[i] == found[i - |mb|] && found[i - |mb|] in found;
    }
  }

  lemma WaitingAdd(mb: seq<Vector>, m: Move, queue: seq<Vector>, owner: seq<nat>, found: seq<Vector>)
    requires Waiting(mb, m, queue, owner)
    ensures Waiting(mb + found, m, queue + Ahead(found, m), owner + Indices(|mb|, |found|))
  {
    var mb', queue', owner' := mb + found, queue + Ahead(found, m), owner + Indices(|mb|, |found|);
    forall k | 0 <= k < |queue'|
      ensures owner'[k] < |mb'| && AddDir(mb'[owner'[k]], m) == queue'[k]
    {
      if k >= |queue| {
        assert queue'[k] == AddDir(found[k - |queue|], m);
      } else {
        assert queue'[k] == queue[k] && owner'[k] == owner[k] && mb'[owner[k]] == mb[owner[k]];
      }
    }
  }

  lemma TreeChained(rows: Rows, w: int, m: Move, mb: seq<Vector>, parent: seq<nat>)
    requires G.Rectangular(rows, w) && Tree(rows, w, m, mb, parent)
    ensures Chained(mb, m)
  {
    forall i | 0 < i < |mb|
      ensures Fed(mb, m, i)
    {
      assert Feeds(mb[parent[i]], mb[i], m);
    }
  }

  // After the cells q and q + 1 are found free for the boxes so far, every
  // box that was waiting on q is done.
  lemma SettledStep(rows: Rows, w: int, m: Move, mb: seq<Vector>, found: seq<Vector>, queue: seq<Vector>)
    requires G.Rectangular(rows, w) && queue != [] && Settled(rows, w, mb, m, queue)
    requires FreeFor(rows, w, mb + found, queue[0]) && FreeFor(rows, w, mb + found, Add(queue[0], RIGHT))
    ensures Settled(rows, w, mb + found, m, queue[1..] + Ahead(found, m))
  {
    var mb', queue' := mb + found, queue[1..] + Ahead(found, m);
    forall b | b in mb'
      ensures AddDir(b, m) in queue' || Done(rows, w, mb', m, b)
    {
      if b in found {
        var k :| 0 <= k < |found| && found[k] == b;
        assert queue'[|queue| - 1 + k] == AddDir(b, m);
      } else if AddDir(b, m) in queue[1..] {
        var k :| 0 <= k < |queue| - 1 && queue[1..][k] == AddDir(b, m);
        assert queue'[k] == AddDir(b, m);
      }
    }
  }

  lemma SettledClosed(rows: Rows, w: int, m: Move, mb: seq<Vector>)
    requires G.Rectangular(rows, w) && Settled(rows, w, mb, m, []) && AllBoxes(rows, w, mb)
    ensures Closed(rows, w, mb, m)
  {
  }

  function Pow3(n: nat): (r: nat)
    ensures r >= 1
  {
    if n == 0 then 1 else 3 * Pow3(n - 1)
  }

  // The queue's weight: each cell counts three to the power of the rows
  // left beyond it, so one cell replaced by two a row further weighs less.
  function Weight(w: int, h: int, m: Move, queue: seq<Vector>): nat
  {
    if queue == [] then 0 else Pow3(Room(w, h, queue[0], m)) + Weight(w, h, m, queue[1..])
  }

  lemma {:induction false} WeightJoin(w: int, h: int, m: Move, a: seq<Vector>, b: seq<Vector>)
    ensures Weight(w, h, m, a + b) == Weight(w, h, m, a) + Weight(w, h, m, b)
  {
    if a == [] {
      assert a + b == b;
    } else {
      assert (a + b)[0] == a[0];
      assert (a + b)[1..] == a[1..] + b;
      WeightJoin(w, h, m, a[1..], b);
    }
  }

  // A cell one row on along m has one row less left.
  lemma RoomAhead(w: int, h: int, m: Move, q: Vector, x: Vector)
    requires (m == Up || m == Down) && 0 <= q.y < h && x.y == AddDir(q, m).y
    ensures Room(w, h, x, m) + 1 == Room(w, h, q, m)
  {
  }

  lemma WeightPair(w: int, h: int, m: Move, added: seq<Vector>, r: nat)
    requires r > 0 && |added| <= 2 && forall k :: 0 <= k < |added| ==> Room(w, h, added[k], m) + 1 == r
    ensures Weight(w, h, m, added) <= 2 * Pow3(r - 1)
  {
    if added != [] {
      var tail := added[1..];
      assert Weight(w, h, m, added) == Pow3(r - 1) + Weight(w, h, m, tail);
      if tail != [] {
        assert tail[0] == added[1] && tail[1..] == [];
        assert Weight(w, h, m, tail) == Pow3(r - 1) + Weight(w, h, m, tail[1..]);
      }
    }
  }

  // Popping a cell on the map and queueing at most two a row further
  // lightens the queue.
  lemma WeightPop(w: int, h: int, m: Move, queue: seq<Vector>, found: seq<Vector>)
    requires (m == Up || m == Down) && queue != [] && 0 <= queue[0].y < h && |found| <= 2
    requires forall z :: z in found ==> z.y == queue[0].y
    ensures Weight(w, h, m, queue[1..] + Ahead(found, m)) < Weight(w, h, m, queue)
  {
    var added := Ahead(found, m);
    var r := Room(w, h, queue[0], m);
    forall k | 0 <= k < |added|
      ensures Room(w, h, added[k], m) + 1 == r
    {
      assert found[k] in found;
      RoomAhead(w, h, m, queue[0], added[k]);
    }
    WeightPair(w, h, m, added, r);
    WeightJoin(w, h, m, queue[1..], added);
    assert Weight(w, h, m, queue) == Pow3(r) + Weight(w, h, m, queue[1..]);
    assert Pow3(r) == 3 * Pow3(r - 1);
  }

  // `box_tree_is_pushable` for a push up or down: a breadth-first walk
  // over the cells the boxes found so far move into.
  method ColumnTree(grid: G.Grid, xy: Vector, m: Move) returns (r: Option<seq<Vector>>)
    requires grid.Valid() && Paired(grid.data, grid.w) && WideCells(grid.data, grid.w)
    requires m == Up || m == Down
    requires IsBox(grid.data, grid.w, xy)
    ensures r.Some? ==> |r.value| > 0 && r.value[0] == xy && Chained(r.value, m) && Closed(grid.data, grid.w, r.value, m)
    ensures r.None? ==> exists mb :: |mb| > 0 && mb[0] == xy && Chained(mb, m) && AllBoxes(grid.data, grid.w, mb) && Stuck(grid.data, grid.w, mb, m)
  {
    ghost var rows, w := grid.data, grid.w;
    var boxes := [xy];
    ghost var parent: seq<nat> := [0];
    var queue := [AddDir(xy, m)];
    ghost var owner: seq<nat> := [0];
    while queue != []
      invariant Search(rows, w, m, xy, boxes, parent, queue, owner)
      decreases Weight(grid.w, grid.h, m, queue)
    {
      var q := queue[0];
      var a := grid.Get(G.XY(q.x, q.y));
      var u := Add(q, RIGHT);
      var b := grid.Get(G.XY(u.x, u.y));
      GetLook(grid, q);
      GetLook(grid, u);
      if a.None? || b.None? || a.value == WALL || b.value == WALL {
        QueueBlocked(rows, w, m, xy, boxes, parent, queue, owner);
        return None;
      }
      var found := FoundAt(q, a.value, b.value);
      Visit(rows, w, grid.h, m, xy, boxes, parent, queue, owner, a.value, b.value);
      ghost var j := owner[0];
      boxes, parent, queue, owner := boxes + found, parent + Repeat(j, |found|),
        queue[1..] + Ahead(found, m), owner[1..] + Indices(|boxes|, |found|);
    }
    TreeChained(rows, w, m, boxes, parent);
    SettledClosed(rows, w, m, boxes);
    return Some(boxes);
  }

  // The state of the walk between turns.
  ghost predicate Search(rows: Rows, w: int, m: Move, xy: Vector, mb: seq<Vector>, parent: seq<nat>,
                         queue: seq<Vector>, owner: seq<nat>)
    requires G.Rectangular(rows, w)
  {
    Growing(rows, w, m, xy, mb, parent, queue, owner) && Settled(rows, w, mb, m, queue)
  }

  // A queued cell that is a wall or off the map blocks the box waiting on it.
  lemma QueueBlocked(rows: Rows, w: int, m: Move, xy: Vector, mb: seq<Vector>, parent: seq<nat>,
                     queue: seq<Vector>, owner: seq<nat>)
    requires G.Rectangular(rows, w) && Search(rows, w, m, xy, mb, parent, queue, owner) && queue != []
    requires !Open(Look(rows, w, queue[0])) || !Open(Look(rows, w, Add(queue[0], RIGHT)))
    ensures exists mb' :: |mb'| > 0 && mb'[0] == xy && Chained(mb', m) && AllBoxes(rows, w, mb') && Stuck(rows, w, mb', m)
  {
    TreeChained(rows, w, m, mb, parent);
    assert mb[owner[0]] in mb && Blocked(rows, w, mb[owner[0]], m);
  }

  // One turn of the walk: the head of the queue is popped and the boxes
  // standing on its two cells are added.
  lemma Visit(rows: Rows, w: int, h: int, m: Move, xy: Vector, mb: seq<Vector>, parent: seq<nat>,
              queue: seq<Vector>, owner: seq<nat>, x: Byte, y: Byte)
    requires G.Rectangular(rows, w) && Paired(rows, w) && WideCells(rows, w) && h == |rows|
    requires (m == Up || m == Down) && queue != []
    requires Search(rows, w, m, xy, mb, parent, queue, owner)
    requires Look(rows, w, queue[0]) == Some(x) && Look(rows, w, Add(queue[0], RIGHT)) == Some(y)
    requires x != WALL && y != WALL
    ensures Search(rows, w, m, xy, mb + FoundAt(queue[0], x, y), parent + Repeat(owner[0], |FoundAt(queue[0], x, y)|),
                   queue[1..] + Ahead(FoundAt(queue[0], x, y), m), owner[1..] + Indices(|mb|, |FoundAt(queue[0], x, y)|))
    ensures Weight(w, h, m, queue[1..] + Ahead(FoundAt(queue[0], x, y), m)) < Weight(w, h, m, queue)
  {
    var q, j := queue[0], owner[0];
    Found(rows, w, mb, m, q, mb[j], x, y);
    GrowingPop(rows, w, m, xy, mb, parent, queue, owner);
    GrowingAdd(rows, w, m, xy, mb, parent, queue[1..], owner[1..], j, FoundAt(q, x, y));
    SettledStep(rows, w, m, mb, FoundAt(q, x, y), queue);
    WeightPop(w, h, m, queue, FoundAt(q, x, y));
  }

  // The boxes whose halves stand at q and q + 1, given what those hold.
  function FoundAt(q: Vector, x: Byte, y: Byte): seq<Vector>
  {
    if x == FLOOR && y == FLOOR then []
    else if x == BOX_L && y == BOX_R then [q]
    else (if x == BOX_R then [Sub(q, RIGHT)] else []) + (if y == BOX_L then [Add(q, RIGHT)] else [])
  }

  // The boxes found at a pair of cells q, q + 1 that box b moves into
  // cover every box cell among them, and each overlaps one of those cells.
  lemma Found(rows: Rows, w: int, mb: seq<Vector>, m: Move, q: Vector, b: Vector, x: Byte, y: Byte)
    requires G.Rectangular(rows, w) && Paired(rows, w) && WideCells(rows, w)
    requires (m == Up || m == Down) && AddDir(b, m) == q
    requires Look(rows, w, q) == Some(x) && Look(rows, w, Add(q, RIGHT)) == Some(y) && x != WALL && y != WALL
    ensures |FoundAt(q, x, y)| <= 2 && forall z :: z in FoundAt(q, x, y) ==> z.y == q.y
    ensures forall z :: z in FoundAt(q, x, y) ==> Feeds(b, z, m) && IsBox(rows, w, z)
    ensures FreeFor(rows, w, mb + FoundAt(q, x, y), q) && FreeFor(rows, w, mb + FoundAt(q, x, y), Add(q, RIGHT))
  {
    var l, n := Sub(q, RIGHT), Add(q, RIGHT);
    assert x == BOX_L <==> y == BOX_R by {
      assert Look(rows, w, q) == Some(BOX_L) <==> Look(rows, w, Add(q, RIGHT)) == Some(BOX_R);
    }
    assert x == BOX_R ==> IsBox(rows, w, l) by {
      assert Add(l, RIGHT) == q;
      assert Look(rows, w, l) == Some(BOX_L) <==> Look(rows, w, Add(l, RIGHT)) == Some(BOX_R);
    }
    assert WideByte(x) && WideByte(y) by {
      assert Look(rows, w, q).Some? && Look(rows, w, n).Some?;
    }
    FoundCases(rows, w, mb, m, q, b, x, y);
  }

  lemma FoundCases(rows: Rows, w: int, mb: seq<Vector>, m: Move, q: Vector, b: Vector, x: Byte, y: Byte)
    requires G.Rectangular(rows, w) && WideByte(x) && WideByte(y) && x != WALL && y != WALL
    requires (m == Up || m == Down) && AddDir(b, m) == q
    requires Look(rows, w, q) == Some(x) && Look(rows, w, Add(q, RIGHT)) == Some(y)
    requires x == BOX_L <==> y == BOX_R
    requires x == BOX_R ==> IsBox(rows, w, Sub(q, RIGHT))
    ensures |FoundAt(q, x, y)| <= 2 && forall z :: z in FoundAt(q, x, y) ==> z.y == q.y
    ensures forall z :: z in FoundAt(q, x, y) ==> Feeds(b, z, m) && IsBox(rows, w, z)
    ensures FreeFor(rows, w, mb + FoundAt(q, x, y), q) && FreeFor(rows, w, mb + FoundAt(q, x, y), Add(q, RIGHT))
  {
    var l, n, found := Sub(q, RIGHT), Add(q, RIGHT), FoundAt(q, x, y);
    assert Sub(n, RIGHT) == q;
    if x == FLOOR && y == FLOOR {
    } else if x == BOX_L {
      assert q in mb + found;
    } else {
      assert x == FLOOR || x == BOX_R;
      assert y == FLOOR || y == BOX_L;
      if x == BOX_R {
        assert l in mb + found;
      }
      if y == BOX_L {
        assert n in mb + found;
      }
    }
  }

  /** `box_tree_is_pushable`: pushing into the box half at n along m
    * either moves a list of boxes, starting with that box, each pushed by
    * an earlier one and all free to move together; or fails because some
    * box the push reaches runs into a wall or the edge. */
  method BoxTreeIsPushable(grid: G.Grid, n: Vector, m: Move) returns (r: Option<seq<Vector>>)
    requires grid.Valid() && Paired(grid.data, grid.w) && WideCells(grid.data, grid.w)
    requires Look(grid.data, grid.w, n) == Some(BOX_L) || Look(grid.data, grid.w, n) == Some(BOX_R)
    ensures r.Some? ==> Pushes(grid.data, grid.w, n, m, r.value) && Closed(grid.data, grid.w, r.value, m)
    ensures r.None? ==> exists mb :: Pushes(grid.data, grid.w, n, m, mb) && Stuck(grid.data, grid.w, mb, m)
  {
    ghost var rows, w := grid.data, grid.w;
    var xy := n;
    if grid.GetUnchecked(G.XY(n.x, n.y)) == BOX_R {
      xy := Vector(n.x - 1, n.y);
      assert Add(xy, RIGHT) == n;
    }
    assert Look(rows, w, xy) == Some(BOX_L) <==> Look(rows, w, Add(xy, RIGHT)) == Some(BOX_R);
    assert xy == Start(rows, w, n);
    if m == Left || m == Right {
      r := RowTree(grid, xy, m);
    } else {
      r := ColumnTree(grid, xy, m);
    }
    if r.None? {
      ghost var mb :| |mb| > 0 && mb[0] == xy && Chained(mb, m) && AllBoxes(rows, w, mb) && Stuck(rows, w, mb, m);
      assert Pushes(rows, w, n, m, mb);
    }
  }

  // A box c that box b pushes, with b among the closed list a, is itself
  // in a.
  lemma FedWithin(rows: Rows, w: int, m: Move, a: seq<Vector>, b: Vector, c: Vector)
    requires G.Rectangular(rows, w) && Paired(rows, w) && Closed(rows, w, a, m)
    requires b in a && Feeds(b, c, m) && IsBox(rows, w, c)
    ensures c in a
  {
    var t := AddDir(b, m);
    var t1 := Add(t, RIGHT);
    assert Done(rows, w, a, m, b);
    assert Look(rows, w, c) == Some(BOX_L) <==> Look(rows, w, Add(c, RIGHT)) == Some(BOX_R);
    if c.x == t.x - 1 {
      assert Add(c, RIGHT) == t && Sub(t, RIGHT) == c;
      assert IsBox(rows, w, t) || t !in a;
    } else if c.x == t.x {
      assert c == t;
      var l := Sub(t, RIGHT);
      assert Add(l, RIGHT) == t;
      assert Look(rows, w, l) == Some(BOX_L) <==> Look(rows, w, Add(l, RIGHT)) == Some(BOX_R);
      assert IsBox(rows, w, l) || l !in a;
    } else {
      assert c == t1 && Sub(t1, RIGHT) == t;
      assert Look(rows, w, t) == Some(BOX_L) <==> Look(rows, w, Add(t, RIGHT)) == Some(BOX_R);
      assert IsBox(rows, w, t) || t !in a;
    }
  }

  lemma {:induction false} BoxWithin(rows: Rows, w: int, n: Vector, m: Move, a: seq<Vector>, b: seq<Vector>, i: nat)
    requires G.Rectangular(rows, w) && Paired(rows, w)
    requires Pushes(rows, w, n, m, a) && Closed(rows, w, a, m) && Pushes(rows, w, n, m, b)
    requires i < |b|
    ensures b[i] in a
    decreases i
  {
    if i == 0 {
      assert a[0] in a;
    } else {
      assert Fed(b, m, i);
      var j :| 0 <= j < i && Feeds(b[j], b[i], m);
      BoxWithin(rows, w, n, m, a, b, j);
      assert b[i] in b;
      FedWithin(rows, w, m, a, b[j], b[i]);
    }
  }

  /** A list of boxes that can all move holds every box any push from the
    * same cell reaches, and none of those is blocked: the two outcomes of
    * `box_tree_is_pushable` exclude each other. */
  lemma PushesWithin(rows: Rows, w: int, n: Vector, m: Move, a: seq<Vector>, b: seq<Vector>)
    requires G.Rectangular(rows, w) && Paired(rows, w)
    requires Pushes(rows, w, n, m, a) && Closed(rows, w, a, m) && Pushes(rows, w, n, m, b)
    ensures forall c :: c in b ==> c in a
    ensures !Stuck(rows, w, b, m)
  {
    forall c | c in b
      ensures c in a && !Blocked(rows, w, c, m)
    {
      var i :| 0 <= i < |b| && b[i] == c;
      BoxWithin(rows, w, n, m, a, b, i);
      assert Done(rows, w, a, m, c);
      var t := AddDir(c, m);
      OpenIfFree(rows, w, a, m, t);
      OpenIfFree(rows, w, a, m, Add(t, RIGHT));
    }
  }

  lemma OpenIfFree(rows: Rows, w: int, a: seq<Vector>, m: Move, t: Vector)
    requires G.Rectangular(rows, w) && Paired(rows, w) && Closed(rows, w, a, m) && FreeFor(rows, w, a, t)
    ensures Open(Look(rows, w, t))
  {
    var l := Sub(t, RIGHT);
    assert Add(l, RIGHT) == t;
    assert t in a ==> IsBox(rows, w, t);
    assert l in a ==> IsBox(rows, w, l);
    assert Look(rows, w, l) == Some(BOX_L) <==> Look(rows, w, Add(l, RIGHT)) == Some(BOX_R);
  }

  // Two lists that can both move hold the same boxes.
  lemma PushesSame(rows: Rows, w: int, n: Vector, m: Move, a: seq<Vector>, b: seq<Vector>)
    requires G.Rectangular(rows, w) && Paired(rows, w)
    requires Pushes(rows, w, n, m, a) && Closed(rows, w, a, m) && Pushes(rows, w, n, m, b) && Closed(rows, w, b, m)
    ensures forall c :: c in a <==> c in b
  {
    PushesWithin(rows, w, n, m, a, b);
    PushesWithin(rows, w, n, m, b, a);
  }

  // The boxes of mb lifted off: both their cells become floor.
  function Erase(rows: Rows, w: int, mb: seq<Vector>): (r: Rows)
    requires G.Rectangular(rows, w)
    ensures |r| == |rows| && G.Rectangular(r, w)
  {
    if mb == [] then rows
    else
      var b := mb[|mb| - 1];
      Put(Put(Erase(rows, w, mb[..|mb| - 1]), w, b, FLOOR), w, Add(b, RIGHT), FLOOR)
  }

  // The boxes of mb set down one step along m.
  function Place(rows: Rows, w: int, mb: seq<Vector>, m: Move): (r: Rows)
    requires G.Rectangular(rows, w)
    ensures |r| == |rows| && G.Rectangular(r, w)
  {
    if mb == [] then rows
    else
      var t := AddDir(mb[|mb| - 1], m);
      Put(Put(Place(rows, w, mb[..|mb| - 1], m), w, t, BOX_L), w, Add(t, RIGHT), BOX_R)
  }

  /** The move of a pushable box tree: every box of mb is erased, then
    * every box is put back one step along m. */
  method MoveBoxes(grid: G.Grid, mb: seq<Vector>, m: Move)
    requires grid.Valid()
    modifies grid
    ensures grid.Valid()
    ensures grid.data == Place(Erase(old(grid.data), grid.w, mb), grid.w, mb, m)
  {
    var nmb := Ahead(mb, m);
    EraseBoxes(grid, mb);
    PlaceBoxes(grid, mb, nmb, m);
  }

  method EraseBoxes(grid: G.Grid, mb: seq<Vector>)
    requires grid.Valid()
    modifies grid
    ensures grid.Valid() && grid.data == Erase(old(grid.data), grid.w, mb)
  {
    ghost var start := grid.data;
    for i := 0 to |mb|
      invariant grid.Valid() && grid.data == Erase(start, grid.w, mb[..i])
    {
      ghost var before := grid.data;
      var b := mb[i];
      var _ := grid.Put(G.XY(b.x, b.y), FLOOR);
      var u := Add(b, RIGHT);
      var _ := grid.Put(G.XY(u.x, u.y), FLOOR);
      EraseSnoc(start, grid.w, mb, i, before, grid.data);
    }
    assert mb[..|mb|] == mb;
  }

  lemma EraseSnoc(rows: Rows, w: int, mb: seq<Vector>, i: nat, before: Rows, after: Rows)
    requires G.Rectangular(rows, w) && i < |mb| && before == Erase(rows, w, mb[..i])
    requires after == Put(Put(before, w, mb[i], FLOOR), w, Add(mb[i], RIGHT), FLOOR)
    ensures after == Erase(rows, w, mb[..i + 1])
  {
    assert mb[..i + 1][..i] == mb[..i];
  }

  method PlaceBoxes(grid: G.Grid, mb: seq<Vector>, nmb: seq<Vector>, m: Move)
    requires grid.Valid() && nmb == Ahead(mb, m)
    modifies grid
    ensures grid.Valid() && grid.data == Place(old(grid.data), grid.w, mb, m)
  {
    ghost var start := grid.data;
    for i := 0 to |nmb|
      invariant grid.Valid() && grid.data == Place(start, grid.w, mb[..i], m)
    {
      ghost var before := grid.data;
      var t := nmb[i];
      var _ := grid.Put(G.XY(t.x, t.y), BOX_L);
      ghost var half := grid.data;
      assert half == Put(before, grid.w, t, BOX_L);
      var u := Add(t, RIGHT);
      var _ := grid.Put(G.XY(u.x, u.y), BOX_R);
      assert grid.data == Put(half, grid.w, u, BOX_R);
      PlaceSnoc(start, grid.w, mb, m, i, t, before, grid.data);
    }
    assert mb[..|mb|] == mb;
  }

  lemma PlaceSnoc(rows: Rows, w: int, mb: seq<Vector>, m: Move, i: nat, t: Vector, before: Rows, after: Rows)
    requires G.Rectangular(rows, w) && i < |mb| && before == Place(rows, w, mb[..i], m) && t == AddDir(mb[i], m)
    requires after == Put(Put(before, w, t, BOX_L), w, Add(t, RIGHT), BOX_R)
    ensures after == Place(rows, w, mb[..i + 1], m)
  {
    assert mb[..i + 1][..i] == mb[..i];
  }

  // The box, if any, that moves into cell p.
  function Back(p: Vector, m: Move): Vector
  {
    Sub(p, ToVector(m))
  }

  // Erasing turns exactly the cells of the boxes into floor.
  lemma {:induction false} EraseAt(rows: Rows, w: int, mb: seq<Vector>, p: Vector)
    requires G.Rectangular(rows, w)
    ensures Look(Erase(rows, w, mb), w, p) == if Covers(mb, p) && Look(rows, w, p).Some? then Some(FLOOR) else Look(rows, w, p)
  {
    if mb != [] {
      var init, b := mb[..|mb| - 1], mb[|mb| - 1];
      EraseAt(rows, w, init, p);
      var r0 := Erase(rows, w, init);
      LookPut(r0, w, b, FLOOR, p);
      LookPut(Put(r0, w, b, FLOOR), w, Add(b, RIGHT), FLOOR, p);
      assert mb == init + [b];
      assert Covers(mb, p) <==> Covers(init, p) || p == b || Sub(p, RIGHT) == b;
      assert Sub(p, RIGHT) == b <==> p == Add(b, RIGHT);
    }
  }

  // No two boxes of mb stand side by side overlapping.
  ghost predicate Apart(mb: seq<Vector>)
  {
    forall b :: b in mb ==> Add(b, RIGHT) !in mb
  }

  // Placing puts a left half where a box arrives and a right half beside it.
  lemma {:induction false} PlaceAt(rows: Rows, w: int, mb: seq<Vector>, m: Move, p: Vector)
    requires G.Rectangular(rows, w) && Apart(mb)
    ensures Look(Place(rows, w, mb, m), w, p) ==
      if Look(rows, w, p).None? then None
      else if Back(p, m) in mb then Some(BOX_L)
      else if Back(Sub(p, RIGHT), m) in mb then Some(BOX_R)
      else Look(rows, w, p)
  {
    if mb != [] {
      var init, b := mb[..|mb| - 1], mb[|mb| - 1];
      assert mb == init + [b];
      assert Apart(init);
      PlaceAt(rows, w, init, m, p);
      var t := AddDir(b, m);
      var r0 := Place(rows, w, init, m);
      LookPut(r0, w, t, BOX_L, p);
      LookPut(Put(r0, w, t, BOX_L), w, Add(t, RIGHT), BOX_R, p);
      assert Back(p, m) == b <==> p == t;
      assert Back(Sub(p, RIGHT), m) == b <==> p == Add(t, RIGHT);
      if p == Add(t, RIGHT) {
        assert Back(p, m) == Add(b, RIGHT);
      }
    }
  }

  // What cell p holds once the boxes of mb moved one step along m.
  function Moved(rows: Rows, w: int, mb: seq<Vector>, m: Move, p: Vector): Option<Byte>
    requires G.Rectangular(rows, w)
  {
    if Look(rows, w, p).None? then None
    else if Back(p, m) in mb then Some(BOX_L)
    else if Back(Sub(p, RIGHT), m) in mb then Some(BOX_R)
    else if Covers(mb, p) then Some(FLOOR)
    else Look(rows, w, p)
  }

  // Erasing and then placing leaves each cell as Moved says.
  lemma MovedLook(rows: Rows, w: int, mb: seq<Vector>, m: Move, p: Vector)
    requires G.Rectangular(rows, w) && Apart(mb)
    ensures Look(Place(Erase(rows, w, mb), w, mb, m), w, p) == Moved(rows, w, mb, m, p)
  {
    EraseAt(rows, w, mb, p);
    PlaceAt(Erase(rows, w, mb), w, mb, m, p);
  }

  lemma BoxesApart(rows: Rows, w: int, mb: seq<Vector>)
    requires G.Rectangular(rows, w) && Paired(rows, w) && AllBoxes(rows, w, mb)
    ensures Apart(mb)
  {
    forall b | b in mb
      ensures Add(b, RIGHT) !in mb
    {
      assert IsBox(rows, w, b);
      assert Look(rows, w, b) == Some(BOX_L) <==> Look(rows, w, Add(b, RIGHT)) == Some(BOX_R);
      assert IsBox(rows, w, Add(b, RIGHT)) || Add(b, RIGHT) !in mb;
    }
  }

  // What a closed list tells about one cell p.
  lemma CellFacts(rows: Rows, w: int, mb: seq<Vector>, m: Move, p: Vector)
    requires G.Rectangular(rows, w) && Paired(rows, w) && Closed(rows, w, mb, m)
    ensures Back(p, m) in mb ==> Look(rows, w, p).Some? && (Look(rows, w, p) == Some(FLOOR) || Covers(mb, p))
    ensures Back(Sub(p, RIGHT), m) in mb ==> Look(rows, w, p).Some? && (Look(rows, w, p) == Some(FLOOR) || Covers(mb, p))
    ensures p in mb ==> Look(rows, w, p) == Some(BOX_L)
    ensures Sub(p, RIGHT) in mb ==> Look(rows, w, p) == Some(BOX_R)
  {
    var l := Sub(p, RIGHT);
    assert Add(l, RIGHT) == p;
    assert Look(rows, w, l) == Some(BOX_L) <==> Look(rows, w, Add(l, RIGHT)) == Some(BOX_R);
    assert AddDir(Back(p, m), m) == p;
    assert Add(AddDir(Back(l, m), m), RIGHT) == p;
    assert Back(p, m) in mb ==> Done(rows, w, mb, m, Back(p, m));
    assert Back(l, m) in mb ==> Done(rows, w, mb, m, Back(l, m));
    assert IsBox(rows, w, p) || p !in mb;
    assert IsBox(rows, w, l) || l !in mb;
  }

  lemma MovedWall(rows: Rows, w: int, mb: seq<Vector>, m: Move, p: Vector)
    requires G.Rectangular(rows, w) && Paired(rows, w) && Closed(rows, w, mb, m)
    ensures Moved(rows, w, mb, m, p) == Some(WALL) <==> Look(rows, w, p) == Some(WALL)
  {
    CellFacts(rows, w, mb, m, p);
  }

  lemma MovedBox(rows: Rows, w: int, mb: seq<Vector>, m: Move, p: Vector)
    requires G.Rectangular(rows, w) && Paired(rows, w) && Closed(rows, w, mb, m)
    ensures Moved(rows, w, mb, m, p) == Some(BOX_L) <==> Back(p, m) in mb || (IsBox(rows, w, p) && p !in mb)
  {
    CellFacts(rows, w, mb, m, p);
  }

  lemma MovedPaired(rows: Rows, w: int, mb: seq<Vector>, m: Move, p: Vector)
    requires G.Rectangular(rows, w) && Paired(rows, w) && Closed(rows, w, mb, m) && Apart(mb)
    ensures Moved(rows, w, mb, m, p) == Some(BOX_L) <==> Moved(rows, w, mb, m, Add(p, RIGHT)) == Some(BOX_R)
  {
    var n := Add(p, RIGHT);
    assert Sub(n, RIGHT) == p;
    assert Back(n, m) == Add(Back(p, m), RIGHT);
    CellFacts(rows, w, mb, m, p);
    CellFacts(rows, w, mb, m, n);
    assert Look(rows, w, p) == Some(BOX_L) <==> Look(rows, w, n) == Some(BOX_R);
    assert Back(p, m) in mb ==> Back(n, m) !in mb;
  }

  lemma MovedWide(rows: Rows, w: int, mb: seq<Vector>, m: Move, p: Vector)
    requires G.Rectangular(rows, w) && WideCells(rows, w)
    ensures Moved(rows, w, mb, m, p).Some? ==> WideByte(Moved(rows, w, mb, m, p).value)
  {
  }

  /** Moving a closed list of boxes keeps every box whole and every wall in
    * place; the boxes of the list move one step along m and the others
    * stay. */
  lemma MoveKeeps(rows: Rows, w: int, mb: seq<Vector>, m: Move)
    requires G.Rectangular(rows, w) && Paired(rows, w) && WideCells(rows, w) && Closed(rows, w, mb, m)
    ensures Paired(Place(Erase(rows, w, mb), w, mb, m), w) && WideCells(Place(Erase(rows, w, mb), w, mb, m), w)
    ensures forall p :: Look(Place(Erase(rows, w, mb), w, mb, m), w, p) == Some(WALL) <==> Look(rows, w, p) == Some(WALL)
    ensures forall p :: IsBox(Place(Erase(rows, w, mb), w, mb, m), w, p) <==>
      Back(p, m) in mb || (IsBox(rows, w, p) && p !in mb)
  {
    var after := Place(Erase(rows, w, mb), w, mb, m);
    BoxesApart(rows, w, mb);
    forall p
      ensures Look(after, w, p) == Some(BOX_L) <==> Look(after, w, Add(p, RIGHT)) == Some(BOX_R)
      ensures Look(after, w, p).Some? ==> WideByte(Look(after, w, p).value)
      ensures Look(after, w, p) == Some(WALL) <==> Look(rows, w, p) == Some(WALL)
      ensures IsBox(after, w, p) <==> Back(p, m) in mb || (IsBox(rows, w, p) && p !in mb)
    {
      MovedLook(rows, w, mb, m, p);
      MovedLook(rows, w, mb, m, Add(p, RIGHT));
      MovedPaired(rows, w, mb, m, p);
      MovedWide(rows, w, mb, m, p);
      MovedWall(rows, w, mb, m, p);
      MovedBox(rows, w, mb, m, p);
    }
  }

  // ---------------------------------------------------------------------
  // Part 2: the robot's moves

  /** One move of the robot on the wide map: into floor it steps; against
    * a wall or the edge nothing happens; into a box it pushes the boxes
    * that push reaches when none of them is blocked, and otherwise stays. */
  ghost predicate Moved2(rows: Rows, w: int, robot: Vector, m: Move, after: Rows, robot2: Vector)
    requires G.Rectangular(rows, w)
  {
    var n := AddDir(robot, m);
    var o := Look(rows, w, n);
    if !Open(o) then after == rows && robot2 == robot
    else if o == Some(BOX_L) || o == Some(BOX_R) then
      (robot2 == n && PushMoves(rows, w, n, m, after)) || (after == rows && robot2 == robot && PushFails(rows, w, n, m))
    else after == rows && robot2 == n
  }

  // The push into n moves a list of boxes that can all move, giving after.
  ghost predicate PushMoves(rows: Rows, w: int, n: Vector, m: Move, after: Rows)
    requires G.Rectangular(rows, w)
  {
    exists mb :: Pushes(rows, w, n, m, mb) && Closed(rows, w, mb, m) && after == Place(Erase(rows, w, mb), w, mb, m)
  }

  // The push into n reaches a blocked box.
  ghost predicate PushFails(rows: Rows, w: int, n: Vector, m: Move)
    requires G.Rectangular(rows, w)
  {
    exists mb :: Pushes(rows, w, n, m, mb) && Stuck(rows, w, mb, m)
  }

  // The wide map between moves: boxes whole, only floor, walls and box
  // halves, and the robot on floor.
  ghost predicate Warehouse(rows: Rows, w: int, robot: Vector)
    requires G.Rectangular(rows, w)
  {
    Paired(rows, w) && WideCells(rows, w) && Look(rows, w, robot) == Some(FLOOR)
  }

  // The robot moves into a cell that the boxes it pushed left free.
  lemma RobotLands(rows: Rows, w: int, robot: Vector, m: Move, mb: seq<Vector>)
    requires G.Rectangular(rows, w) && Warehouse(rows, w, robot)
    requires Pushes(rows, w, AddDir(robot, m), m, mb) && Closed(rows, w, mb, m)
    ensures Look(Place(Erase(rows, w, mb), w, mb, m), w, AddDir(robot, m)) == Some(FLOOR)
  {
    var n := AddDir(robot, m);
    BoxesApart(rows, w, mb);
    MovedLook(rows, w, mb, m, n);
    assert Back(n, m) == robot;
    var l := Sub(robot, RIGHT);
    assert Add(l, RIGHT) == robot;
    assert Look(rows, w, l) == Some(BOX_L) <==> Look(rows, w, Add(l, RIGHT)) == Some(BOX_R);
    assert IsBox(rows, w, robot) || robot !in mb;
    assert Back(Sub(n, RIGHT), m) == l;
    assert IsBox(rows, w, l) || l !in mb;
    assert mb[0] in mb;
    assert Look(rows, w, n) == Some(BOX_R) ==> Sub(n, RIGHT) == mb[0];
  }

  /** Every move keeps the warehouse whole and every wall where it was. */
  lemma StepKeeps(rows: Rows, w: int, robot: Vector, m: Move, after: Rows, robot2: Vector)
    requires G.Rectangular(rows, w) && Warehouse(rows, w, robot) && Moved2(rows, w, robot, m, after, robot2)
    ensures G.Rectangular(after, w) && |after| == |rows| && Warehouse(after, w, robot2)
    ensures forall p :: Look(after, w, p) == Some(WALL) <==> Look(rows, w, p) == Some(WALL)
  {
    var n := AddDir(robot, m);
    var o := Look(rows, w, n);
    if !Open(o) {
    } else if o == Some(BOX_L) || o == Some(BOX_R) {
      if robot2 == n {
        assert robot2 != robot;
        var mb :| Pushes(rows, w, n, m, mb) && Closed(rows, w, mb, m) && after == Place(Erase(rows, w, mb), w, mb, m);
        MoveKeeps(rows, w, mb, m);
        RobotLands(rows, w, robot, m, mb);
      }
    } else {
      assert WideByte(o.value);
    }
  }

  // Two lists that can both move leave the same map.
  lemma SameOutcome(rows: Rows, w: int, n: Vector, m: Move, mb1: seq<Vector>, mb2: seq<Vector>)
    requires G.Rectangular(rows, w) && Paired(rows, w)
    requires Pushes(rows, w, n, m, mb1) && Closed(rows, w, mb1, m)
    requires Pushes(rows, w, n, m, mb2) && Closed(rows, w, mb2, m)
    ensures forall p :: Look(Place(Erase(rows, w, mb1), w, mb1, m), w, p) == Look(Place(Erase(rows, w, mb2), w, mb2, m), w, p)
  {
    PushesSame(rows, w, n, m, mb1, mb2);
    BoxesApart(rows, w, mb1);
    BoxesApart(rows, w, mb2);
    var a1, a2 := Place(Erase(rows, w, mb1), w, mb1, m), Place(Erase(rows, w, mb2), w, mb2, m);
    forall p
      ensures Look(a1, w, p) == Look(a2, w, p)
    {
      MovedLook(rows, w, mb1, m, p);
      MovedLook(rows, w, mb2, m, p);
      MovedSame(rows, w, mb1, mb2, m, p);
    }
  }

  lemma MovedSame(rows: Rows, w: int, mb1: seq<Vector>, mb2: seq<Vector>, m: Move, p: Vector)
    requires G.Rectangular(rows, w) && forall c :: c in mb1 <==> c in mb2
    ensures Moved(rows, w, mb1, m, p) == Moved(rows, w, mb2, m, p)
  {
  }

  /** A move has one outcome: whichever pushable list the walk finds, the
    * map after it is the same. */
  lemma StepDetermined(rows: Rows, w: int, robot: Vector, m: Move, a1: Rows, r1: Vector, a2: Rows, r2: Vector)
    requires G.Rectangular(rows, w) && Paired(rows, w)
    requires Moved2(rows, w, robot, m, a1, r1) && Moved2(rows, w, robot, m, a2, r2)
    ensures r1 == r2 && |a1| == |a2| && G.Rectangular(a1, w) && G.Rectangular(a2, w)
    ensures forall p :: Look(a1, w, p) == Look(a2, w, p)
  {
    var n := AddDir(robot, m);
    var o := Look(rows, w, n);
    assert n != robot;
    if Open(o) && (o == Some(BOX_L) || o == Some(BOX_R)) {
      if r1 == n && r2 == n {
        var mb1 :| Pushes(rows, w, n, m, mb1) && Closed(rows, w, mb1, m) && a1 == Place(Erase(rows, w, mb1), w, mb1, m);
        var mb2 :| Pushes(rows, w, n, m, mb2) && Closed(rows, w, mb2, m) && a2 == Place(Erase(rows, w, mb2), w, mb2, m);
        SameOutcome(rows, w, n, m, mb1, mb2);
      } else if r1 == n || r2 == n {
        OutcomesExclude(rows, w, n, m);
        assert false;
      }
    }
  }

  // A push cannot both succeed and fail.
  lemma OutcomesExclude(rows: Rows, w: int, n: Vector, m: Move)
    requires G.Rectangular(rows, w) && Paired(rows, w)
    ensures !((exists a :: Pushes(rows, w, n, m, a) && Closed(rows, w, a, m)) && PushFails(rows, w, n, m))
  {
    if exists a :: Pushes(rows, w, n, m, a) && Closed(rows, w, a, m) {
      var a :| Pushes(rows, w, n, m, a) && Closed(rows, w, a, m);
      forall b | Pushes(rows, w, n, m, b)
        ensures !Stuck(rows, w, b, m)
      {
        PushesWithin(rows, w, n, m, a, b);
      }
    }
  }

  // Two maps of one shape that agree on every cell are the same map.
  lemma SameRows(a: Rows, b: Rows, w: int)
    requires G.Rectangular(a, w) && G.Rectangular(b, w) && |a| == |b|
    requires forall p :: Look(a, w, p) == Look(b, w, p)
    ensures a == b
  {
    forall y | 0 <= y < |a|
      ensures a[y] == b[y]
    {
      forall x | 0 <= x < w
        ensures a[y][x] == b[y][x]
      {
        assert Look(a, w, Vector(x, y)) == Look(b, w, Vector(x, y));
      }
    }
  }

  // `robot_xy.add_dir(&m)` then the moves of part 2.
  method StepTwo(grid: G.Grid, robot: Vector, m: Move) returns (robot2: Vector)
    requires grid.Valid() && Warehouse(grid.data, grid.w, robot)
    modifies grid
    ensures grid.Valid() && Moved2(old(grid.data), grid.w, robot, m, grid.data, robot2)
  {
    var n := AddDir(robot, m);
    var o := grid.Get(G.XY(n.x, n.y));
    GetLook(grid, n);
    robot2 := robot;
    if o.None? || o.value == WALL {
      return;
    }
    if o.value == BOX_L || o.value == BOX_R {
      var r := BoxTreeIsPushable(grid, n, m);
      if r.Some? {
        MoveBoxes(grid, r.value, m);
        robot2 := n;
      }
      return;
    }
    robot2 := Add(robot, ToVector(m));
  }

  /** The maps and robot positions a list of moves passes through: after
    * is the map and robot2 the robot once every move has been made. */
  ghost predicate Trace(rows: Rows, w: int, robot: Vector, moves: seq<Move>, after: Rows, robot2: Vector)
    requires G.Rectangular(rows, w)
    decreases |moves|
  {
    if moves == [] then after == rows && robot2 == robot
    else exists mid: Rows, r: Vector {:trigger Moved2(mid, w, r, moves[|moves| - 1], after, robot2)} :: G.Rectangular(mid, w) && Trace(rows, w, robot, moves[..|moves| - 1], mid, r) && Moved2(mid, w, r, moves[|moves| - 1], after, robot2)
  }

  /** However many moves the robot makes, the warehouse stays whole, the
    * walls stay where they were and the robot stands on floor. */
  lemma {:induction false} TraceKeeps(rows: Rows, w: int, robot: Vector, moves: seq<Move>, after: Rows, robot2: Vector)
    requires G.Rectangular(rows, w) && Warehouse(rows, w, robot) && Trace(rows, w, robot, moves, after, robot2)
    ensures G.Rectangular(after, w) && |after| == |rows| && Warehouse(after, w, robot2)
    ensures forall p :: Look(after, w, p) == Some(WALL) <==> Look(rows, w, p) == Some(WALL)
    decreases |moves|
  {
    if moves != [] {
      var mid: Rows, r: Vector :| G.Rectangular(mid, w) && Trace(rows, w, robot, moves[..|moves| - 1], mid, r) && Moved2(mid, w, r, moves[|moves| - 1], after, robot2);
      TraceKeeps(rows, w, robot, moves[..|moves| - 1], mid, r);
      StepKeeps(mid, w, r, moves[|moves| - 1], after, robot2);
    }
  }

  /** The moves decide the final map and robot: any two traces of the same
    * moves from the same warehouse end alike. */
  lemma {:induction false} TraceDetermined(rows: Rows, w: int, robot: Vector, moves: seq<Move>, a1: Rows, r1: Vector, a2: Rows, r2: Vector)
    requires G.Rectangular(rows, w) && Warehouse(rows, w, robot)
    requires Trace(rows, w, robot, moves, a1, r1) && Trace(rows, w, robot, moves, a2, r2)
    ensures a1 == a2 && r1 == r2
    decreases |moves|
  {
    if moves != [] {
      var init, last := moves[..|moves| - 1], moves[|moves| - 1];
      var mid1: Rows, s1: Vector :| G.Rectangular(mid1, w) && Trace(rows, w, robot, init, mid1, s1) && Moved2(mid1, w, s1, last, a1, r1);
      var mid2: Rows, s2: Vector :| G.Rectangular(mid2, w) && Trace(rows, w, robot, init, mid2, s2) && Moved2(mid2, w, s2, last, a2, r2);
      TraceDetermined(rows, w, robot, init, mid1, s1, mid2, s2);
      TraceKeeps(rows, w, robot, init, mid1, s1);
      StepDetermined(mid1, w, s1, last, a1, r1, a2, r2);
      SameRows(a1, a2, w);
    }
  }

  // ---------------------------------------------------------------------
  // Part 2: widening the map

  // The bytes of the part 1 map: floor, box, robot and wall.
  predicate Narrow(b: Byte)
  {
    b == FLOOR || b == BOX || b == ROBOT || b == WALL
  }

  ghost predicate NarrowMap(rows: Rows, w: int)
    requires G.Rectangular(rows, w)
  {
    forall y, x :: 0 <= y < |rows| && 0 <= x < w ==> Narrow(rows[y][x])
  }

  // The two cells one cell becomes: a box "[]", the robot "@." and floor
  // and walls doubled.
  function Pair(b: Byte): (r: seq<Byte>)
    requires Narrow(b)
    ensures |r| == 2 && WideByte(r[1]) && (r[0] == ROBOT || WideByte(r[0]))
    ensures (r[0] == BOX_L <==> b == BOX) && (r[1] == BOX_R <==> b == BOX) && r[1] != BOX_L && r[0] != BOX_R
    ensures (r[0] == ROBOT <==> b == ROBOT) && r[1] != ROBOT && (b == ROBOT ==> r[1] == FLOOR)
    ensures (r[0] == WALL <==> b == WALL) && (r[1] == WALL <==> b == WALL)
  {
    if b == FLOOR then [FLOOR, FLOOR]
    else if b == BOX then [BOX_L, BOX_R]
    else if b == ROBOT then [ROBOT, FLOOR]
    else [WALL, WALL]
  }

  // The map twice as wide: cell x of a row is half x % 2 of cell x / 2.
  function Widened(rows: Rows, w: int): (r: Rows)
    requires G.Rectangular(rows, w) && 0 <= w && NarrowMap(rows, w)
    ensures |r| == |rows| && G.Rectangular(r, 2 * w)
  {
    seq(|rows|, y requires 0 <= y < |rows| => seq(2 * w, x requires 0 <= x < 2 * w => Pair(rows[y][x / 2])[x % 2]))
  }

  // The loop over the map's bytes, each replaced by its pair.
  method Widen(rows: Rows, w: int) returns (wide: Rows)
    requires G.Rectangular(rows, w) && 0 <= w && NarrowMap(rows, w)
    ensures wide == Widened(rows, w)
  {
    ghost var target := Widened(rows, w);
    wide := [];
    for y := 0 to |rows|
      invariant wide == target[..y]
    {
      var row: seq<Byte> := [];
      for x := 0 to w
        invariant |row| == 2 * x
        invariant forall j :: 0 <= j < 2 * x ==> row[j] == target[y][j]
      {
        var pair := Pair(rows[y][x]);
        assert target[y][2 * x] == pair[0] && target[y][2 * x + 1] == pair[1];
        row := row + pair;
      }
      assert row == target[y];
      assert target[..y + 1] == target[..y] + [row];
      wide := wide + [row];
    }
    assert target[..|rows|] == target;
  }

  // What a cell of the widened map holds.
  lemma WidenedLook(rows: Rows, w: int, p: Vector)
    requires G.Rectangular(rows, w) && 0 <= w && NarrowMap(rows, w)
    ensures Look(Widened(rows, w), 2 * w, p) ==
      if 0 <= p.x && Inside(rows, w, Vector(p.x / 2, p.y)) then Some(Pair(rows[p.y][p.x / 2])[p.x % 2]) else None
  {
  }

  // The widened map holds the robot only at the left half of its old cell.
  lemma WidenedRobot(rows: Rows, w: int, robot: Vector, p: Vector)
    requires G.Rectangular(rows, w) && 0 <= w && NarrowMap(rows, w)
    requires forall q :: Look(rows, w, q) == Some(ROBOT) <==> q == robot
    ensures Look(Widened(rows, w), 2 * w, p) == Some(ROBOT) <==> p == Vector(2 * robot.x, robot.y)
  {
    WidenedLook(rows, w, p);
    var c := Vector(p.x / 2, p.y);
    assert Look(rows, w, c) == Some(ROBOT) <==> c == robot;
    assert Look(rows, w, robot) == Some(ROBOT);
  }

  /** The widened map with the robot lifted off is a warehouse: boxes come
    * whole, every cell is floor, wall or half a box, and the robot stands
    * on floor at twice its old column. */
  lemma WidenedWarehouse(rows: Rows, w: int, robot: Vector)
    requires G.Rectangular(rows, w) && 0 <= w && NarrowMap(rows, w)
    requires forall q :: Look(rows, w, q) == Some(ROBOT) <==> q == robot
    ensures Warehouse(Put(Widened(rows, w), 2 * w, Vector(2 * robot.x, robot.y), FLOOR), 2 * w, Vector(2 * robot.x, robot.y))
  {
    var wide, v := Widened(rows, w), Vector(2 * robot.x, robot.y);
    var start := Put(wide, 2 * w, v, FLOOR);
    assert Look(rows, w, robot) == Some(ROBOT);
    forall p
      ensures Look(start, 2 * w, p).Some? ==> WideByte(Look(start, 2 * w, p).value)
    {
      WidenedCell(rows, w, robot, p);
    }
    forall p
      ensures Look(start, 2 * w, p) == Some(BOX_L) <==> Look(start, 2 * w, Add(p, RIGHT)) == Some(BOX_R)
    {
      WidenedPairLifted(rows, w, robot, p);
    }
    LookPut(wide, 2 * w, v, FLOOR, v);
  }

  lemma WidenedCell(rows: Rows, w: int, robot: Vector, p: Vector)
    requires G.Rectangular(rows, w) && 0 <= w && NarrowMap(rows, w)
    requires forall q :: Look(rows, w, q) == Some(ROBOT) <==> q == robot
    ensures var start := Put(Widened(rows, w), 2 * w, Vector(2 * robot.x, robot.y), FLOOR);
      Look(start, 2 * w, p).Some? ==> WideByte(Look(start, 2 * w, p).value)
  {
    LookPut(Widened(rows, w), 2 * w, Vector(2 * robot.x, robot.y), FLOOR, p);
    WidenedLook(rows, w, p);
    WidenedRobot(rows, w, robot, p);
  }

  lemma WidenedPairLifted(rows: Rows, w: int, robot: Vector, p: Vector)
    requires G.Rectangular(rows, w) && 0 <= w && NarrowMap(rows, w)
    requires forall q :: Look(rows, w, q) == Some(ROBOT) <==> q == robot
    ensures var start := Put(Widened(rows, w), 2 * w, Vector(2 * robot.x, robot.y), FLOOR);
      Look(start, 2 * w, p) == Some(BOX_L) <==> Look(start, 2 * w, Add(p, RIGHT)) == Some(BOX_R)
  {
    var wide, v, q := Widened(rows, w), Vector(2 * robot.x, robot.y), Add(p, RIGHT);
    LookPut(wide, 2 * w, v, FLOOR, p);
    LookPut(wide, 2 * w, v, FLOOR, q);
    WidenedLook(rows, w, p);
    WidenedLook(rows, w, q);
    WidenedRobot(rows, w, robot, p);
    WidenedRobot(rows, w, robot, q);
    WidenedPair(rows, w, p);
  }

  // A '[' of the widened map has its ']' to the right, and only then.
  lemma WidenedPair(rows: Rows, w: int, p: Vector)
    requires G.Rectangular(rows, w) && 0 <= w && NarrowMap(rows, w)
    ensures Look(Widened(rows, w), 2 * w, p) == Some(BOX_L) <==> Look(Widened(rows, w), 2 * w, Add(p, RIGHT)) == Some(BOX_R)
  {
    var q := Add(p, RIGHT);
    WidenedLook(rows, w, p);
    WidenedLook(rows, w, q);
    if 0 <= p.x && p.x % 2 == 0 {
      assert q.x / 2 == p.x / 2 && q.x % 2 == 1;
    }
  }

  // ---------------------------------------------------------------------
  // Part 2 and the whole day

  // The wide map part 2 starts from: widened, with the robot lifted off.
  function WideStart(rows: Rows, w: int, robot: Vector): (r: Rows)
    requires G.Rectangular(rows, w) && 0 <= w && NarrowMap(rows, w)
    ensures |r| == |rows| && G.Rectangular(r, 2 * w)
  {
    Put(Widened(rows, w), 2 * w, Vector(2 * robot.x, robot.y), FLOOR)
  }

  // One more move extends a trace.
  lemma TraceSnoc(rows: Rows, w: int, robot: Vector, moves: seq<Move>, i: nat, mid: Rows, r: Vector, after: Rows, robot2: Vector)
    requires G.Rectangular(rows, w) && G.Rectangular(mid, w) && i < |moves|
    requires Trace(rows, w, robot, moves[..i], mid, r) && Moved2(mid, w, r, moves[i], after, robot2)
    ensures Trace(rows, w, robot, moves[..i + 1], after, robot2)
  {
    assert moves[..i + 1][..i] == moves[..i];
  }

  // score is the part 2 score: the GPS sum of the boxes' left halves on
  // the map the moves end with.
  ghost predicate ScoresTwo(rows: Rows, w: int, robot: Vector, moves: seq<Move>, score: int)
    requires G.Rectangular(rows, w) && 0 <= w && NarrowMap(rows, w)
  {
    exists after: Rows, robot2: Vector :: Trace(WideStart(rows, w, robot), 2 * w, Vector(2 * robot.x, robot.y), moves, after, robot2) && score == Score(Cells(after, 2 * w, BOX_L, |after|))
  }

  /** The part 2 score is a function of the map and the moves. */
  lemma ScoresTwoUnique(rows: Rows, w: int, robot: Vector, moves: seq<Move>, s1: int, s2: int)
    requires G.Rectangular(rows, w) && 0 <= w && NarrowMap(rows, w)
    requires forall q :: Look(rows, w, q) == Some(ROBOT) <==> q == robot
    requires ScoresTwo(rows, w, robot, moves, s1) && ScoresTwo(rows, w, robot, moves, s2)
    ensures s1 == s2
  {
    var start, v := WideStart(rows, w, robot), Vector(2 * robot.x, robot.y);
    var a1: Rows, r1: Vector :| Trace(start, 2 * w, v, moves, a1, r1) && s1 == Score(Cells(a1, 2 * w, BOX_L, |a1|));
    var a2: Rows, r2: Vector :| Trace(start, 2 * w, v, moves, a2, r2) && s2 == Score(Cells(a2, 2 * w, BOX_L, |a2|));
    WidenedWarehouse(rows, w, robot);
    TraceDetermined(start, 2 * w, v, moves, a1, r1, a2, r2);
  }

  /** Part 2: the map is widened, the robot lifted off it, every move made
    * as the wide rules say, and the score sums the GPS coordinates of the
    * boxes' left halves. */
  method PartTwo(rows: Rows, w: int, moves: seq<Move>, ghost robot: Vector) returns (score: int)
    requires G.Rectangular(rows, w) && 0 < w && NarrowMap(rows, w)
    requires forall q :: Look(rows, w, q) == Some(ROBOT) <==> q == robot
    ensures ScoresTwo(rows, w, robot, moves, score)
  {
    assert Look(rows, w, robot) == Some(ROBOT);
    var wide := Widen(rows, w);
    var grid := new G.Grid.FromStr(wide);
    WidenedWarehouse(rows, w, robot);
    var found := grid.Find(ROBOT);
    ghost var v := Vector(2 * robot.x, robot.y);
    WidenedRobot(rows, w, robot, v);
    assert G.XY(v.x, v.y) in found;
    var robotXY := Vector(found[0].x, found[0].y);
    WidenedRobot(rows, w, robot, robotXY);
    var _ := grid.Put(G.XY(robotXY.x, robotXY.y), FLOOR);
    ghost var start := grid.data;
    assert start == WideStart(rows, w, robot);
    for i := 0 to |moves|
      invariant grid.Valid() && grid.w == 2 * w
      invariant Trace(start, grid.w, v, moves[..i], grid.data, robotXY)
      invariant Warehouse(grid.data, grid.w, robotXY)
    {
      ghost var mid, r := grid.data, robotXY;
      robotXY := StepTwo(grid, robotXY, moves[i]);
      TraceSnoc(start, grid.w, v, moves, i, mid, r, grid.data, robotXY);
      StepKeeps(mid, grid.w, r, moves[i], grid.data, robotXY);
    }
    assert moves[..|moves|] == moves;
    score := Gps(grid, BOX_L);
  }

  /** `day15`: both parts from the same map and the same moves; part 1 on
    * the map as read, part 2 on its widened copy. */
  method Solve(rows: Rows, moves: seq<Move>, ghost robot: Vector) returns (one: int, two: int)
    requires |rows| > 0 && G.Rectangular(rows, |rows[0]|) && NarrowMap(rows, |rows[0]|)
    requires forall q :: Look(rows, |rows[0]|, q) == Some(ROBOT) <==> q == robot
    ensures one == Score(Cells(Walk(Put(rows, |rows[0]|, robot, FLOOR), |rows[0]|, robot, moves).0, |rows[0]|, BOX, |rows|))
    ensures ScoresTwo(rows, |rows[0]|, robot, moves, two)
  {
    var w := |rows[0]|;
    assert Look(rows, w, robot) == Some(ROBOT);
    var grid := new G.Grid.FromStr(rows);
    one := PartOne(grid, moves, robot);
    two := PartTwo(rows, w, moves, robot);
  }
}
