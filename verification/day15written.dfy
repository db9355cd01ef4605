// Part 2 of src/day15.rs as the code is written. The cell the robot looks
// at, and the cells `box_tree_is_pushable` walks to, come from
// `Vector::add_dir`, whose decoding of a move is off (Moves.AddDirAsWritten:
// Up looks right, Right looks down, Down and Left look at the cell itself),
// while a step onto floor uses the move's real vector. Day15.StepTwo is the
// move as intended; the lemmas here show where the two part.
module Day15AsWritten {
  import opened Wrappers
  import opened Vectors
  import opened Moves
  import G = Grids
  import opened Day15

  // How a call ends: with a value, with a panic, or still running once the
  // fuel given is spent.
  datatype Outcome<T> = Returns(value: T) | Panics | Runs

  const LEFT := Vector(-1, 0)

  // Each cell of s moved with `add_dir`.
  function Shifted(s: seq<Vector>, m: Move): (r: seq<Vector>)
    ensures |r| == |s| && forall i :: 0 <= i < |s| ==> r[i] == AddDirAsWritten(s[i], m)
  {
    seq(|s|, i requires 0 <= i < |s| => AddDirAsWritten(s[i], m))
  }

  // The loop of `box_tree_is_pushable` for a push left or right
  // (src/day15.rs:186-216): q is the cell looked at next, list the boxes
  // found so far; a ']' met while not pushing left trips the `assert!`.
  function RowScan(rows: Rows, w: int, q: Vector, m: Move, list: seq<Vector>, fuel: nat): Outcome<Option<seq<Vector>>>
    requires G.Rectangular(rows, w)
    decreases fuel
  {
    if fuel == 0 then Runs
    else match Look(rows, w, q)
      case None => Returns(None)
      case Some(b) =>
        if b == WALL then Returns(None)
        else if b == FLOOR then Returns(Some(list))
        else if b == BOX_L then
          var next := if m == Right then AddDirAsWritten(AddDirAsWritten(q, m), m) else AddDirAsWritten(q, m);
          RowScan(rows, w, next, m, list + [q], fuel - 1)
        else if b == BOX_R then
          if m != Left then Panics else RowScan(rows, w, AddDirAsWritten(q, m), m, list, fuel - 1)
        else Panics
  }

  // The breadth-first loop of `box_tree_is_pushable` for a push up or down
  // (src/day15.rs:218-260): each turn pops a cell q and looks at q and the
  // cell to its right.
  function ColumnScan(rows: Rows, w: int, queue: seq<Vector>, m: Move, list: seq<Vector>, fuel: nat): Outcome<Option<seq<Vector>>>
    requires G.Rectangular(rows, w)
    decreases fuel
  {
    if queue == [] then Returns(Some(list))
    else if fuel == 0 then Runs
    else
      var q := queue[0];
      var a, b := Look(rows, w, q), Look(rows, w, Add(q, RIGHT));
      if a.None? || b.None? then Returns(None)
      else if a.value == WALL || b.value == WALL then Returns(None)
      else if a.value == FLOOR && b.value == FLOOR then ColumnScan(rows, w, queue[1..], m, list, fuel - 1)
      else if a.value == BOX_L && b.value == BOX_R then
        ColumnScan(rows, w, queue[1..] + [AddDirAsWritten(q, m)], m, list + [q], fuel - 1)
      else
        var found := (if a.value == BOX_R then [Add(q, LEFT)] else []) + (if b.value == BOX_L then [Add(q, RIGHT)] else []);
        ColumnScan(rows, w, queue[1..] + Shifted(found, m), m, list + found, fuel - 1)
  }

  // `box_tree_is_pushable` (src/day15.rs:170-262) from the box half at xyu.
  function TreeAsWritten(rows: Rows, w: int, xyu: Vector, m: Move, fuel: nat): Outcome<Option<seq<Vector>>>
    requires G.Rectangular(rows, w)
  {
    var xy := if Look(rows, w, xyu) == Some(BOX_R) then Add(xyu, LEFT) else xyu;
    if m == Left || m == Right then
      var q := AddDirAsWritten(xy, m);
      RowScan(rows, w, if m == Right then AddDirAsWritten(q, m) else q, m, [xy], fuel)
    else ColumnScan(rows, w, [AddDirAsWritten(xy, m)], m, [xy], fuel)
  }

  // The boxes of mb set down at their `add_dir` cells (src/day15.rs:109-118).
  function PlaceAsWritten(rows: Rows, w: int, mb: seq<Vector>, m: Move): (r: Rows)
    requires G.Rectangular(rows, w)
    ensures |r| == |rows| && G.Rectangular(r, w)
  {
    if mb == [] then rows
    else
      var t := AddDirAsWritten(mb[|mb| - 1], m);
      Put(Put(PlaceAsWritten(rows, w, mb[..|mb| - 1], m), w, t, BOX_L), w, Add(t, RIGHT), BOX_R)
  }

  // One turn of the move loop (src/day15.rs:96-130): the map and the robot
  // after move m, unless the box walk panics or runs past the fuel.
  function StepAsWritten(rows: Rows, w: int, robot: Vector, m: Move, fuel: nat): Outcome<(Rows, Vector)>
    requires G.Rectangular(rows, w)
  {
    var n := AddDirAsWritten(robot, m);
    var o := Look(rows, w, n);
    if !Open(o) then Returns((rows, robot))
    else if o.value == BOX_L || o.value == BOX_R then
      match TreeAsWritten(rows, w, n, m, fuel)
      case Returns(Some(mb)) => Returns((PlaceAsWritten(Erase(rows, w, mb), w, mb, m), n))
      case Returns(None) => Returns((rows, robot))
      case Panics => Panics
      case Runs => Runs
    else Returns((rows, Add(robot, ToVector(m))))
  }

  /** Down and Left look at the robot's own cell, which is floor, so the
    * robot steps whatever the next cell holds: onto a wall or into a box,
    * where the intended move leaves it in place or pushes. */
  lemma DownLeftUnchecked(rows: Rows, w: int, robot: Vector, m: Move, fuel: nat)
    requires G.Rectangular(rows, w) && Warehouse(rows, w, robot) && (m == Down || m == Left)
    ensures StepAsWritten(rows, w, robot, m, fuel) == Returns((rows, AddDir(robot, m)))
    ensures Look(rows, w, AddDir(robot, m)) == Some(WALL) ==> Moved2(rows, w, robot, m, rows, robot)
  {
    AddDirAsWrittenDisplacement(robot, m);
  }

  /** Whenever the cell `add_dir` names is floor and the cell the move
    * leads to is a wall, the robot ends on the wall; the intended move
    * leaves it where it was. */
  lemma OntoWall(rows: Rows, w: int, robot: Vector, m: Move, fuel: nat)
    requires G.Rectangular(rows, w)
    requires Look(rows, w, AddDirAsWritten(robot, m)) == Some(FLOOR) && Look(rows, w, AddDir(robot, m)) == Some(WALL)
    ensures StepAsWritten(rows, w, robot, m, fuel).Returns?
    ensures StepAsWritten(rows, w, robot, m, fuel).value.1 == AddDir(robot, m)
    ensures Look(rows, w, StepAsWritten(rows, w, robot, m, fuel).value.1) == Some(WALL)
    ensures Moved2(rows, w, robot, m, rows, robot)
  {
  }

  // While a right half p waits in the queue of an upward walk, the walk
  // never clears: popping p finds its box, whose `add_dir` cell is p again.
  lemma {:induction false} ColumnNeverClears(rows: Rows, w: int, queue: seq<Vector>, list: seq<Vector>, fuel: nat, p: Vector)
    requires G.Rectangular(rows, w) && p in queue && Look(rows, w, p) == Some(BOX_R)
    ensures ColumnScan(rows, w, queue, Up, list, fuel) in {Returns(None), Runs}
    decreases fuel
  {
    if fuel > 0 {
      var q := queue[0];
      var a, b := Look(rows, w, q), Look(rows, w, Add(q, RIGHT));
      if a.Some? && b.Some? && a.value != WALL && b.value != WALL {
        if a.value == FLOOR && b.value == FLOOR {
          assert q != p;
          assert p in queue[1..];
          ColumnNeverClears(rows, w, queue[1..], list, fuel - 1, p);
        } else if a.value == BOX_L && b.value == BOX_R {
          assert q != p;
          assert p in queue[1..] + [AddDirAsWritten(q, Up)];
          ColumnNeverClears(rows, w, queue[1..] + [AddDirAsWritten(q, Up)], list + [q], fuel - 1, p);
        } else {
          var found := (if a.value == BOX_R then [Add(q, LEFT)] else []) + (if b.value == BOX_L then [Add(q, RIGHT)] else []);
          var next := queue[1..] + Shifted(found, Up);
          if q == p {
            AddDirAsWrittenDisplacement(Add(q, LEFT), Up);
            assert Shifted(found, Up)[0] == p;
          }
          assert p in next;
          ColumnNeverClears(rows, w, next, list + found, fuel - 1, p);
        }
      }
    }
  }

  /** Up looks at the cell to the robot's right. When a box stands there,
    * the walk re-queues that box's right half for ever, so however long it
    * runs, no box moves and the robot stays put. */
  lemma UpIntoBoxStalls(rows: Rows, w: int, robot: Vector, fuel: nat)
    requires G.Rectangular(rows, w) && Paired(rows, w)
    requires Look(rows, w, Vector(robot.x + 1, robot.y)) in {Some(BOX_L), Some(BOX_R)}
    ensures StepAsWritten(rows, w, robot, Up, fuel) in {Returns((rows, robot)), Runs}
  {
    var n := Vector(robot.x + 1, robot.y);
    AddDirAsWrittenDisplacement(robot, Up);
    var xy := if Look(rows, w, n) == Some(BOX_R) then Add(n, LEFT) else n;
    AddDirAsWrittenDisplacement(xy, Up);
    var p := AddDirAsWritten(xy, Up);
    if Look(rows, w, n) == Some(BOX_L) {
      assert Look(rows, w, Add(n, RIGHT)) == Some(BOX_R);
    } else {
      assert Add(xy, RIGHT) == n;
    }
    assert Look(rows, w, p) == Some(BOX_R);
    ColumnNeverClears(rows, w, [p], [xy], fuel, p);
  }
}
