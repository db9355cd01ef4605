// Day 6: a guard walks a lab map, turning right at every obstruction,
// until it leaves the map. Part 1 counts the cells it visits; part 2
// counts the single obstructions that trap it in a loop.

module Day06 {
  import opened Wrappers

  // ---------------------------------------------------------------------
  // Directions as one bit each

  const UP: bv8 := 1
  const RIGHT: bv8 := 2
  const DOWN: bv8 := 4
  const LEFT: bv8 := 8

  predicate IsDir(d: bv8)
  {
    d == UP || d == RIGHT || d == DOWN || d == LEFT
  }

  // A right turn doubles the bit; 16 wraps round to UP.
  function Turn(d: bv8): (r: bv8)
    requires IsDir(d)
    ensures IsDir(r)
  {
    if d << 1 == 16 then UP else d << 1
  }

  // The four turns cycle through every direction and back.
  lemma TurnCycle()
    ensures Turn(UP) == RIGHT && Turn(RIGHT) == DOWN && Turn(DOWN) == LEFT && Turn(LEFT) == UP
  {
  }

  // `map_dir`: y grows downwards.
  function MapDir(d: bv8): (int, int)
    requires IsDir(d)
  {
    if d == UP then (0, -1)
    else if d == RIGHT then (1, 0)
    else if d == DOWN then (0, 1)
    else (-1, 0)
  }

  // Two right turns face the opposite way.
  lemma TurnBack(d: bv8)
    requires IsDir(d)
    ensures MapDir(Turn(Turn(d))).0 == -MapDir(d).0 && MapDir(Turn(Turn(d))).1 == -MapDir(d).1
  {
  }

  // j right turns.
  function TurnN(d: bv8, j: nat): (r: bv8)
    requires IsDir(d)
    ensures IsDir(r)
    decreases j
  {
    if j == 0 then d else TurnN(Turn(d), j - 1)
  }

  // Every direction is reached from every other within three turns.
  lemma Reaches(d: bv8, e: bv8) returns (j: nat)
    requires IsDir(d) && IsDir(e)
    ensures j < 4 && TurnN(d, j) == e
  {
    if e == d {
      j := 0;
    } else if e == Turn(d) {
      j := 1;
    } else if e == Turn(Turn(d)) {
      j := 2;
    } else {
      j := 3;
      assert TurnN(d, 3) == Turn(Turn(Turn(d)));
    }
  }

  // ---------------------------------------------------------------------
  // The map

  // Every row is at least w cells long.
  predicate Wide(data: seq<seq<char>>, w: nat)
  {
    forall y :: 0 <= y < |data| ==> |data[y]| >= w
  }

  predicate InMap(data: seq<seq<char>>, w: nat, x: int, y: int)
  {
    0 <= x < w && 0 <= y < |data|
  }

  // Every cell is open floor or an obstruction.
  predicate Clean(data: seq<seq<char>>, w: nat)
    requires Wide(data, w)
  {
    forall y, x :: 0 <= y < |data| && 0 <= x < w ==> data[y][x] == '.' || data[y][x] == '#'
  }

  // `peek`: '!' off the map, the cell otherwise.
  function Peek(data: seq<seq<char>>, w: nat, x: int, y: int): (c: char)
    requires Wide(data, w)
    ensures !InMap(data, w, x, y) ==> c == '!'
    ensures InMap(data, w, x, y) ==> c == data[y][x]
  {
    if x < 0 || x >= w || y < 0 || y >= |data| then '!' else data[y][x]
  }

  // ---------------------------------------------------------------------
  // The walk

  datatype Guard = Guard(x: int, y: int, d: bv8)

  predicate Valid(data: seq<seq<char>>, w: nat, g: Guard)
  {
    Wide(data, w) && Clean(data, w) && IsDir(g.d)
  }

  // The cell ahead of the guard.
  function Ahead(g: Guard): (int, int)
    requires IsDir(g.d)
  {
    (g.x + MapDir(g.d).0, g.y + MapDir(g.d).1)
  }

  // One step: off the map (None), a turn at an obstruction, or a step
  // forward onto open floor.
  function Next(data: seq<seq<char>>, w: nat, g: Guard): (r: Option<Guard>)
    requires Valid(data, w, g)
    ensures r.Some? ==> IsDir(r.value.d)
  {
    var (nx, ny) := Ahead(g);
    var p := Peek(data, w, nx, ny);
    if p == '!' then None
    else if p == '#' then Some(Guard(g.x, g.y, Turn(g.d)))
    else Some(Guard(nx, ny, g.d))
  }

  // The guard after n steps from g0; None once it has left.
  function Run(data: seq<seq<char>>, w: nat, g0: Guard, n: nat): (r: Option<Guard>)
    requires Valid(data, w, g0)
    ensures r.Some? ==> IsDir(r.value.d)
  {
    if n == 0 then Some(g0)
    else match Run(data, w, g0, n - 1)
      case None => None
      case Some(g) => Next(data, w, g)
  }

  // Once off the map the guard stays off.
  lemma {:induction false} RunGone(data: seq<seq<char>>, w: nat, g0: Guard, a: nat, b: nat)
    requires Valid(data, w, g0) && a <= b && Run(data, w, g0, a).None?
    ensures Run(data, w, g0, b).None?
    decreases b - a
  {
    if a < b {
      RunGone(data, w, g0, a, b - 1);
    }
  }

  // The (cell, direction) marks recorded by step k: the start, and every
  // cell entered by a step forward, with the direction of that step.
  ghost function Marks(data: seq<seq<char>>, w: nat, g0: Guard, k: nat): set<(int, int, bv8)>
    requires Valid(data, w, g0)
  {
    if k == 0 then {(g0.x, g0.y, g0.d)}
    else
      var entered: set<(int, int, bv8)> :=
        match (Run(data, w, g0, k - 1), Run(data, w, g0, k))
        case (Some(a), Some(b)) => if (a.x, a.y) != (b.x, b.y) then {(b.x, b.y, b.d)} else {}
        case _ => {};
      Marks(data, w, g0, k - 1) + entered
  }

  // A mark is a state the guard was in.
  lemma {:induction false} MarkWasState(data: seq<seq<char>>, w: nat, g0: Guard, k: nat, t: (int, int, bv8))
    returns (j: nat)
    requires Valid(data, w, g0) && t in Marks(data, w, g0, k)
    ensures j <= k && Run(data, w, g0, j) == Some(Guard(t.0, t.1, t.2))
  {
    if k == 0 {
      j := 0;
    } else if t in Marks(data, w, g0, k - 1) {
      j := MarkWasState(data, w, g0, k - 1, t);
    } else {
      j := k;
    }
  }

  // Every cell the guard stands on by step k carries a mark.
  lemma {:induction false} StateIsMarked(data: seq<seq<char>>, w: nat, g0: Guard, k: nat, g: Guard)
    requires Valid(data, w, g0) && Run(data, w, g0, k) == Some(g)
    ensures exists d :: (g.x, g.y, d) in Marks(data, w, g0, k)
  {
    if k == 0 {
      assert (g.x, g.y, g.d) in Marks(data, w, g0, k);
    } else {
      var prev := Run(data, w, g0, k - 1);
      assert prev.Some?;
      if (prev.value.x, prev.value.y) != (g.x, g.y) {
        assert (g.x, g.y, g.d) in Marks(data, w, g0, k);
      } else {
        StateIsMarked(data, w, g0, k - 1, prev.value);
        var d :| (g.x, g.y, d) in Marks(data, w, g0, k - 1);
        assert (g.x, g.y, d) in Marks(data, w, g0, k);
      }
    }
  }

  // A state that comes back repeats forever: the guard never leaves.
  lemma {:induction false} Periodic(data: seq<seq<char>>, w: nat, g0: Guard, j: nat, p: nat, m: nat)
    requires Valid(data, w, g0) && p > 0 && Run(data, w, g0, j).Some?
    requires Run(data, w, g0, j) == Run(data, w, g0, j + p)
    ensures Run(data, w, g0, j + m) == Run(data, w, g0, j + p + m)
  {
    if m > 0 {
      Periodic(data, w, g0, j, p, m - 1);
    }
  }

  lemma {:induction false} NeverLeaves(data: seq<seq<char>>, w: nat, g0: Guard, j: nat, p: nat, n: nat)
    requires Valid(data, w, g0) && p > 0 && Run(data, w, g0, j + p).Some?
    requires Run(data, w, g0, j) == Run(data, w, g0, j + p)
    ensures Run(data, w, g0, n).Some?
    decreases n
  {
    if n > j + p {
      Periodic(data, w, g0, j, p, n - j - p);
      NeverLeaves(data, w, g0, j, p, n - p);
    } else if Run(data, w, g0, n).None? {
      RunGone(data, w, g0, n, j + p);
    }
  }

  lemma Looping(data: seq<seq<char>>, w: nat, g0: Guard, j: nat, k: nat)
    requires Valid(data, w, g0) && j < k && Run(data, w, g0, k).Some?
    requires Run(data, w, g0, j) == Run(data, w, g0, k)
    ensures forall n :: Run(data, w, g0, n).Some?
  {
    forall n | true
      ensures Run(data, w, g0, n).Some?
    {
      NeverLeaves(data, w, g0, j, k - j, n);
    }
  }

  // ---------------------------------------------------------------------
  // The visited bitmaps

  // Setting a direction bit sets that bit and no other.
  lemma OrBit(v: bv8, b: bv8, d: bv8)
    requires IsDir(b) && IsDir(d)
    ensures ((v | b) & d != 0) <==> (v & d != 0 || b == d)
    ensures (v | b) & 0xF0 == v & 0xF0
  {
  }

  // A cell without bits outside the four directions is non-zero exactly
  // when some direction bit is set.
  lemma NonZeroBit(v: bv8)
    requires v & 0xF0 == 0
    ensures v != 0 <==> exists d :: IsDir(d) && v & d != 0
  {
    if v != 0 {
      if v & UP != 0 {
        assert IsDir(UP);
      } else if v & RIGHT != 0 {
        assert IsDir(RIGHT);
      } else if v & DOWN != 0 {
        assert IsDir(DOWN);
      } else {
        assert v & LEFT != 0 && IsDir(LEFT);
      }
    }
  }

  // h rows of w cells.
  predicate Shape(vis: seq<seq<bv8>>, h: nat, w: nat)
  {
    |vis| == h && forall y :: 0 <= y < h ==> |vis[y]| == w
  }

  // The bits of the bitmap are exactly the marks; nothing but direction
  // bits is ever set.
  ghost predicate Matches(vis: seq<seq<bv8>>, w: nat, marks: set<(int, int, bv8)>)
    requires Shape(vis, |vis|, w)
  {
    (forall y, x :: 0 <= y < |vis| && 0 <= x < w ==> vis[y][x] & 0xF0 == 0) &&
    (forall y, x, d :: 0 <= y < |vis| && 0 <= x < w && IsDir(d) ==> (vis[y][x] & d != 0 <==> (x, y, d) in marks))
  }

  function Blank(h: nat, w: nat): (r: seq<seq<bv8>>)
    ensures Shape(r, h, w)
  {
    seq(h, _ => seq(w, _ => 0 as bv8))
  }

  // `visited[y][x] |= d`
  function Record(vis: seq<seq<bv8>>, x: nat, y: nat, d: bv8): (r: seq<seq<bv8>>)
    requires y < |vis| && x < |vis[y]|
    ensures |r| == |vis| && forall k :: 0 <= k < |r| ==> |r[k]| == |vis[k]|
  {
    vis[y := vis[y][x := vis[y][x] | d]]
  }

  lemma Recorded(vis: seq<seq<bv8>>, w: nat, marks: set<(int, int, bv8)>, x: nat, y: nat, d: bv8)
    requires Shape(vis, |vis|, w) && Matches(vis, w, marks) && y < |vis| && x < w && IsDir(d)
    ensures Shape(Record(vis, x, y, d), |vis|, w) && Matches(Record(vis, x, y, d), w, marks + {(x, y, d)})
  {
    var r := Record(vis, x, y, d);
    forall y', x' | 0 <= y' < |vis| && 0 <= x' < w
      ensures r[y'][x'] & 0xF0 == 0
    {
      OrBit(vis[y][x], d, d);
    }
    forall y', x', e | 0 <= y' < |vis| && 0 <= x' < w && IsDir(e)
      ensures r[y'][x'] & e != 0 <==> (x', y', e) in marks + {(x, y, d)}
    {
      if (x', y') == (x, y) {
        OrBit(vis[y][x], d, e);
      }
    }
  }

  lemma BlankMatches(h: nat, w: nat, g0: Guard)
    requires 0 <= g0.x < w && 0 <= g0.y < h && IsDir(g0.d)
    ensures Matches(Record(Blank(h, w), g0.x, g0.y, g0.d), w, {(g0.x, g0.y, g0.d)})
  {
    var b := Blank(h, w);
    assert Matches(b, w, {}) by {
      forall y, x, d | 0 <= y < h && 0 <= x < w && IsDir(d)
        ensures b[y][x] & d == 0
      {
      }
    }
    Recorded(b, w, {}, g0.x, g0.y, g0.d);
    // `visited[gy][gx] = gd` on a blank cell is `|= gd`.
    assert b[g0.y][g0.x] | g0.d == g0.d;
  }

  // ---------------------------------------------------------------------
  // Finding the guard

  predicate GuardChar(c: char)
  {
    c == '^' || c == '>' || c == 'v' || c == '<'
  }

  function DirOf(c: char): (d: bv8)
    requires GuardChar(c)
    ensures IsDir(d)
  {
    match c
    case '^' => UP
    case '>' => RIGHT
    case 'v' => DOWN
    case '<' => LEFT
  }

  // The map as `day06` reads it: w is the first line's length, every
  // line is at least that long, the guard stands at gs and every other
  // cell is open floor or an obstruction.
  predicate Puzzle(data: seq<seq<char>>, gs: (nat, nat))
  {
    |data| >= 1 && Wide(data, |data[0]|) && InMap(data, |data[0]|, gs.0, gs.1) &&
    GuardChar(data[gs.1][gs.0]) &&
    forall y, x :: 0 <= y < |data| && 0 <= x < |data[0]| && (x, y) != gs ==> data[y][x] == '.' || data[y][x] == '#'
  }

  // The first cell, in row-major order, that is neither '.' nor '#'.
  method FindGuard(data: seq<seq<char>>, ghost gs: (nat, nat)) returns (gx: nat, gy: nat, gd: bv8)
    requires Puzzle(data, gs)
    ensures gx == gs.0 && gy == gs.1 && gd == DirOf(data[gy][gx])
  {
    var w := |data[0]|;
    var found := false;
    ghost var d0 := DirOf(data[gs.1][gs.0]);
    gx, gy, gd := 0, 0, 0;
    for y := 0 to |data|
      invariant found ==> gx == gs.0 && gy == gs.1 && gd == d0
      invariant !found ==> gs.1 >= y
    {
      for x := 0 to w
        invariant found ==> gx == gs.0 && gy == gs.1 && gd == d0
        invariant !found ==> gs.1 > y || (gs.1 == y && gs.0 >= x)
      {
        var c := data[y][x];
        if c != '.' && c != '#' {
          gx, gy, gd := x, y, DirOf(c);
          found := true;
          break;
        }
      }
      if found {
        break;
      }
    }
  }

  // ---------------------------------------------------------------------
  // Part 1: the patrol

  // `data[gy][gx] = '.'`: the guard's cell is open floor.
  function Cleared(data: seq<seq<char>>, gs: (nat, nat)): (r: seq<seq<char>>)
    requires Puzzle(data, gs)
    ensures |r| == |data| && Wide(r, |data[0]|) && Clean(r, |data[0]|) && r[gs.1][gs.0] == '.'
  {
    data[gs.1 := data[gs.1][gs.0 := '.']]
  }

  function Start(data: seq<seq<char>>, gs: (nat, nat)): (g: Guard)
    requires Puzzle(data, gs)
    ensures IsDir(g.d)
  {
    Guard(gs.0, gs.1, DirOf(data[gs.1][gs.0]))
  }

  // Some step count by which the guard has left the map.
  ghost predicate Escapes(data: seq<seq<char>>, gs: (nat, nat), bound: nat)
    requires Puzzle(data, gs)
  {
    Run(Cleared(data, gs), |data[0]|, Start(data, gs), bound).None?
  }

  lemma {:induction false} StillIn(data: seq<seq<char>>, w: nat, g0: Guard, k: nat, bound: nat)
    requires Valid(data, w, g0) && Run(data, w, g0, k).Some? && Run(data, w, g0, bound).None?
    ensures k < bound
  {
    if k >= bound {
      RunGone(data, w, g0, bound, k);
    }
  }

  // One step of the walk from state g: leaving, a turn in place, or a
  // step forward that marks the cell entered.
  lemma Stepped(data: seq<seq<char>>, w: nat, g0: Guard, k: nat, g: Guard)
    requires Valid(data, w, g0) && Run(data, w, g0, k) == Some(g)
    ensures Peek(data, w, Ahead(g).0, Ahead(g).1) == '!' ==> Run(data, w, g0, k + 1).None?
    ensures Peek(data, w, Ahead(g).0, Ahead(g).1) == '#' ==>
              Run(data, w, g0, k + 1) == Some(Guard(g.x, g.y, Turn(g.d))) &&
              Marks(data, w, g0, k + 1) == Marks(data, w, g0, k)
    ensures Peek(data, w, Ahead(g).0, Ahead(g).1) !in {'!', '#'} ==>
              InMap(data, w, Ahead(g).0, Ahead(g).1) && data[Ahead(g).1][Ahead(g).0] == '.' &&
              Run(data, w, g0, k + 1) == Some(Guard(Ahead(g).0, Ahead(g).1, g.d)) &&
              Marks(data, w, g0, k + 1) == Marks(data, w, g0, k) + {(Ahead(g).0, Ahead(g).1, g.d)}
  {
    assert Ahead(g) != (g.x, g.y);
  }

  // The recorded bit of a cell and direction says whether it is marked.
  lemma Seen(vis: seq<seq<bv8>>, w: nat, marks: set<(int, int, bv8)>, x: nat, y: nat, d: bv8)
    requires Shape(vis, |vis|, w) && Matches(vis, w, marks) && y < |vis| && x < w && IsDir(d)
    ensures vis[y][x] & d != 0 <==> (x, y, d) in marks
  {
  }

  // The walk of part 1, which stops only once the guard has left the map.
  method Patrol(data: seq<seq<char>>, w: nat, g0: Guard, ghost bound: nat) returns (visited: seq<seq<bv8>>, ghost steps: nat)
    requires Valid(data, w, g0) && InMap(data, w, g0.x, g0.y) && Run(data, w, g0, bound).None?
    ensures Shape(visited, |data|, w)
    ensures Run(data, w, g0, steps).Some? && Run(data, w, g0, steps + 1).None?
    ensures Matches(visited, w, Marks(data, w, g0, steps))
  {
    visited := Record(Blank(|data|, w), g0.x, g0.y, g0.d);
    BlankMatches(|data|, w, g0);
    var g := g0;
    var inMap := true;
    steps := 0;
    while inMap
      invariant Patrolling(data, w, g0, bound, visited, g, inMap, steps)
      decreases bound - steps, if inMap then 1 else 0
    {
      visited, g, inMap, steps := PatrolStep(data, w, g0, bound, visited, g, steps);
    }
  }

  // One turn of the patrol loop: leave the map, turn at an obstruction, or
  // step forward and record the cell entered.
  method PatrolStep(data: seq<seq<char>>, w: nat, g0: Guard, ghost bound: nat, visited0: seq<seq<bv8>>, g0': Guard, ghost steps0: nat)
    returns (visited: seq<seq<bv8>>, g: Guard, inMap: bool, ghost steps: nat)
    requires Valid(data, w, g0) && Run(data, w, g0, bound).None?
    requires Patrolling(data, w, g0, bound, visited0, g0', true, steps0)
    ensures Patrolling(data, w, g0, bound, visited, g, inMap, steps)
    ensures if inMap then steps == steps0 + 1 else steps == steps0
  {
    visited, g, inMap, steps := visited0, g0', true, steps0;
    var nx, ny := Ahead(g).0, Ahead(g).1;
    var p := Peek(data, w, nx, ny);
    if p == '!' {
      PatrolLeave(data, w, g0, bound, visited, g, steps);
      inMap := false;
    } else if p == '#' {
      PatrolTurn(data, w, g0, bound, visited, g, steps);
      g := Guard(g.x, g.y, Turn(g.d));
      steps := steps + 1;
    } else {
      PatrolMove(data, w, g0, bound, visited, g, steps);
      visited := Record(visited, nx, ny, g.d);
      g := Guard(nx, ny, g.d);
      steps := steps + 1;
    }
  }

  // The three branches of the patrol loop each keep `Patrolling`: leaving
  // the map, turning at an obstruction, and stepping forward.
  lemma PatrolLeave(data: seq<seq<char>>, w: nat, g0: Guard, bound: nat, visited: seq<seq<bv8>>, g: Guard, steps: nat)
    requires Valid(data, w, g0) && Patrolling(data, w, g0, bound, visited, g, true, steps)
    requires IsDir(g.d) && Peek(data, w, Ahead(g).0, Ahead(g).1) == '!'
    ensures Patrolling(data, w, g0, bound, visited, g, false, steps)
  {
    Stepped(data, w, g0, steps, g);
  }

  lemma PatrolTurn(data: seq<seq<char>>, w: nat, g0: Guard, bound: nat, visited: seq<seq<bv8>>, g: Guard, steps: nat)
    requires Valid(data, w, g0) && Run(data, w, g0, bound).None?
    requires Patrolling(data, w, g0, bound, visited, g, true, steps)
    requires IsDir(g.d) && Peek(data, w, Ahead(g).0, Ahead(g).1) == '#'
    ensures Patrolling(data, w, g0, bound, visited, Guard(g.x, g.y, Turn(g.d)), true, steps + 1)
  {
    StillIn(data, w, g0, steps, bound);
    Stepped(data, w, g0, steps, g);
  }

  lemma PatrolMove(data: seq<seq<char>>, w: nat, g0: Guard, bound: nat, visited: seq<seq<bv8>>, g: Guard, steps: nat)
    requires Valid(data, w, g0) && Run(data, w, g0, bound).None?
    requires Patrolling(data, w, g0, bound, visited, g, true, steps)
    requires IsDir(g.d) && Peek(data, w, Ahead(g).0, Ahead(g).1) !in {'!', '#'}
    ensures 0 <= Ahead(g).0 < w && 0 <= Ahead(g).1 < |data|
    ensures Patrolling(data, w, g0, bound, Record(visited, Ahead(g).0, Ahead(g).1, g.d), Guard(Ahead(g).0, Ahead(g).1, g.d), true, steps + 1)
  {
    StillIn(data, w, g0, steps, bound);
    Stepped(data, w, g0, steps, g);
    Recorded(visited, w, Marks(data, w, g0, steps), Ahead(g).0, Ahead(g).1, g.d);
  }

  // The patrol loop after `steps` moves: the marks so far are recorded and,
  // while the guard is in the map, g is where the walk has brought it.
  ghost predicate Patrolling(data: seq<seq<char>>, w: nat, g0: Guard, bound: nat, visited: seq<seq<bv8>>, g: Guard, inMap: bool, steps: nat)
    requires Valid(data, w, g0)
  {
    Shape(visited, |data|, w) && steps <= bound &&
    Run(data, w, g0, steps).Some? && Matches(visited, w, Marks(data, w, g0, steps)) &&
    (inMap ==> Run(data, w, g0, steps) == Some(g) && InMap(data, w, g.x, g.y)) &&
    (!inMap ==> Run(data, w, g0, steps + 1).None?)
  }

  // ---------------------------------------------------------------------
  // The visited cells

  // The cells of one row with a non-zero entry, left to right.
  function RowCells(row: seq<bv8>, y: nat, n: nat): (r: seq<(nat, nat)>)
    requires n <= |row|
    ensures forall s {:trigger s in r} :: s in r <==> s.1 == y && s.0 < n && row[s.0] != 0
  {
    if n == 0 then []
    else RowCells(row, y, n - 1) + (if row[n - 1] != 0 then [(n - 1, y)] else [])
  }

  // The cells of the first n rows with a non-zero entry, in row-major order.
  function GridCells(vis: seq<seq<bv8>>, w: nat, n: nat): (r: seq<(nat, nat)>)
    requires Shape(vis, |vis|, w) && n <= |vis|
    ensures forall s {:trigger s in r} :: s in r <==> s.1 < n && s.0 < w && vis[s.1][s.0] != 0
  {
    if n == 0 then [] else GridCells(vis, w, n - 1) + RowCells(vis[n - 1], n - 1, w)
  }

  predicate Distinct<T(==)>(s: seq<T>)
  {
    forall i, j :: 0 <= i < j < |s| ==> s[i] != s[j]
  }

  lemma DistinctJoin<T>(a: seq<T>, b: seq<T>)
    requires Distinct(a) && Distinct(b) && forall t :: t in a ==> t !in b
    ensures Distinct(a + b)
  {
    forall i, j | 0 <= i < j < |a + b|
      ensures (a + b)[i] != (a + b)[j]
    {
      if i < |a| && j >= |a| {
        assert (a + b)[i] in a && (a + b)[j] == b[j - |a|];
      }
    }
  }

  lemma {:induction false} RowCellsDistinct(row: seq<bv8>, y: nat, n: nat)
    requires n <= |row|
    ensures Distinct(RowCells(row, y, n))
  {
    if n > 0 {
      RowCellsDistinct(row, y, n - 1);
      DistinctJoin(RowCells(row, y, n - 1), if row[n - 1] != 0 then [(n - 1, y)] else []);
    }
  }

  lemma {:induction false} GridCellsDistinct(vis: seq<seq<bv8>>, w: nat, n: nat)
    requires Shape(vis, |vis|, w) && n <= |vis|
    ensures Distinct(GridCells(vis, w, n))
  {
    if n > 0 {
      GridCellsDistinct(vis, w, n - 1);
      RowCellsDistinct(vis[n - 1], n - 1, w);
      DistinctJoin(GridCells(vis, w, n - 1), RowCells(vis[n - 1], n - 1, w));
    }
  }

  // The candidate obstruction sites: the visited cells but the start.
  function Without(cells: seq<(nat, nat)>, gs: (nat, nat)): (r: seq<(nat, nat)>)
    ensures forall s :: s in r <==> s in cells && s != gs
  {
    if cells == [] then []
    else Without(cells[..|cells| - 1], gs) + (if cells[|cells| - 1] != gs then [cells[|cells| - 1]] else [])
  }

  lemma {:induction false} WithoutDistinct(cells: seq<(nat, nat)>, gs: (nat, nat))
    requires Distinct(cells)
    ensures Distinct(Without(cells, gs))
  {
    if cells != [] {
      var init := cells[..|cells| - 1];
      WithoutDistinct(init, gs);
      DistinctJoin(Without(init, gs), if cells[|cells| - 1] != gs then [cells[|cells| - 1]] else []);
    }
  }

  // A distinct sequence has as many elements as its set.
  lemma {:induction false} DistinctCard<T>(s: seq<T>)
    requires Distinct(s)
    ensures |set t | t in s| == |s|
  {
    if s != [] {
      var init := s[..|s| - 1];
      DistinctCard(init);
      assert (set t | t in s) == (set t | t in init) + {s[|s| - 1]};
    }
  }

  // ---------------------------------------------------------------------
  // Part 2: one obstruction

  // Some direction within n right turns of the guard's does not face an
  // obstruction.
  ghost predicate OpenWithin(data: seq<seq<char>>, w: nat, g: Guard, n: nat)
    requires Wide(data, w) && IsDir(g.d)
  {
    exists j :: 0 <= j < n &&
      Peek(data, w, g.x + MapDir(TurnN(g.d, j)).0, g.y + MapDir(TurnN(g.d, j)).1) != '#'
  }

  // Every (cell, direction) of the map.
  ghost function Universe(h: nat, w: nat): set<(int, int, bv8)>
  {
    set x: int, y: int, d: bv8 | 0 <= x < w && 0 <= y < h && d in {UP, RIGHT, DOWN, LEFT} :: (x, y, d)
  }

  lemma Absorb(m: set<(int, int, bv8)>, t: (int, int, bv8))
    requires t in m
    ensures m + {t} == m
  {
  }

  lemma Shrinks(u: set<(int, int, bv8)>, m: set<(int, int, bv8)>, t: (int, int, bv8))
    requires t in u && t !in m
    ensures |u - (m + {t})| < |u - m|
  {
    assert u - m == (u - (m + {t})) + {t};
  }

  lemma {:induction false} MarksInMap(data: seq<seq<char>>, w: nat, g0: Guard, k: nat)
    requires Valid(data, w, g0) && InMap(data, w, g0.x, g0.y)
    ensures Marks(data, w, g0, k) <= Universe(|data|, w)
  {
    if k > 0 {
      MarksInMap(data, w, g0, k - 1);
      var t := (g0.x, g0.y, g0.d);
      assert t in Universe(|data|, w);
    } else {
      assert (g0.x, g0.y, g0.d) in Universe(|data|, w);
    }
  }

  // The recorded bitmap of the walk with loop detection after k steps.
  ghost predicate Tracking(data: seq<seq<char>>, w: nat, g0: Guard, vis: seq<seq<bv8>>, marks: set<(int, int, bv8)>, k: nat)
    requires Valid(data, w, g0)
  {
    Shape(vis, |data|, w) && marks == Marks(data, w, g0, k) &&
    marks <= Universe(|data|, w) && Matches(vis, w, marks)
  }

  // The guard's state g after k steps, with an open side within the
  // turns it has left before it would face the same way again.
  ghost predicate Standing(data: seq<seq<char>>, w: nat, g0: Guard, k: nat, g: Guard, turns: nat)
    requires Valid(data, w, g0)
  {
    Run(data, w, g0, k) == Some(g) && IsDir(g.d) && InMap(data, w, g.x, g.y) &&
    data[g.y][g.x] == '.' && turns < 4 && OpenWithin(data, w, g, 4 - turns)
  }

  /** The walk with loop detection: it stops when the guard leaves the map
    * or steps into a cell in a direction already recorded there, and
    * reports a loop exactly when the guard never leaves. */
  method Trial(data: seq<seq<char>>, w: nat, g0: Guard) returns (isLoop: bool)
    requires Valid(data, w, g0) && InMap(data, w, g0.x, g0.y) && data[g0.y][g0.x] == '.'
    requires OpenWithin(data, w, g0, 4)
    ensures isLoop <==> forall n :: Run(data, w, g0, n).Some?
  {
    var visited2 := Record(Blank(|data|, w), g0.x, g0.y, g0.d);
    BlankMatches(|data|, w, g0);
    var g := g0;
    var inMap := true;
    isLoop := false;
    ghost var k: nat := 0;
    ghost var turns: nat := 0;
    ghost var marks := Marks(data, w, g0, 0);
    MarksInMap(data, w, g0, 0);
    while inMap && !isLoop
      invariant Tracking(data, w, g0, visited2, marks, k)
      invariant inMap && !isLoop ==> Standing(data, w, g0, k, g, turns)
      invariant !inMap ==> Run(data, w, g0, k + 1).None?
      invariant isLoop ==> Run(data, w, g0, k).Some? && exists j: nat :: j < k && Run(data, w, g0, j) == Run(data, w, g0, k)
      decreases if inMap && !isLoop then 1 else 0, |Universe(|data|, w) - marks|, 4 - turns
    {
      Stepped(data, w, g0, k, g);
      var (nx, ny) := Ahead(g);
      var p := Peek(data, w, nx, ny);
      if p == '!' {
        inMap := false;
      } else if p == '#' {
        TurnWitness(data, w, g, 4 - turns);
        g := Guard(g.x, g.y, Turn(g.d));
        k := k + 1;
        turns := turns + 1;
      } else {
        Seen(visited2, w, marks, nx, ny, g.d);
        if visited2[ny][nx] & g.d != 0 {
          ghost var j := MarkWasState(data, w, g0, k, (nx, ny, g.d));
          Absorb(marks, (nx, ny, g.d));
          isLoop := true;
        } else {
          Recorded(visited2, w, marks, nx, ny, g.d);
          visited2 := Record(visited2, nx, ny, g.d);
          Shrinks(Universe(|data|, w), marks, (nx, ny, g.d));
          marks := marks + {(nx, ny, g.d)};
          StepBack(data, w, g);
          turns := 0;
        }
        g := Guard(nx, ny, g.d);
        k := k + 1;
      }
    }
    if isLoop {
      ghost var j: nat :| j < k && Run(data, w, g0, j) == Run(data, w, g0, k);
      Looping(data, w, g0, j, k);
    }
  }

  // Facing an obstruction, the open direction is one turn nearer.
  lemma TurnWitness(data: seq<seq<char>>, w: nat, g: Guard, n: nat)
    requires Wide(data, w) && IsDir(g.d) && OpenWithin(data, w, g, n)
    requires Peek(data, w, Ahead(g).0, Ahead(g).1) == '#'
    ensures n >= 2 && OpenWithin(data, w, Guard(g.x, g.y, Turn(g.d)), n - 1)
  {
    var j :| 0 <= j < n && Peek(data, w, g.x + MapDir(TurnN(g.d, j)).0, g.y + MapDir(TurnN(g.d, j)).1) != '#';
    assert j != 0;
    assert TurnN(g.d, j) == TurnN(Turn(g.d), j - 1);
  }

  // After a step forward the cell behind, two turns away, is open floor.
  lemma StepBack(data: seq<seq<char>>, w: nat, g: Guard)
    requires Wide(data, w) && IsDir(g.d) && InMap(data, w, g.x, g.y) && data[g.y][g.x] == '.'
    ensures OpenWithin(data, w, Guard(Ahead(g).0, Ahead(g).1, g.d), 4)
  {
    TurnBack(g.d);
    assert TurnN(g.d, 2) == Turn(Turn(g.d));
  }

  // ---------------------------------------------------------------------
  // Both parts

  // `d[y][x] = '#'`
  function Block(data: seq<seq<char>>, s: (nat, nat)): (r: seq<seq<char>>)
    requires s.1 < |data| && s.0 < |data[s.1]|
    ensures |r| == |data|
  {
    data[s.1 := data[s.1][s.0 := '#']]
  }

  // The cells the guard stands on up to step k.
  ghost function Stood(data: seq<seq<char>>, w: nat, g0: Guard, k: nat): set<(nat, nat)>
    requires Valid(data, w, g0)
  {
    set j, x: nat, y: nat | 0 <= j <= k && x < w && y < |data| && Run(data, w, g0, j).Some? &&
                            Run(data, w, g0, j).value.x == x && Run(data, w, g0, j).value.y == y :: (x, y)
  }

  // With an obstruction at s the guard never leaves the map.
  ghost predicate Traps(data: seq<seq<char>>, gs: (nat, nat), s: (nat, nat))
    requires Puzzle(data, gs)
  {
    s.1 < |data| && s.0 < |data[0]| &&
    var blocked := Block(Cleared(data, gs), s);
    Valid(blocked, |data[0]|, Start(data, gs)) && forall n :: Run(blocked, |data[0]|, Start(data, gs), n).Some?
  }

  // Two of the four cells next to the start are not obstructions, or one
  // of them is off the map, so one obstruction on the map cannot leave the
  // guard spinning in place.
  ghost predicate TwoWaysOut(data: seq<seq<char>>, gs: (nat, nat))
    requires Puzzle(data, gs)
  {
    TwoOpen(Cleared(data, gs), |data[0]|, Start(data, gs))
    || OffBeside(Cleared(data, gs), |data[0]|, Start(data, gs))
  }

  ghost predicate OffBeside(data: seq<seq<char>>, w: nat, g: Guard)
    requires Wide(data, w)
  {
    exists a: bv8 :: IsDir(a) && !InMap(data, w, g.x + MapDir(a).0, g.y + MapDir(a).1)
  }

  ghost predicate TwoOpen(data: seq<seq<char>>, w: nat, g: Guard)
    requires Wide(data, w)
  {
    exists a: bv8, b: bv8 :: IsDir(a) && IsDir(b) && a != b &&
      Peek(data, w, g.x + MapDir(a).0, g.y + MapDir(a).1) != '#' &&
      Peek(data, w, g.x + MapDir(b).0, g.y + MapDir(b).1) != '#'
  }

  // The cells with a recorded direction are the cells the guard stood on.
  lemma CellsAreStood(data: seq<seq<char>>, w: nat, g0: Guard, vis: seq<seq<bv8>>, k: nat)
    requires Valid(data, w, g0) && Shape(vis, |data|, w) && Matches(vis, w, Marks(data, w, g0, k))
    ensures forall s :: s in GridCells(vis, w, |data|) <==> s in Stood(data, w, g0, k)
  {
    forall s: (nat, nat) | s.1 < |data| && s.0 < w
      ensures vis[s.1][s.0] != 0 <==> s in Stood(data, w, g0, k)
    {
      NonZeroBit(vis[s.1][s.0]);
      if vis[s.1][s.0] != 0 {
        var d: bv8 :| IsDir(d) && vis[s.1][s.0] & d != 0;
        var j := MarkWasState(data, w, g0, k, (s.0, s.1, d));
        assert Run(data, w, g0, j).value.x == s.0 && Run(data, w, g0, j).value.y == s.1;
      }
      if s in Stood(data, w, g0, k) {
        var j: nat :| j <= k && Run(data, w, g0, j).Some? &&
                      Run(data, w, g0, j).value.x == s.0 && Run(data, w, g0, j).value.y == s.1;
        StateIsMarked(data, w, g0, j, Run(data, w, g0, j).value);
        var d :| (s.0, s.1, d) in Marks(data, w, g0, j);
        MarksGrow(data, w, g0, j, k);
        MarkIsDir(data, w, g0, k, (s.0, s.1, d));
        assert vis[s.1][s.0] & d != 0;
      }
    }
  }

  lemma {:induction false} MarksGrow(data: seq<seq<char>>, w: nat, g0: Guard, j: nat, k: nat)
    requires Valid(data, w, g0) && j <= k
    ensures Marks(data, w, g0, j) <= Marks(data, w, g0, k)
    decreases k
  {
    if j < k {
      MarksGrow(data, w, g0, j, k - 1);
    }
  }

  lemma MarkIsDir(data: seq<seq<char>>, w: nat, g0: Guard, k: nat, t: (int, int, bv8))
    requires Valid(data, w, g0) && t in Marks(data, w, g0, k)
    ensures IsDir(t.2)
  {
    var j := MarkWasState(data, w, g0, k, t);
  }

  // Different directions point at different neighbours.
  lemma DirsApart(a: bv8, b: bv8)
    requires IsDir(a) && IsDir(b) && a != b
    ensures MapDir(a) != MapDir(b)
  {
  }

  // An obstruction at s leaves every other cell as it was.
  lemma BlockElsewhere(data: seq<seq<char>>, w: nat, s: (nat, nat), x: int, y: int)
    requires Wide(data, w) && s.1 < |data| && s.0 < w && (x, y) != (s.0 as int, s.1 as int)
    ensures Wide(Block(data, s), w) && Peek(Block(data, s), w, x, y) == Peek(data, w, x, y)
  {
  }

  // Two different directions lead to two different cells, and only one of
  // them can hold the new obstruction.
  lemma OpenStart(data: seq<seq<char>>, gs: (nat, nat), s: (nat, nat))
    requires Puzzle(data, gs) && TwoWaysOut(data, gs) && s != gs && s.1 < |data| && s.0 < |data[0]|
    ensures Valid(Block(Cleared(data, gs), s), |data[0]|, Start(data, gs))
    ensures OpenWithin(Block(Cleared(data, gs), s), |data[0]|, Start(data, gs), 4)
    ensures Block(Cleared(data, gs), s)[gs.1][gs.0] == '.'
  {
    var w := |data[0]|;
    var clean := Cleared(data, gs);
    var g := Start(data, gs);
    if TwoOpen(clean, w, g) {
      var a: bv8, b: bv8 :| IsDir(a) && IsDir(b) && a != b &&
        Peek(clean, w, g.x + MapDir(a).0, g.y + MapDir(a).1) != '#' &&
        Peek(clean, w, g.x + MapDir(b).0, g.y + MapDir(b).1) != '#';
      OpenBeside(clean, w, g, s, a, b);
    } else {
      var a: bv8 :| IsDir(a) && !InMap(clean, w, g.x + MapDir(a).0, g.y + MapDir(a).1);
      OpenOffMap(clean, w, g, s, a);
    }
  }

  // A side leading off the map stays open whatever cell of the map is
  // obstructed.
  lemma OpenOffMap(data: seq<seq<char>>, w: nat, g: Guard, s: (nat, nat), a: bv8)
    requires Wide(data, w) && Clean(data, w) && IsDir(g.d) && s.1 < |data| && s.0 < w
    requires IsDir(a) && !InMap(data, w, g.x + MapDir(a).0, g.y + MapDir(a).1)
    ensures Valid(Block(data, s), w, g) && OpenWithin(Block(data, s), w, g, 4)
  {
    BlockClean(data, w, s);
    BlockElsewhere(data, w, s, g.x + MapDir(a).0, g.y + MapDir(a).1);
    FacingOpen(Block(data, s), w, g, a);
  }

  lemma OpenBeside(data: seq<seq<char>>, w: nat, g: Guard, s: (nat, nat), a: bv8, b: bv8)
    requires Wide(data, w) && Clean(data, w) && IsDir(g.d) && s.1 < |data| && s.0 < w
    requires IsDir(a) && IsDir(b) && a != b
    requires Peek(data, w, g.x + MapDir(a).0, g.y + MapDir(a).1) != '#'
    requires Peek(data, w, g.x + MapDir(b).0, g.y + MapDir(b).1) != '#'
    ensures Valid(Block(data, s), w, g) && OpenWithin(Block(data, s), w, g, 4)
  {
    DirsApart(a, b);
    BlockClean(data, w, s);
    if (g.x + MapDir(a).0, g.y + MapDir(a).1) != (s.0 as int, s.1 as int) {
      BlockElsewhere(data, w, s, g.x + MapDir(a).0, g.y + MapDir(a).1);
      FacingOpen(Block(data, s), w, g, a);
    } else {
      BlockElsewhere(data, w, s, g.x + MapDir(b).0, g.y + MapDir(b).1);
      FacingOpen(Block(data, s), w, g, b);
    }
  }

  // A guard with an open side has one within four turns.
  lemma FacingOpen(data: seq<seq<char>>, w: nat, g: Guard, c: bv8)
    requires Wide(data, w) && IsDir(g.d) && IsDir(c)
    requires Peek(data, w, g.x + MapDir(c).0, g.y + MapDir(c).1) != '#'
    ensures OpenWithin(data, w, g, 4)
  {
    var j := Reaches(g.d, c);
    assert Peek(data, w, g.x + MapDir(TurnN(g.d, j)).0, g.y + MapDir(TurnN(g.d, j)).1) != '#';
  }

  lemma BlockClean(data: seq<seq<char>>, w: nat, s: (nat, nat))
    requires Wide(data, w) && Clean(data, w) && s.1 < |data| && s.0 < w
    ensures Wide(Block(data, s), w) && Clean(Block(data, s), w)
  {
  }

  // The walk with loop detection decides whether a site traps the guard.
  lemma TrialTraps(data: seq<seq<char>>, gs: (nat, nat), s: (nat, nat), isLoop: bool)
    requires Puzzle(data, gs) && s.1 < |data| && s.0 < |data[0]|
    requires Valid(Block(Cleared(data, gs), s), |data[0]|, Start(data, gs))
    requires isLoop <==> forall n :: Run(Block(Cleared(data, gs), s), |data[0]|, Start(data, gs), n).Some?
    ensures isLoop <==> Traps(data, gs, s)
  {
    var blocked := Block(Cleared(data, gs), s);
    if isLoop {
      forall n: nat
        ensures Run(blocked, |data[0]|, Start(data, gs), n).Some?
      {
      }
    } else {
      var n: nat :| Run(blocked, |data[0]|, Start(data, gs), n).None?;
    }
  }

  // The trapping sites among the given cells.
  ghost function TrapSet(data: seq<seq<char>>, gs: (nat, nat), cells: seq<(nat, nat)>): (r: set<(nat, nat)>)
    requires Puzzle(data, gs)
    ensures forall s :: s in r <==> s in cells && Traps(data, gs, s)
  {
    if cells == [] then {}
    else
      var last := cells[|cells| - 1];
      TrapSet(data, gs, cells[..|cells| - 1]) + (if Traps(data, gs, last) then {last} else {})
  }

  // The count of trapping sites grows by one for each trapping site.
  lemma TrapStep(data: seq<seq<char>>, gs: (nat, nat), sites: seq<(nat, nat)>, i: nat)
    requires Puzzle(data, gs) && Distinct(sites) && i < |sites|
    ensures |TrapSet(data, gs, sites[..i + 1])| ==
            |TrapSet(data, gs, sites[..i])| + (if Traps(data, gs, sites[i]) then 1 else 0)
  {
    TrapSetUnfold(data, gs, sites, i);
    assert sites[i] !in sites[..i];
  }

  lemma TrapSetUnfold(data: seq<seq<char>>, gs: (nat, nat), sites: seq<(nat, nat)>, i: nat)
    requires Puzzle(data, gs) && i < |sites|
    ensures TrapSet(data, gs, sites[..i + 1]) ==
            TrapSet(data, gs, sites[..i]) + (if Traps(data, gs, sites[i]) then {sites[i]} else {})
  {
    assert sites[..i + 1][..i] == sites[..i];
  }

  // Part 1's count is the number of cells the guard stood on.
  lemma CountStood(data: seq<seq<char>>, w: nat, g0: Guard, vis: seq<seq<bv8>>, k: nat)
    requires Valid(data, w, g0) && Shape(vis, |data|, w) && Matches(vis, w, Marks(data, w, g0, k))
    ensures |GridCells(vis, w, |data|)| == |Stood(data, w, g0, k)|
  {
    var cells := GridCells(vis, w, |data|);
    CellsAreStood(data, w, g0, vis, k);
    GridCellsDistinct(vis, w, |data|);
    DistinctCard(cells);
    assert (set t | t in cells) == Stood(data, w, g0, k);
  }

  // Part 2's candidates are the cells stood on but the start.
  lemma SitesTrapping(data: seq<seq<char>>, gs: (nat, nat), cells: seq<(nat, nat)>, stood: set<(nat, nat)>)
    requires Puzzle(data, gs) && forall s :: s in cells <==> s in stood
    ensures TrapSet(data, gs, Without(cells, gs)) == set s | s in stood && s != gs && Traps(data, gs, s)
  {
  }

  /** Part 1 counts the cells the guard stands on before leaving the map;
    * part 2 counts the cells among them, other than the start, where one
    * more obstruction makes the guard walk forever. */
  method Solve(data: seq<seq<char>>, ghost gs: (nat, nat), ghost bound: nat) returns (p1: nat, p2: nat)
    requires Puzzle(data, gs) && Escapes(data, gs, bound) && TwoWaysOut(data, gs)
    ensures exists steps: nat ::
      Run(Cleared(data, gs), |data[0]|, Start(data, gs), steps).Some? &&
      Run(Cleared(data, gs), |data[0]|, Start(data, gs), steps + 1).None? &&
      p1 == |Stood(Cleared(data, gs), |data[0]|, Start(data, gs), steps)| &&
      p2 == |set s | s in Stood(Cleared(data, gs), |data[0]|, Start(data, gs), steps) && s != gs && Traps(data, gs, s)|
  {
    var w := |data[0]|;
    var gx, gy, gd := FindGuard(data, gs);
    var clean := Cleared(data, (gx, gy));
    var start := Guard(gx, gy, gd);
    assert start == Start(data, gs);
    var visited, steps := Patrol(clean, w, start, bound);
    var cells := GridCells(visited, w, |data|);
    CountStood(clean, w, start, visited, steps);
    p1 := |cells|;

    var sites := Without(cells, (gx, gy));
    GridCellsDistinct(visited, w, |data|);
    WithoutDistinct(cells, (gx, gy));
    CellsAreStood(clean, w, start, visited, steps);
    p2 := PartTwo(data, gs, clean, start, sites);
    SitesTrapping(data, gs, cells, Stood(clean, w, start, steps));
  }

  // Part 2 over the candidate sites: one walk with loop detection each.
  method PartTwo(data: seq<seq<char>>, ghost gs: (nat, nat), clean: seq<seq<char>>, start: Guard, sites: seq<(nat, nat)>)
    returns (p2: nat)
    requires Puzzle(data, gs) && TwoWaysOut(data, gs) && Distinct(sites)
    requires clean == Cleared(data, gs) && start == Start(data, gs)
    requires forall s :: s in sites ==> s != gs && s.1 < |data| && s.0 < |data[0]|
    ensures p2 == |TrapSet(data, gs, sites)|
  {
    var w := |data[0]|;
    p2 := 0;
    for i := 0 to |sites|
      invariant p2 == |TrapSet(data, gs, sites[..i])|
    {
      var site := sites[i];
      OpenStart(data, gs, site);
      var blocked := Block(clean, site);
      var isLoop := Trial(blocked, w, start);
      TrialTraps(data, gs, site, isLoop);
      TrapStep(data, gs, sites, i);
      if isLoop {
        p2 := p2 + 1;
      }
    }
    assert sites[..|sites|] == sites;
  }
}
