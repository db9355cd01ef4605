// src/day21.rs: a robot types a door code on a numeric keypad, steered
// from a directional keypad by a second robot, which is steered in turn by
// a third. Each robot moves its arm key by key: on the numeric keypad it
// goes up first and then sideways, or sideways first and then down; on the
// directional keypads it goes sideways first and then up, or down first
// and then sideways. Either way the arm never passes the keypad's gap. The
// answer adds up, over the codes, the length of the third robot's key
// presses times the number the code starts with.
//
// The codes arrive split into lines. Both parts of the answer are the same
// number.
module Day21 {
  import opened Vectors

  function Abs(n: int): nat
  {
    if n < 0 then -n else n
  }

  // ---------------------------------------------------------------------
  // Keypads

  //   7 8 9
  //   4 5 6
  //   1 2 3
  //     0 A
  predicate NumKey(c: char)
  {
    c in "7894561230A"
  }

  function NumPos(c: char): (v: Vector)
    requires NumKey(c)
    ensures OnNumpad(v)
  {
    match c
    case '7' => Vector(0, 0)
    case '8' => Vector(1, 0)
    case '9' => Vector(2, 0)
    case '4' => Vector(0, 1)
    case '5' => Vector(1, 1)
    case '6' => Vector(2, 1)
    case '1' => Vector(0, 2)
    case '2' => Vector(1, 2)
    case '3' => Vector(2, 2)
    case '0' => Vector(1, 3)
    case 'A' => Vector(2, 3)
  }

  const NUM_GAP := Vector(0, 3)
  const NUM_START := Vector(2, 3)

  predicate OnNumpad(v: Vector)
  {
    0 <= v.x <= 2 && 0 <= v.y <= 3 && v != NUM_GAP
  }

  //     ^ A
  //   < v >
  predicate DirKey(c: char)
  {
    c in "^A<v>"
  }

  function DirPos(c: char): (v: Vector)
    requires DirKey(c)
    ensures OnDirpad(v)
  {
    match c
    case '^' => Vector(1, 0)
    case 'A' => Vector(2, 0)
    case '<' => Vector(0, 1)
    case 'v' => Vector(1, 1)
    case '>' => Vector(2, 1)
  }

  const DIR_GAP := Vector(0, 0)
  const DIR_START := Vector(2, 0)

  predicate OnDirpad(v: Vector)
  {
    0 <= v.x <= 2 && 0 <= v.y <= 1 && v != DIR_GAP
  }

  // The key on a numeric keypad cell (the gap has none).
  function NumKeyAt(v: Vector): char
    requires OnNumpad(v)
  {
    if v.y == 3 then (if v.x == 1 then '0' else 'A')
    else ((2 - v.y) * 3 + v.x + 1 + '0' as int) as char
  }

  // The key on a directional keypad cell.
  function DirKeyAt(v: Vector): char
    requires OnDirpad(v)
  {
    if v.y == 0 then (if v.x == 1 then '^' else 'A')
    else if v.x == 0 then '<' else if v.x == 1 then 'v' else '>'
  }

  // Each key's cell gives the key back, so different keys sit on different
  // cells; and the robots start on A.
  lemma KeyCells(c: char)
    ensures NumKey(c) ==> NumKeyAt(NumPos(c)) == c
    ensures DirKey(c) ==> DirKeyAt(DirPos(c)) == c
    ensures NumPos('A') == NUM_START && DirPos('A') == DIR_START
  {
  }

  lemma KeypadsInjective(a: char, b: char)
    ensures NumKey(a) && NumKey(b) && NumPos(a) == NumPos(b) ==> a == b
    ensures DirKey(a) && DirKey(b) && DirPos(a) == DirPos(b) ==> a == b
  {
    KeyCells(a);
    KeyCells(b);
  }

  // ---------------------------------------------------------------------
  // Arm movements

  predicate Arrow(a: char)
  {
    a in "^v<>"
  }

  function Step(v: Vector, a: char): Vector
  {
    match a
    case '^' => Vector(v.x, v.y - 1)
    case 'v' => Vector(v.x, v.y + 1)
    case '<' => Vector(v.x - 1, v.y)
    case '>' => Vector(v.x + 1, v.y)
    case _ => v
  }

  // Where the arm ends after the arrows.
  function Walk(v: Vector, moves: seq<char>): Vector
    decreases |moves|
  {
    if moves == [] then v else Walk(Step(v, moves[0]), moves[1..])
  }

  // The arm never stands on the gap, from the start to the end of the moves.
  predicate Avoids(v: Vector, moves: seq<char>, gap: Vector)
    decreases |moves|
  {
    v != gap && (moves == [] || Avoids(Step(v, moves[0]), moves[1..], gap))
  }

  function Repeat(a: char, n: nat): (r: seq<char>)
    ensures |r| == n && forall i :: 0 <= i < n ==> r[i] == a
  {
    seq(n, _ => a)
  }

  // The `<` or `>` run for a horizontal difference.
  function Sideways(dx: int): (r: seq<char>)
    ensures |r| == Abs(dx)
  {
    if dx < 0 then Repeat('<', -dx) else Repeat('>', dx)
  }

  // The `^` or `v` run for a vertical difference.
  function Upright(dy: int): (r: seq<char>)
    ensures |r| == Abs(dy)
  {
    if dy < 0 then Repeat('^', -dy) else Repeat('v', dy)
  }

  lemma {:induction false} WalkAppend(v: Vector, a: seq<char>, b: seq<char>)
    ensures Walk(v, a + b) == Walk(Walk(v, a), b)
    ensures Avoids(v, a + b, NUM_GAP) <==> Avoids(v, a, NUM_GAP) && Avoids(Walk(v, a), b, NUM_GAP)
    ensures Avoids(v, a + b, DIR_GAP) <==> Avoids(v, a, DIR_GAP) && Avoids(Walk(v, a), b, DIR_GAP)
    decreases |a|
  {
    if a == [] {
      assert a + b == b;
    } else {
      assert (a + b)[1..] == a[1..] + b;
      WalkAppend(Step(v, a[0]), a[1..], b);
    }
  }

  function Min(a: int, b: int): int
  {
    if a <= b then a else b
  }

  function Max(a: int, b: int): int
  {
    if a <= b then b else a
  }

  // The gap lies off the straight segment from v to w.
  predicate OffSegment(v: Vector, w: Vector, gap: Vector)
  {
    (v.x == w.x && (gap.x != v.x || gap.y < Min(v.y, w.y) || gap.y > Max(v.y, w.y))) ||
    (v.y == w.y && (gap.y != v.y || gap.x < Min(v.x, w.x) || gap.x > Max(v.x, w.x)))
  }

  // A horizontal run moves the arm by dx and keeps off a gap off its segment.
  lemma {:induction false} SidewaysWalk(v: Vector, dx: int, gap: Vector)
    ensures Walk(v, Sideways(dx)) == Vector(v.x + dx, v.y)
    ensures OffSegment(v, Vector(v.x + dx, v.y), gap) ==> Avoids(v, Sideways(dx), gap)
    decreases Abs(dx)
  {
    if dx != 0 {
      var d := if dx < 0 then -1 else 1;
      assert Sideways(dx)[1..] == Sideways(dx - d);
      SidewaysWalk(Vector(v.x + d, v.y), dx - d, gap);
    }
  }

  // A vertical run moves the arm by dy and keeps off a gap off its segment.
  lemma {:induction false} UprightWalk(v: Vector, dy: int, gap: Vector)
    ensures Walk(v, Upright(dy)) == Vector(v.x, v.y + dy)
    ensures OffSegment(v, Vector(v.x, v.y + dy), gap) ==> Avoids(v, Upright(dy), gap)
    decreases Abs(dy)
  {
    if dy != 0 {
      var d := if dy < 0 then -1 else 1;
      assert Upright(dy)[1..] == Upright(dy - d);
      UprightWalk(Vector(v.x, v.y + d), dy - d, gap);
    }
  }

  // The arrows before the final A.
  predicate Arrows(moves: seq<char>)
  {
    forall i :: 0 <= i < |moves| ==> Arrow(moves[i])
  }

  // A press sequence: arrows that take the arm from `from` to `to` along a
  // shortest route that never stands on the gap, then A.
  predicate Route(from: Vector, to: Vector, path: seq<char>, gap: Vector)
  {
    |path| == Abs(to.x - from.x) + Abs(to.y - from.y) + 1 && path[|path| - 1] == 'A' &&
    Arrows(path[..|path| - 1]) && Walk(from, path[..|path| - 1]) == to &&
    Avoids(from, path[..|path| - 1], gap)
  }

  // Robot1's order: up first and then sideways, otherwise sideways first
  // and then down.
  function NumPath(from: Vector, to: Vector): seq<char>
  {
    var diff := Sub(to, from);
    if diff.y < 0 then Upright(diff.y) + Sideways(diff.x) + ['A']
    else Sideways(diff.x) + Upright(diff.y) + ['A']
  }

  // RobotM's order: sideways first and then up, otherwise down first and
  // then sideways.
  function DirPath(from: Vector, to: Vector): seq<char>
  {
    var diff := Sub(to, from);
    if diff.y < 0 then Sideways(diff.x) + Upright(diff.y) + ['A']
    else Upright(diff.y) + Sideways(diff.x) + ['A']
  }

  lemma RunsAreArrows(dx: int, dy: int)
    ensures Arrows(Sideways(dx) + Upright(dy)) && Arrows(Upright(dy) + Sideways(dx))
  {
  }

  // Robot1's presses are a route that avoids the numeric keypad's gap.
  lemma NumPathRoute(from: Vector, to: Vector)
    requires OnNumpad(from) && OnNumpad(to)
    ensures Route(from, to, NumPath(from, to), NUM_GAP)
  {
    var diff := Sub(to, from);
    var path := NumPath(from, to);
    RunsAreArrows(diff.x, diff.y);
    if diff.y < 0 {
      var mid := Vector(from.x, to.y);
      UprightWalk(from, diff.y, NUM_GAP);
      SidewaysWalk(mid, diff.x, NUM_GAP);
      WalkAppend(from, Upright(diff.y), Sideways(diff.x));
      assert path[..|path| - 1] == Upright(diff.y) + Sideways(diff.x);
    } else {
      var mid := Vector(to.x, from.y);
      SidewaysWalk(from, diff.x, NUM_GAP);
      UprightWalk(mid, diff.y, NUM_GAP);
      WalkAppend(from, Sideways(diff.x), Upright(diff.y));
      assert path[..|path| - 1] == Sideways(diff.x) + Upright(diff.y);
    }
  }

  // RobotM's presses are a route that avoids the directional keypad's gap.
  lemma DirPathRoute(from: Vector, to: Vector)
    requires OnDirpad(from) && OnDirpad(to)
    ensures Route(from, to, DirPath(from, to), DIR_GAP)
  {
    var diff := Sub(to, from);
    var path := DirPath(from, to);
    RunsAreArrows(diff.x, diff.y);
    if diff.y < 0 {
      var mid := Vector(to.x, from.y);
      SidewaysWalk(from, diff.x, DIR_GAP);
      UprightWalk(mid, diff.y, DIR_GAP);
      WalkAppend(from, Sideways(diff.x), Upright(diff.y));
      assert path[..|path| - 1] == Sideways(diff.x) + Upright(diff.y);
    } else {
      var mid := Vector(from.x, to.y);
      UprightWalk(from, diff.y, DIR_GAP);
      SidewaysWalk(mid, diff.x, DIR_GAP);
      WalkAppend(from, Upright(diff.y), Sideways(diff.x));
      assert path[..|path| - 1] == Upright(diff.y) + Sideways(diff.x);
    }
  }

  // Every press of a route is a key of the directional keypad.
  predicate DirKeys(s: seq<char>)
  {
    forall i :: 0 <= i < |s| ==> DirKey(s[i])
  }

  lemma RouteKeys(from: Vector, to: Vector, path: seq<char>, gap: Vector)
    requires Route(from, to, path, gap)
    ensures DirKeys(path)
  {
    forall i | 0 <= i < |path|
      ensures DirKey(path[i])
    {
      if i < |path| - 1 {
        assert path[i] == path[..|path| - 1][i];
      }
    }
  }

  // ---------------------------------------------------------------------
  // The robots

  // The robot at the numeric keypad.
  class Robot1 {
    var posn: Vector

    constructor()
      ensures posn == NUM_START
    {
      posn := NUM_START;
    }

    // `move_and_get_path`: the presses that bring the arm to key c and
    // press it; the arm stays there.
    method MoveAndGetPath(c: char) returns (path: seq<char>)
      requires NumKey(c) && OnNumpad(posn)
      modifies this
      ensures posn == NumPos(c)
      ensures path == NumPath(old(posn), posn)
      ensures Route(old(posn), posn, path, NUM_GAP)
    {
      var dest := NumPos(c);
      var diff := Sub(dest, posn);
      NumPathRoute(posn, dest);
      path := [];
      if diff.y < 0 {
        path := path + Repeat('^', Abs(diff.y));
        if diff.x < 0 {
          path := path + Repeat('<', Abs(diff.x));
        } else {
          path := path + Repeat('>', diff.x);
        }
      } else {
        if diff.x < 0 {
          path := path + Repeat('<', Abs(diff.x));
        } else {
          path := path + Repeat('>', diff.x);
        }
        path := path + Repeat('v', diff.y);
      }
      path := path + ['A'];
      posn := dest;
    }
  }

  // A robot at a directional keypad.
  class RobotM {
    var posn: Vector

    constructor()
      ensures posn == DIR_START
    {
      posn := DIR_START;
    }

    method MoveAndGetPath(c: char) returns (path: seq<char>)
      requires DirKey(c) && OnDirpad(posn)
      modifies this
      ensures posn == DirPos(c)
      ensures path == DirPath(old(posn), posn)
      ensures Route(old(posn), posn, path, DIR_GAP)
    {
      var dest := DirPos(c);
      var diff := Sub(dest, posn);
      DirPathRoute(posn, dest);
      path := [];
      if diff.y < 0 {
        if diff.x < 0 {
          path := path + Repeat('<', Abs(diff.x));
        } else {
          path := path + Repeat('>', diff.x);
        }
        path := path + Repeat('^', Abs(diff.y));
      } else {
        path := path + Repeat('v', diff.y);
        if diff.x < 0 {
          path := path + Repeat('<', Abs(diff.x));
        } else {
          path := path + Repeat('>', diff.x);
        }
      }
      path := path + ['A'];
      posn := dest;
    }
  }

  // The presses a directional robot makes for the keys, and where its arm
  // ends.
  function Layer(from: Vector, keys: seq<char>): (r: (seq<char>, Vector))
    requires OnDirpad(from) && DirKeys(keys)
    ensures OnDirpad(r.1) && DirKeys(r.0)
    ensures keys != [] ==> r.1 == DirPos(keys[|keys| - 1])
    ensures keys == [] ==> r == ([], from)
    decreases |keys|
  {
    if keys == [] then ([], from)
    else
      var prev := Layer(from, keys[..|keys| - 1]);
      var to := DirPos(keys[|keys| - 1]);
      DirPathRoute(prev.1, to);
      RouteKeys(prev.1, to, DirPath(prev.1, to), DIR_GAP);
      (prev.0 + DirPath(prev.1, to), to)
  }

  // Each key a robot is given costs it at least one press, and the presses
  // for a key sequence end on A whenever there is one.
  lemma {:induction false} LayerLength(from: Vector, keys: seq<char>)
    requires OnDirpad(from) && DirKeys(keys)
    ensures |Layer(from, keys).0| >= |keys|
    ensures keys != [] ==> Layer(from, keys).0[|Layer(from, keys).0| - 1] == 'A'
    decreases |keys|
  {
    if keys != [] {
      var prev := Layer(from, keys[..|keys| - 1]);
      LayerLength(from, keys[..|keys| - 1]);
      DirPathRoute(prev.1, DirPos(keys[|keys| - 1]));
    }
  }

  // `p1.iter().map(|c| robot.move_and_get_path(*c)).flatten()`.
  method Relay(robot: RobotM, keys: seq<char>) returns (out: seq<char>)
    requires OnDirpad(robot.posn) && DirKeys(keys)
    modifies robot
    ensures (out, robot.posn) == Layer(old(robot.posn), keys)
  {
    out := [];
    for i := 0 to |keys|
      invariant OnDirpad(robot.posn)
      invariant (out, robot.posn) == Layer(old(robot.posn), keys[..i])
    {
      assert keys[..i + 1][..i] == keys[..i];
      var p := robot.MoveAndGetPath(keys[i]);
      out := out + p;
    }
    assert keys[..|keys|] == keys;
  }

  // ---------------------------------------------------------------------
  // `day21`

  datatype Arms = Arms(r1: Vector, r2: Vector, r3: Vector)

  predicate OnKeypads(s: Arms)
  {
    OnNumpad(s.r1) && OnDirpad(s.r2) && OnDirpad(s.r3)
  }

  predicate Code(code: string)
  {
    forall i :: 0 <= i < |code| ==> NumKey(code[i])
  }

  // One key of a code: robot 1's presses relayed through robots 2 and 3.
  function TypeKey(s: Arms, c: char): (r: (seq<char>, Arms))
    requires OnKeypads(s) && NumKey(c)
    ensures OnKeypads(r.1)
  {
    var p1 := NumPath(s.r1, NumPos(c));
    NumPathRoute(s.r1, NumPos(c));
    RouteKeys(s.r1, NumPos(c), p1, NUM_GAP);
    var l2 := Layer(s.r2, p1);
    var l3 := Layer(s.r3, l2.0);
    (l3.0, Arms(NumPos(c), l2.1, l3.1))
  }

  // A whole code, key by key; the arms carry over from code to code.
  function TypeCode(s: Arms, code: string): (r: (seq<char>, Arms))
    requires OnKeypads(s) && Code(code)
    ensures OnKeypads(r.1)
    decreases |code|
  {
    if code == [] then ([], s)
    else
      var prev := TypeCode(s, code[..|code| - 1]);
      var k := TypeKey(prev.1, code[|code| - 1]);
      (prev.0 + k.0, k.1)
  }

  predicate IsDigit(c: char)
  {
    '0' <= c <= '9'
  }

  // The number the first three characters spell.
  function Numeric(code: string): nat
    requires |code| >= 3 && IsDigit(code[0]) && IsDigit(code[1]) && IsDigit(code[2])
  {
    100 * (code[0] as int - '0' as int) + 10 * (code[1] as int - '0' as int) + (code[2] as int - '0' as int)
  }

  // A typeable code that starts with three digits.
  predicate CodeLine(code: string)
  {
    Code(code) && |code| >= 3 && IsDigit(code[0]) && IsDigit(code[1]) && IsDigit(code[2])
  }

  // Every code is a CodeLine.
  predicate Codes(codes: seq<string>)
    decreases |codes|
  {
    codes == [] || (Codes(codes[..|codes| - 1]) && CodeLine(codes[|codes| - 1]))
  }

  lemma {:induction false} CodesPrefix(codes: seq<string>, i: nat)
    requires Codes(codes) && i <= |codes|
    ensures Codes(codes[..i]) && (i < |codes| ==> CodeLine(codes[i]))
    decreases |codes|
  {
    if i == |codes| {
      assert codes[..i] == codes;
    } else if i < |codes| - 1 {
      assert codes[..|codes| - 1][..i] == codes[..i];
      CodesPrefix(codes[..|codes| - 1], i);
    } else {
      assert codes[..|codes| - 1] == codes[..i];
    }
  }

  // The complexities added up, with the arms after the codes.
  function Complexity(codes: seq<string>): (r: (nat, Arms))
    requires Codes(codes)
    ensures OnKeypads(r.1)
    decreases |codes|
  {
    if codes == [] then (0, Arms(NUM_START, DIR_START, DIR_START))
    else AddCode(Complexity(codes[..|codes| - 1]), codes[|codes| - 1])
  }

  // One more code: its presses times its number join the sum, and the arms move on.
  function AddCode(prev: (nat, Arms), code: string): (r: (nat, Arms))
    requires OnKeypads(prev.1) && CodeLine(code)
    ensures OnKeypads(r.1)
  {
    var typed := TypeCode(prev.1, code);
    (prev.0 + Times(|typed.0|, Numeric(code)), typed.1)
  }

  // A code's complexity: the length of the presses times its number,
  // spelled as repeated addition.
  function Times(len: nat, n: nat): nat
    decreases len
  {
    if len == 0 then 0 else Times(len - 1, n) + n
  }

  lemma {:induction false} TimesIsProduct(len: nat, n: nat)
    ensures Times(len, n) == len * n
    decreases len
  {
    if len > 0 {
      TimesIsProduct(len - 1, n);
    }
  }

  // Each key of a code costs the third robot at least one press.
  lemma {:induction false} TypeCodeLength(s: Arms, code: string)
    requires OnKeypads(s) && Code(code)
    ensures |TypeCode(s, code).0| >= |code|
    decreases |code|
  {
    if code != [] {
      var prev := TypeCode(s, code[..|code| - 1]);
      TypeCodeLength(s, code[..|code| - 1]);
      var c := code[|code| - 1];
      var p1 := NumPath(prev.1.r1, NumPos(c));
      NumPathRoute(prev.1.r1, NumPos(c));
      RouteKeys(prev.1.r1, NumPos(c), p1, NUM_GAP);
      LayerLength(prev.1.r2, p1);
      var l2 := Layer(prev.1.r2, p1);
      LayerLength(prev.1.r3, l2.0);
    }
  }

  method TypeKeyWith(robot1: Robot1, robot2: RobotM, robot3: RobotM, c: char) returns (p3: seq<char>)
    requires NumKey(c) && OnKeypads(Arms(robot1.posn, robot2.posn, robot3.posn))
    requires robot2 != robot3
    modifies robot1, robot2, robot3
    ensures (p3, Arms(robot1.posn, robot2.posn, robot3.posn)) ==
      TypeKey(old(Arms(robot1.posn, robot2.posn, robot3.posn)), c)
  {
    var p1 := robot1.MoveAndGetPath(c);
    RouteKeys(old(robot1.posn), robot1.posn, p1, NUM_GAP);
    var p2 := Relay(robot2, p1);
    p3 := Relay(robot3, p2);
  }

  lemma ComplexityStep(codes: seq<string>, i: nat, total: nat, s: Arms, path: seq<char>, s': Arms)
    requires i < |codes| && Codes(codes[..i]) && Codes(codes[..i + 1])
    requires (total, s) == Complexity(codes[..i])
    requires OnKeypads(s) && (path, s') == TypeCode(s, codes[i])
    ensures total + Times(|path|, Numeric(codes[i])) == Complexity(codes[..i + 1]).0
    ensures s' == Complexity(codes[..i + 1]).1
  {
    ComplexityUnfold(codes, i);
  }

  lemma ComplexityUnfold(codes: seq<string>, i: nat)
    requires i < |codes| && Codes(codes[..i]) && Codes(codes[..i + 1])
    ensures OnKeypads(Complexity(codes[..i]).1) && CodeLine(codes[i])
    ensures Complexity(codes[..i + 1]) == AddCode(Complexity(codes[..i]), codes[i])
  {
    var prefix := codes[..i + 1];
    assert prefix[..|prefix| - 1] == codes[..i];
  }

  // The inner loop: a code's keys, with the presses collected.
  method TypeCodeWith(robot1: Robot1, robot2: RobotM, robot3: RobotM, code: string) returns (path: seq<char>)
    requires Code(code) && OnKeypads(Arms(robot1.posn, robot2.posn, robot3.posn))
    requires robot2 != robot3
    modifies robot1, robot2, robot3
    ensures (path, Arms(robot1.posn, robot2.posn, robot3.posn)) ==
      TypeCode(old(Arms(robot1.posn, robot2.posn, robot3.posn)), code)
  {
    path := [];
    ghost var start := Arms(robot1.posn, robot2.posn, robot3.posn);
    for k := 0 to |code|
      invariant (path, Arms(robot1.posn, robot2.posn, robot3.posn)) == TypeCode(start, code[..k])
    {
      assert code[..k + 1][..k] == code[..k];
      var p3 := TypeKeyWith(robot1, robot2, robot3, code[k]);
      path := path + p3;
    }
    assert code[..|code|] == code;
  }

  method Solve(codes: seq<string>) returns (p1: nat, p2: nat)
    requires Codes(codes)
    ensures p1 == Complexity(codes).0 && p2 == p1
  {
    var robot1 := new Robot1();
    var robot2 := new RobotM();
    var robot3 := new RobotM();
    p1 := 0;
    for i := 0 to |codes|
      invariant Codes(codes[..i])
      invariant p1 == Complexity(codes[..i]).0
      invariant Arms(robot1.posn, robot2.posn, robot3.posn) == Complexity(codes[..i]).1
    {
      CodesPrefix(codes, i);
      CodesPrefix(codes, i + 1);
      ghost var before := Arms(robot1.posn, robot2.posn, robot3.posn);
      var path := TypeCodeWith(robot1, robot2, robot3, codes[i]);
      ComplexityStep(codes, i, p1, before, path, Arms(robot1.posn, robot2.posn, robot3.posn));
      TimesIsProduct(|path|, Numeric(codes[i]));
      p1 := p1 + |path| * Numeric(codes[i]);
    }
    assert codes[..|codes|] == codes;
    p2 := p1;
  }
}
