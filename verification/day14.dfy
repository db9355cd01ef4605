// src/day14.rs: robots moving on a wrapping w by h floor. The input's
// numbers are the floor size followed by four numbers per robot (position
// and velocity); part one moves every robot 100 steps and multiplies the
// numbers of robots in the four quadrants, leaving out those on either
// middle line.
//
// The numbers arrive already extracted from the text, in order.
module Day14 {
  import opened Wrappers

  datatype Robot = Robot(p: (int, int), v: (int, int))

  const STEPS: int := 100

  // ---------------------------------------------------------------------
  // Integer division as the machine does it: quotients truncate toward
  // zero and remainders take the sign of the dividend.

  function Abs(n: int): nat { if n < 0 then -n else n }

  function Quot(a: int, b: int): int
    requires b != 0
  {
    if (a >= 0) == (b > 0) then Abs(a) / Abs(b) else -(Abs(a) / Abs(b))
  }

  function Rem(a: int, b: int): (r: int)
    requires b != 0
    ensures Abs(r) < Abs(b)
    ensures a >= 0 ==> r >= 0
    ensures a <= 0 ==> r <= 0
  {
    var m: int := Abs(a) % Abs(b);
    if a >= 0 then m else -m
  }

  // On non-negative operands the two remainders agree.
  lemma RemNonNegative(a: int, b: int)
    requires a >= 0 && b > 0
    ensures Rem(a, b) == a % b
  {
  }

  // ---------------------------------------------------------------------
  // Reading the robots

  // `if vx < 0 { vx = w + vx }`: a backward velocity is replaced by the
  // forward one it equals modulo the floor size.
  function Normalise(v: int, size: int): (r: int)
    ensures v < 0 ==> r == size + v
    ensures v >= 0 ==> r == v
    ensures 0 < size && -size <= v ==> 0 <= r && (r - v) % size == 0
  {
    if v < 0 then size + v else v
  }

  function RobotCount(caps: seq<int>): nat
    requires |caps| >= 2
  {
    (|caps| - 2) / 4
  }

  // Robot i from caps[2 + 4i .. 2 + 4i + 4].
  function RobotAt(caps: seq<int>, i: nat): Robot
    requires |caps| >= 2 && i < RobotCount(caps)
  {
    var k := 2 + 4 * i;
    Robot((caps[k], caps[k + 1]), (Normalise(caps[k + 2], caps[0]), Normalise(caps[k + 3], caps[1])))
  }

  method ReadRobots(caps: seq<int>) returns (w: int, h: int, robots: seq<Robot>)
    requires |caps| >= 2
    ensures w == caps[0] && h == caps[1]
    ensures |robots| == RobotCount(caps) && forall i :: 0 <= i < |robots| ==> robots[i] == RobotAt(caps, i)
  {
    w, h := caps[0], caps[1];
    var desc := caps[2..];
    robots := [];
    for i := 0 to |desc| / 4
      invariant |robots| == i && forall j :: 0 <= j < i ==> robots[j] == RobotAt(caps, j)
    {
      var px, py, vx, vy := desc[i * 4], desc[i * 4 + 1], desc[i * 4 + 2], desc[i * 4 + 3];
      if vx < 0 {
        vx := w + vx;
      }
      if vy < 0 {
        vy := h + vy;
      }
      robots := robots + [Robot((px, py), (vx, vy))];
    }
  }

  // ---------------------------------------------------------------------
  // Moving and counting

  // The position after 100 steps, wrapped by the remainder.
  function After(r: Robot, w: int, h: int): (int, int)
    requires w != 0 && h != 0
  {
    (Rem(r.p.0 + r.v.0 * STEPS, w), Rem(r.p.1 + r.v.1 * STEPS, h))
  }

  // The quadrant a position falls in, in the order top-left, top-right,
  // bottom-left, bottom-right; None on either middle line.
  function Quadrant(pos: (int, int), xm: int, ym: int): (q: Option<nat>)
    ensures q.None? <==> pos.0 == xm || pos.1 == ym
    ensures q.Some? ==>
      q.value < 4 && (q.value % 2 == 0 <==> pos.0 < xm) && (q.value / 2 == 0 <==> pos.1 < ym)
  {
    if pos.0 < xm && pos.1 < ym then Some(0)
    else if pos.0 > xm && pos.1 < ym then Some(1)
    else if pos.0 < xm && pos.1 > ym then Some(2)
    else if pos.0 > xm && pos.1 > ym then Some(3)
    else None
  }

  function QuadOf(r: Robot, w: int, h: int): Option<nat>
    requires w != 0 && h != 0
  {
    Quadrant(After(r, w, h), Quot(w, 2), Quot(h, 2))
  }

  // The robots ending in quadrant q.
  function InQuad(robots: seq<Robot>, w: int, h: int, q: nat): nat
    requires w != 0 && h != 0
    decreases |robots|
  {
    if robots == [] then 0
    else
      var n := |robots| - 1;
      InQuad(robots[..n], w, h, q) + if QuadOf(robots[n], w, h) == Some(q) then 1 else 0
  }

  // The robots ending on a middle line.
  function OnMidline(robots: seq<Robot>, w: int, h: int): nat
    requires w != 0 && h != 0
    decreases |robots|
  {
    if robots == [] then 0
    else
      var n := |robots| - 1;
      OnMidline(robots[..n], w, h) + if QuadOf(robots[n], w, h).None? then 1 else 0
  }

  // Every robot is counted in exactly one quadrant or on a middle line.
  lemma {:induction false} EveryRobotOnce(robots: seq<Robot>, w: int, h: int)
    requires w != 0 && h != 0
    ensures InQuad(robots, w, h, 0) + InQuad(robots, w, h, 1) + InQuad(robots, w, h, 2) + InQuad(robots, w, h, 3) +
      OnMidline(robots, w, h) == |robots|
    decreases |robots|
  {
    if robots != [] {
      EveryRobotOnce(robots[..|robots| - 1], w, h);
    }
  }

  lemma InQuadSnoc(robots: seq<Robot>, i: nat, w: int, h: int)
    requires w != 0 && h != 0 && i < |robots|
    ensures forall q: nat ::
      InQuad(robots[..i + 1], w, h, q) == InQuad(robots[..i], w, h, q) + if QuadOf(robots[i], w, h) == Some(q) then 1 else 0
  {
    assert robots[..i + 1][..i] == robots[..i];
  }

  // The four quadrant counts, kept in an array as `day14` does.
  function Product(a: nat, b: nat, c: nat, d: nat): nat { a * b * c * d }

  method CountQuads(robots: seq<Robot>, w: int, h: int) returns (product: nat)
    requires w != 0 && h != 0
    ensures product == Product(InQuad(robots, w, h, 0), InQuad(robots, w, h, 1), InQuad(robots, w, h, 2), InQuad(robots, w, h, 3))
  {
    var quads := new nat[4](_ => 0);
    var xm, ym := Quot(w, 2), Quot(h, 2);
    for i := 0 to |robots|
      invariant forall q :: 0 <= q < 4 ==> quads[q] == InQuad(robots[..i], w, h, q)
    {
      var r := robots[i];
      var px := Rem(r.p.0 + r.v.0 * STEPS, w);
      var py := Rem(r.p.1 + r.v.1 * STEPS, h);
      InQuadSnoc(robots, i, w, h);
      assert QuadOf(r, w, h) == Quadrant((px, py), xm, ym);
      if px < xm && py < ym {
        quads[0] := quads[0] + 1;
      } else if px > xm && py < ym {
        quads[1] := quads[1] + 1;
      } else if px < xm && py > ym {
        quads[2] := quads[2] + 1;
      } else if px > xm && py > ym {
        quads[3] := quads[3] + 1;
      }
    }
    assert robots[..|robots|] == robots;
    product := Product(quads[0], quads[1], quads[2], quads[3]);
  }

  // ---------------------------------------------------------------------
  // Positions

  lemma ModShift(a: int, k: int, size: int)
    requires size > 0
    ensures (a + k * size) % size == a % size
  {
    var q := a / size;
    var r := a % size;
    assert a + k * size == (q + k) * size + r;
    ModUnique(a + k * size, q + k, r, size);
  }

  lemma ModUnique(x: int, q: int, r: int, size: int)
    requires size > 0 && 0 <= r < size && x == q * size + r
    ensures x % size == r
  {
    var d := x / size - q;
    assert d * size == r - x % size by {
      assert x == (x / size) * size + x % size;
      Distribute(x / size, q, size);
    }
    MulBound(d, size);
  }

  lemma Distribute(a: int, b: int, c: int)
    ensures (a - b) * c == a * c - b * c
  {
  }

  lemma MulBound(d: int, size: int)
    requires size > 0
    ensures d >= 1 ==> d * size >= size
    ensures d <= -1 ==> d * size <= -size
  {
  }

  // With a non-negative start and a velocity of at most one floor size
  // backwards, the robot ends where p + 100v lands modulo the floor size,
  // inside the floor.
  lemma AfterIsWrapped(p: int, v: int, size: int)
    requires size > 0 && p >= 0 && -size <= v < size
    ensures var r := Rem(p + Normalise(v, size) * STEPS, size);
      0 <= r < size && r == (p + v * STEPS) % size
  {
    var n := Normalise(v, size);
    var a := p + n * STEPS;
    assert a >= 0;
    RemNonNegative(a, size);
    if v < 0 {
      assert a == (p + v * STEPS) + STEPS * size;
      ModShift(p + v * STEPS, STEPS, size);
    }
  }

  // ---------------------------------------------------------------------
  // `day14`

  method Solve(caps: seq<int>) returns (result: nat)
    requires |caps| >= 2 && (RobotCount(caps) > 0 ==> caps[0] != 0 && caps[1] != 0)
    ensures RobotCount(caps) == 0 ==> result == 0
    ensures RobotCount(caps) > 0 ==>
      var robots := seq(RobotCount(caps), i requires 0 <= i < RobotCount(caps) => RobotAt(caps, i));
      result == Product(InQuad(robots, caps[0], caps[1], 0), InQuad(robots, caps[0], caps[1], 1),
                        InQuad(robots, caps[0], caps[1], 2), InQuad(robots, caps[0], caps[1], 3))
  {
    var w, h, robots := ReadRobots(caps);
    if |robots| == 0 {
      return 0;
    }
    assert robots == seq(RobotCount(caps), i requires 0 <= i < RobotCount(caps) => RobotAt(caps, i));
    result := CountQuads(robots, w, h);
  }
}
