// src/path.rs (and the identical `Move` enum of src/vector.rs): the four
// directions encoded as single bits 1, 2, 4, 8, with the point arithmetic of
// src/vector.rs that takes a direction.
module Moves {
  import opened Wrappers
  import opened Vectors

  datatype Move = Up | Right | Down | Left

  const ALLMOVES: seq<Move> := [Up, Right, Down, Left]

  // The `repr(u8)` discriminant.
  function U(m: Move): nat
  {
    match m
    case Up => 1
    case Right => 2
    case Down => 4
    case Left => 8
  }

  function Rotr(m: Move): Move
  {
    match m
    case Up => Right
    case Right => Down
    case Down => Left
    case Left => Up
  }

  function Rotl(m: Move): Move
  {
    match m
    case Up => Left
    case Left => Down
    case Down => Right
    case Right => Up
  }

  function Reverse(m: Move): Move
  {
    match m
    case Up => Down
    case Left => Right
    case Right => Left
    case Down => Up
  }

  function ToVector(m: Move): Vector
  {
    match m
    case Up => Vector(0, -1)
    case Right => Vector(1, 0)
    case Down => Vector(0, 1)
    case Left => Vector(-1, 0)
  }

  predicate IsCode(n: nat) { n == 1 || n == 2 || n == 4 || n == 8 }

  function FromU8(n: nat): (r: Option<Move>)
    requires n < 256
    ensures r.None? <==> !IsCode(n)
    ensures r.Some? ==> U(r.value) == n
  {
    if n == 1 then Some(Up)
    else if n == 2 then Some(Right)
    else if n == 4 then Some(Down)
    else if n == 8 then Some(Left)
    else None
  }

  // Panics on any value that is not a direction code.
  function FromU8Unchecked(n: nat): (r: Move)
    requires IsCode(n)
    ensures U(r) == n
  {
    if n == 1 then Up else if n == 2 then Right else if n == 4 then Down else Left
  }

  predicate IsArrow(c: char) { c == '^' || c == '>' || c == 'v' || c == '<' }

  // Panics on any character other than the four arrows.
  function FromCharUnchecked(c: char): (r: Move)
    requires IsArrow(c)
    ensures r == Up <==> c == '^'
    ensures r == Right <==> c == '>'
    ensures r == Down <==> c == 'v'
    ensures r == Left <==> c == '<'
  {
    match c
    case '^' => Up
    case '>' => Right
    case 'v' => Down
    case '<' => Left
  }

  lemma CodesRoundTrip(m: Move)
    ensures FromU8(U(m)) == Some(m)
    ensures FromU8Unchecked(U(m)) == m
  {
  }

  lemma RotationFacts(m: Move)
    ensures Rotl(Rotr(m)) == m && Rotr(Rotl(m)) == m
    ensures Rotr(Rotr(m)) == Reverse(m)
    ensures Reverse(Reverse(m)) == m
    ensures ToVector(Reverse(m)) == Neg(ToVector(m))
    ensures ToVector(Rotl(m)) == Vectors.Rotr(ToVector(m))
    ensures ToVector(Rotr(m)) == Vectors.Rotl(ToVector(m))
  {
  }

  // src/vector.rs:45-47 as written: the discriminant d (1, 2, 4 or 8) is
  // decoded as if it were 0 = Up, 1 = Right, 2 = Down, 3 = Left.
  function AddDirAsWritten(v: Vector, m: Move): Vector
  {
    var d := U(m);
    Vector(v.x + (if d == 1 then 1 else 0) - (if d == 3 then 1 else 0),
           v.y - (if d == 0 then 1 else 0) + (if d == 2 then 1 else 0))
  }

  // What the as-written decoding does to each direction: Up moves right,
  // Right moves down, Down and Left do not move at all.
  lemma AddDirAsWrittenDisplacement(v: Vector, m: Move)
    ensures AddDirAsWritten(v, m) == match m
      case Up => Vector(v.x + 1, v.y)
      case Right => Vector(v.x, v.y + 1)
      case Down => v
      case Left => v
    ensures AddDirAsWritten(Vector(0, 0), Up) == Vector(1, 0) != Add(Vector(0, 0), ToVector(Up))
  {
  }

  // The intended one-step move, as the commented-out match beside it spells
  // out (src/vector.rs:48-53); the rest of the model uses this one.
  function AddDir(v: Vector, m: Move): (r: Vector)
    ensures Distance(v, r) == 1
  {
    Add(v, ToVector(m))
  }

  lemma AddDirReverse(v: Vector, m: Move)
    ensures AddDir(AddDir(v, m), Reverse(m)) == v
    ensures AddDir(v, m) != v
  {
  }

  function AddDir2(v: Vector, m: Move): (r: Vector)
    ensures r == AddDir(AddDir(v, m), m)
    ensures Distance(v, r) == 2
  {
    match m
    case Up => Vector(v.x, v.y - 2)
    case Right => Vector(v.x + 2, v.y)
    case Down => Vector(v.x, v.y + 2)
    case Left => Vector(v.x - 2, v.y)
  }
}
