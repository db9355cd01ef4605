// src/vector.rs: a point or a displacement on the grid, with x growing to the
// right and y growing downwards.
module Vectors {
  datatype Vector = Vector(x: int, y: int)

  function Add(v: Vector, d: Vector): Vector { Vector(v.x + d.x, v.y + d.y) }

  function Sub(v: Vector, d: Vector): Vector { Vector(v.x - d.x, v.y - d.y) }

  function Neg(v: Vector): Vector { Vector(-v.x, -v.y) }

  function Double(v: Vector): Vector { Vector(v.x * 2, v.y * 2) }

  function Mul(v: Vector, n: int): Vector { Vector(v.x * n, v.y * n) }

  function ScaleBy(v: Vector, n: int): Vector { Vector(v.x * n, v.y * n) }

  // A quarter turn on screen coordinates: (x, y) becomes (y, -x).
  function Rotr(v: Vector): Vector { Vector(v.y, -v.x) }

  // The opposite quarter turn: (x, y) becomes (-y, x).
  function Rotl(v: Vector): Vector { Vector(-v.y, v.x) }

  // Manhattan distance between two points.
  function Distance(a: Vector, b: Vector): (r: nat)
    ensures r == 0 <==> a == b
  {
    (if a.x >= b.x then a.x - b.x else b.x - a.x) + (if a.y >= b.y then a.y - b.y else b.y - a.y)
  }

  lemma AddSubInverse(v: Vector, d: Vector)
    ensures Sub(Add(v, d), d) == v && Add(Sub(v, d), d) == v
  {
  }

  lemma RotationsInverse(v: Vector)
    ensures Rotl(Rotr(v)) == v && Rotr(Rotl(v)) == v
    ensures Rotr(Rotr(Rotr(Rotr(v)))) == v
    ensures Rotr(Rotr(v)) == Neg(v)
  {
  }

  lemma DoubleIsScale(v: Vector)
    ensures Double(v) == Mul(v, 2) == ScaleBy(v, 2) == Add(v, v)
  {
  }

  // Row-major cell index of a point with non-negative coordinates in a grid
  // `width` cells wide.
  function ToIndex(v: Vector, width: nat): (r: nat)
    requires v.x >= 0 && v.y >= 0
  {
    width * v.y + v.x
  }

  // Inside a width-by-height grid the index is a bijection onto [0, width*height).
  lemma ToIndexInGrid(v: Vector, u: Vector, width: nat, height: nat)
    requires 0 <= v.x < width && 0 <= v.y < height
    requires 0 <= u.x < width && 0 <= u.y < height
    ensures ToIndex(v, width) < width * height
    ensures ToIndex(v, width) == ToIndex(u, width) <==> v == u
  {
    assert width * v.y + v.x < width * (v.y + 1) <= width * height;
    if v.y < u.y {
      assert width * v.y + v.x < width * (v.y + 1) <= width * u.y;
    } else if u.y < v.y {
      assert width * u.y + u.x < width * (u.y + 1) <= width * v.y;
    }
  }

  // The derived ordering of `Vector`: by x, then by y.
  predicate Less(a: Vector, b: Vector)
  {
    a.x < b.x || (a.x == b.x && a.y < b.y)
  }

  predicate IsValid(v: Vector, w: int, h: int) {
    0 <= v.x < w && 0 <= v.y < h
  }
}
