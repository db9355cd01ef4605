// src/grid.rs: a rectangular grid of bytes addressed by (x, y) points.
module Grids {
  import opened Wrappers

  newtype Byte = b: int | 0 <= b < 256

  datatype XY = XY(x: int, y: int)

  function Add(a: XY, b: XY): XY { XY(a.x + b.x, a.y + b.y) }

  function Sub(a: XY, b: XY): XY { XY(a.x - b.x, a.y - b.y) }

  function Neg(a: XY): XY { XY(-a.x, -a.y) }

  lemma XYArithmetic(a: XY, b: XY)
    ensures Sub(Add(a, b), b) == a && Add(Sub(a, b), b) == a
    ensures Neg(Neg(a)) == a && Add(a, Neg(a)) == XY(0, 0)
    ensures Sub(a, b) == Add(a, Neg(b))
  {
  }

  // Row-major order: by row, then by column.
  predicate RowMajorBefore(a: XY, b: XY)
  {
    a.y < b.y || (a.y == b.y && a.x < b.x)
  }

  predicate Rectangular(rows: seq<seq<Byte>>, w: int)
  {
    forall r :: 0 <= r < |rows| ==> |rows[r]| == w
  }

  class Grid {
    const w: int
    const h: int
    var data: seq<seq<Byte>>

    ghost predicate Valid()
      reads this
    {
      0 <= w && 0 <= h && |data| == h && Rectangular(data, w)
    }

    // A w by h grid of zero bytes.
    constructor (w: int, h: int)
      requires 0 <= w && 0 <= h
      ensures Valid() && this.w == w && this.h == h
      ensures forall y, x :: 0 <= y < h && 0 <= x < w ==> data[y][x] == 0
    {
      this.w := w;
      this.h := h;
      data := seq(h, _ => seq(w, _ => 0));
    }

    // `from_str`: one row per line, the width taken from the first line; the
    // rows are required to be equally long.
    constructor FromStr(rows: seq<seq<Byte>>)
      requires |rows| > 0 && Rectangular(rows, |rows[0]|)
      ensures Valid() && w == |rows[0]| && h == |rows| && data == rows
    {
      h := |rows|;
      w := |rows[0]|;
      data := rows;
    }

    predicate HasXY(p: XY)
      reads this
    {
      0 <= p.x < w && 0 <= p.y < h
    }

    // `XY::is_valid` against this grid.
    predicate IsValid(p: XY)
      reads this
    {
      p.x >= 0 && p.x < w && p.y >= 0 && p.y < h
    }

    function Get(p: XY): (r: Option<Byte>)
      reads this
      requires Valid()
      ensures r.None? <==> !HasXY(p)
      ensures r.Some? ==> r.value == data[p.y][p.x]
    {
      if IsValid(p) then Some(data[p.y][p.x]) else None
    }

    // Panics outside the grid.
    function GetUnchecked(p: XY): (r: Byte)
      reads this
      requires Valid() && HasXY(p)
      ensures Get(p) == Some(r)
    {
      data[p.y][p.x]
    }

    // Writes only inside the grid and says whether it did.
    method Put(p: XY, value: Byte) returns (ok: bool)
      requires Valid()
      modifies this
      ensures Valid() && ok == HasXY(p)
      ensures ok ==> Get(p) == Some(value)
      ensures forall q :: q != p ==> Get(q) == old(Get(q))
      ensures data == if ok then old(data)[p.y := old(data)[p.y][p.x := value]] else old(data)
    {
      if IsValid(p) {
        data := data[p.y := data[p.y][p.x := value]];
        ok := true;
      } else {
        ok := false;
      }
    }

    // The cells holding `value`, in row-major order.
    method Find(value: Byte) returns (results: seq<XY>)
      requires Valid()
      ensures forall i :: 0 <= i < |results| ==> HasXY(results[i]) && Get(results[i]) == Some(value)
      ensures forall p :: HasXY(p) && Get(p) == Some(value) ==> p in results
      ensures forall i, j :: 0 <= i < j < |results| ==> RowMajorBefore(results[i], results[j])
    {
      results := FindFn(b => b == value);
    }

    // The cells whose byte satisfies f, in row-major order.
    method FindFn(f: Byte -> bool) returns (results: seq<XY>)
      requires Valid()
      ensures forall i :: 0 <= i < |results| ==> HasXY(results[i]) && f(data[results[i].y][results[i].x])
      ensures forall p :: HasXY(p) && f(data[p.y][p.x]) ==> p in results
      ensures forall i, j :: 0 <= i < j < |results| ==> RowMajorBefore(results[i], results[j])
    {
      results := [];
      var y := 0;
      while y < h
        invariant 0 <= y <= h
        invariant forall i :: 0 <= i < |results| ==> HasXY(results[i]) && results[i].y < y && f(data[results[i].y][results[i].x])
        invariant forall p :: HasXY(p) && p.y < y && f(data[p.y][p.x]) ==> p in results
        invariant forall i, j :: 0 <= i < j < |results| ==> RowMajorBefore(results[i], results[j])
      {
        var x := 0;
        while x < w
          invariant 0 <= x <= w
          invariant forall i :: 0 <= i < |results| ==> HasXY(results[i]) && RowMajorBefore(results[i], XY(x, y)) && f(data[results[i].y][results[i].x])
          invariant forall p :: HasXY(p) && RowMajorBefore(p, XY(x, y)) && f(data[p.y][p.x]) ==> p in results
          invariant forall i, j :: 0 <= i < j < |results| ==> RowMajorBefore(results[i], results[j])
        {
          if f(data[y][x]) {
            results := results + [XY(x, y)];
          }
          x := x + 1;
        }
        y := y + 1;
      }
    }
  }
}
