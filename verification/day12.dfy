// src/day12.rs: a garden of crops A-Z. Each region of one crop is found by
// a flood fill that counts its area and its perimeter and records, in a
// second grid, which sides of each cell carry a fence; the fences' corners
// give the region's number of sides. The prices are area × perimeter and
// area × corners.
module Day12 {
  import opened Wrappers
  import opened Grids

  // The side bits `DIR_U`, `DIR_R`, `DIR_D`, `DIR_L` of the moves in
  // `ALLMOVES` order, and the unit step of each.
  const DIRS: seq<Byte> := [1, 2, 4, 8]
  const STEPS: seq<XY> := [XY(0, -1), XY(1, 0), XY(0, 1), XY(-1, 0)]
  const SIDES: nat := 4

  function Or(a: Byte, b: Byte): Byte
  {
    ((a as bv8) | (b as bv8)) as Byte
  }

  predicate Has(a: Byte, bit: Byte)
  {
    (a as bv8) & (bit as bv8) != 0
  }

  function Neighbour(xy: XY, d: nat): XY
    requires d < SIDES
  {
    Add(xy, STEPS[d])
  }

  function Abs(n: int): nat { if n < 0 then -n else n }

  predicate Adjacent(a: XY, b: XY)
  {
    Abs(a.x - b.x) + Abs(a.y - b.y) == 1
  }

  predicate CropCell(grid: Grid, crop: Byte, p: XY)
    reads grid
    requires grid.Valid()
  {
    grid.HasXY(p) && grid.data[p.y][p.x] == crop
  }

  // Side d of xy is fenced when the cell beyond is off the grid or holds
  // another crop.
  predicate Fence(grid: Grid, crop: Byte, xy: XY, d: nat)
    reads grid
    requires grid.Valid() && d < SIDES
  {
    !CropCell(grid, crop, Neighbour(xy, d))
  }

  // The number of fences on the first k sides of xy ...
  function FenceCount(grid: Grid, crop: Byte, xy: XY, k: nat): (r: nat)
    reads grid
    requires grid.Valid() && k <= SIDES
    ensures r <= k
  {
    if k == 0 then 0 else FenceCount(grid, crop, xy, k - 1) + if Fence(grid, crop, xy, k - 1) then 1 else 0
  }

  // ... and the side bits they leave in a cell that held `start`.
  function FenceBits(grid: Grid, crop: Byte, xy: XY, k: nat, start: Byte): Byte
    reads grid
    requires grid.Valid() && k <= SIDES
  {
    if k == 0 then start
    else
      var b := FenceBits(grid, crop, xy, k - 1, start);
      if Fence(grid, crop, xy, k - 1) then Or(DIRS[k - 1], b) else b
  }

  // The fences round a list of cells.
  function Fences(grid: Grid, crop: Byte, cells: seq<XY>): nat
    reads grid
    requires grid.Valid()
    decreases |cells|
  {
    if cells == [] then 0 else Fences(grid, crop, cells[..|cells| - 1]) + FenceCount(grid, crop, cells[|cells| - 1], SIDES)
  }

  // Starting from an empty cell, a side's bit is set exactly when that
  // side is fenced, and nothing else is.
  lemma FenceBitsExact(grid: Grid, crop: Byte, xy: XY)
    requires grid.Valid()
    ensures forall d :: 0 <= d < SIDES ==> (Has(FenceBits(grid, crop, xy, SIDES, 0), DIRS[d]) <==> Fence(grid, crop, xy, d))
    ensures FenceBits(grid, crop, xy, SIDES, 0) < 16
  {
    FenceBitsSum(grid, crop, xy, 4);
    var f0, f1, f2, f3 := Fence(grid, crop, xy, 0), Fence(grid, crop, xy, 1), Fence(grid, crop, xy, 2), Fence(grid, crop, xy, 3);
    var b := FenceBits(grid, crop, xy, SIDES, 0);
    assert b as int == FenceSum(grid, crop, xy, 4);
    assert FenceSum(grid, crop, xy, 1) == (if f0 then 1 else 0);
    assert FenceSum(grid, crop, xy, 2) == FenceSum(grid, crop, xy, 1) + (if f1 then 2 else 0);
    assert FenceSum(grid, crop, xy, 3) == FenceSum(grid, crop, xy, 2) + (if f2 then 4 else 0);
    assert FenceSum(grid, crop, xy, 4) == FenceSum(grid, crop, xy, 3) + (if f3 then 8 else 0);
    SumBits(f0, f1, f2, f3);
    assert Has(b, DIRS[0]) == f0 && Has(b, DIRS[1]) == f1 && Has(b, DIRS[2]) == f2 && Has(b, DIRS[3]) == f3;
  }

  // The fenced sides among the first k, as the sum of their bits.
  function FenceSum(grid: Grid, crop: Byte, xy: XY, k: nat): nat
    reads grid
    requires grid.Valid() && k <= SIDES
  {
    if k == 0 then 0 else FenceSum(grid, crop, xy, k - 1) + if Fence(grid, crop, xy, k - 1) then DIRS[k - 1] as nat else 0
  }

  lemma {:induction false} FenceBitsSum(grid: Grid, crop: Byte, xy: XY, k: nat)
    requires grid.Valid() && k <= SIDES
    ensures FenceSum(grid, crop, xy, k) < [1, 2, 4, 8, 16][k]
    ensures FenceBits(grid, crop, xy, k, 0) as int == FenceSum(grid, crop, xy, k)
  {
    if k > 0 {
      FenceBitsSum(grid, crop, xy, k - 1);
      if Fence(grid, crop, xy, k - 1) {
        OrBelow(k - 1, FenceBits(grid, crop, xy, k - 1, 0));
      }
    }
  }

  // Adding a side bit above the bits already set.
  lemma OrBelow(k: nat, b: Byte)
    requires k < SIDES && b < DIRS[k]
    ensures Or(DIRS[k], b) == DIRS[k] + b
  {
    if k == 0 {
      assert b == 0;
    } else if k == 1 {
      assert b == 0 || b == 1;
    } else if k == 2 {
      assert b == 0 || b == 1 || b == 2 || b == 3;
    } else {
      assert 0 <= b < 8;
      assert b == 0 || b == 1 || b == 2 || b == 3 || b == 4 || b == 5 || b == 6 || b == 7;
    }
  }

  lemma SumBits(f0: bool, f1: bool, f2: bool, f3: bool)
    ensures var s := (if f0 then 1 else 0) + (if f1 then 2 else 0) + (if f2 then 4 else 0) + (if f3 then 8 else 0);
      s < 16 && (Has(s as Byte, 1) <==> f0) && (Has(s as Byte, 2) <==> f1) && (Has(s as Byte, 4) <==> f2) && (Has(s as Byte, 8) <==> f3)
  {
    if f0 { if f1 { if f2 { if f3 { } else { } } else { if f3 { } else { } } } else { if f2 { if f3 { } else { } } else { if f3 { } else { } } } }
    else { if f1 { if f2 { if f3 { } else { } } else { if f3 { } else { } } } else { if f2 { if f3 { } else { } } else { if f3 { } else { } } } }
  }

  lemma {:induction false} FencesAppend(grid: Grid, crop: Byte, a: seq<XY>, b: seq<XY>)
    requires grid.Valid()
    ensures Fences(grid, crop, a + b) == Fences(grid, crop, a) + Fences(grid, crop, b)
    decreases |b|
  {
    if b == [] {
      assert a + b == a;
    } else {
      assert (a + b)[..|a + b| - 1] == a + b[..|b| - 1];
      FencesAppend(grid, crop, a, b[..|b| - 1]);
    }
  }

  // ---------------------------------------------------------------------
  // What a flood fill leaves behind

  // v extends v0 by crop cells, each new one appearing once.
  ghost predicate Grown(grid: Grid, crop: Byte, v0: seq<XY>, v: seq<XY>)
    reads grid
    requires grid.Valid()
  {
    |v0| <= |v| && v[..|v0|] == v0 &&
    forall i :: |v0| <= i < |v| ==> CropCell(grid, crop, v[i]) && v[i] !in v[..i]
  }

  // Every neighbour of c holding the same crop has been visited.
  ghost predicate Closed(grid: Grid, crop: Byte, c: XY, v: seq<XY>)
    reads grid
    requires grid.Valid()
  {
    forall d :: 0 <= d < SIDES && !Fence(grid, crop, c, d) ==> Neighbour(c, d) in v
  }

  ghost predicate AllClosed(grid: Grid, crop: Byte, cells: seq<XY>, v: seq<XY>)
    reads grid
    requires grid.Valid()
  {
    forall c :: c in cells ==> Closed(grid, crop, c, v)
  }

  // Each cell from index lo on touches xy or a cell visited before it, so
  // the cells reached are connected to xy.
  ghost predicate Linked(v: seq<XY>, lo: nat, xy: XY)
    requires lo <= |v|
  {
    forall i :: lo <= i < |v| ==> Adjacent(xy, v[i]) || exists j :: lo <= j < i && Adjacent(v[j], v[i])
  }

  // The cells of a side grid other than xy hold their old bits, with the
  // fences added on the cells of `cells`.
  ghost predicate MarkedBut(grid: Grid, crop: Byte, data0: seq<seq<Byte>>, data: seq<seq<Byte>>, cells: seq<XY>, xy: XY)
    reads grid
    requires grid.Valid() && Rectangular(data0, grid.w) && Rectangular(data, grid.w) && |data0| == |data| == grid.h
  {
    forall p {:trigger data[p.y][p.x]} :: grid.HasXY(p) && p != xy ==>
      data[p.y][p.x] == if p in cells then FenceBits(grid, crop, p, SIDES, data0[p.y][p.x]) else data0[p.y][p.x]
  }

  // The state of `check_surrounds(xy)` once the first d sides are done.
  ghost predicate Progress(grid: Grid, crop: Byte, xy: XY, v0: seq<XY>, data0: seq<seq<Byte>>, d: nat,
                           v: seq<XY>, area: nat, perimeter: nat, data: seq<seq<Byte>>)
    reads grid
    requires grid.Valid() && grid.HasXY(xy) && d <= SIDES
    requires Rectangular(data0, grid.w) && Rectangular(data, grid.w) && |data0| == |data| == grid.h
  {
    Grown(grid, crop, v0, v) &&
    area == |v| - |v0| &&
    perimeter == FenceCount(grid, crop, xy, d) + Fences(grid, crop, v[|v0|..]) &&
    data[xy.y][xy.x] == FenceBits(grid, crop, xy, d, data0[xy.y][xy.x]) &&
    MarkedBut(grid, crop, data0, data, v[|v0|..], xy) &&
    (forall e :: 0 <= e < d && !Fence(grid, crop, xy, e) ==> Neighbour(xy, e) in v) &&
    AllClosed(grid, crop, v[|v0|..], v) &&
    Linked(v, |v0|, xy)
  }

  function Cells(grid: Grid): set<XY>
    reads grid
  {
    set x, y | 0 <= x < grid.w && 0 <= y < grid.h :: XY(x, y)
  }

  function Elems(v: seq<XY>): set<XY>
  {
    set p | p in v
  }

  // ---------------------------------------------------------------------
  // `check_surrounds`

  // The flood fill from xy, which the caller has already visited: every
  // side of xy is fenced or leads to a cell visited here or before.
  method CheckSurrounds(grid: Grid, visited0: seq<XY>, crop: Byte, xy: XY, fenced: Grid)
    returns (visited: seq<XY>, area: nat, perimeter: nat)
    requires grid.Valid() && fenced.Valid() && grid != fenced && fenced.w == grid.w && fenced.h == grid.h
    requires grid.HasXY(xy) && xy in visited0
    modifies fenced
    decreases Cells(grid) - Elems(visited0), 1
    ensures fenced.Valid()
    ensures Grown(grid, crop, visited0, visited) && area == |visited| - |visited0|
    ensures perimeter == Fences(grid, crop, [xy] + visited[|visited0|..])
    ensures fenced.data[xy.y][xy.x] == FenceBits(grid, crop, xy, SIDES, old(fenced.data)[xy.y][xy.x])
    ensures MarkedBut(grid, crop, old(fenced.data), fenced.data, visited[|visited0|..], xy)
    ensures AllClosed(grid, crop, [xy] + visited[|visited0|..], visited)
    ensures Linked(visited, |visited0|, xy)
  {
    visited, area, perimeter := visited0, 0, 0;
    ghost var data0 := fenced.data;
    assert Progress(grid, crop, xy, visited0, data0, 0, visited, area, perimeter, fenced.data) by {
      assert visited[|visited0|..] == [];
    }
    for d := 0 to SIDES
      invariant fenced.Valid()
      invariant Progress(grid, crop, xy, visited0, data0, d, visited, area, perimeter, fenced.data)
    {
      visited, area, perimeter := VisitSide(grid, crop, xy, visited0, data0, d, fenced, visited, area, perimeter);
    }
    assert perimeter == Fences(grid, crop, [xy] + visited[|visited0|..]) by {
      FencesAppend(grid, crop, [xy], visited[|visited0|..]);
      assert [xy][..0] == [];
    }
    assert AllClosed(grid, crop, [xy] + visited[|visited0|..], visited) by {
      assert Closed(grid, crop, xy, visited);
    }
  }

  // One side d of xy: a fence, a cell already visited, or a new cell of
  // the region to visit and fill from.
  method VisitSide(grid: Grid, crop: Byte, xy: XY, ghost v0: seq<XY>, ghost data0: seq<seq<Byte>>, d: nat,
                   fenced: Grid, visited1: seq<XY>, area1: nat, perimeter1: nat)
    returns (visited: seq<XY>, area: nat, perimeter: nat)
    requires grid.Valid() && fenced.Valid() && grid != fenced && fenced.w == grid.w && fenced.h == grid.h
    requires grid.HasXY(xy) && xy in v0 && d < SIDES && Rectangular(data0, grid.w) && |data0| == grid.h
    requires Progress(grid, crop, xy, v0, data0, d, visited1, area1, perimeter1, fenced.data)
    modifies fenced
    decreases Cells(grid) - Elems(visited1), 0
    ensures fenced.Valid()
    ensures Progress(grid, crop, xy, v0, data0, d + 1, visited, area, perimeter, fenced.data)
  {
    visited, area, perimeter := visited1, area1, perimeter1;
    var n := Add(xy, STEPS[d]);
    if !grid.HasXY(n) || crop != grid.GetUnchecked(n) {
      perimeter := perimeter + 1;
      var fs := fenced.GetUnchecked(xy);
      ghost var data1 := fenced.data;
      var _ := fenced.Put(xy, Or(DIRS[d], fs));
      assert fenced.data[xy.y][xy.x] == Or(DIRS[d], data1[xy.y][xy.x]) by {
        assert fenced.Get(xy) == Some(Or(DIRS[d], fs));
      }
      forall q | grid.HasXY(q) && q != xy
        ensures fenced.data[q.y][q.x] == data1[q.y][q.x]
      {
        assert fenced.Get(q) == old(fenced.Get(q));
      }
      FenceStep(grid, crop, xy, v0, data0, d, visited, area1, perimeter1, data1, fenced.data);
      return;
    }
    if n in visited {
      SeenStep(grid, crop, xy, v0, data0, d, visited, area, perimeter, fenced.data);
      return;
    }
    ghost var data1 := fenced.data;
    visited := visited + [n];
    area := area + 1;
    assert Cells(grid) - Elems(visited) < Cells(grid) - Elems(visited1) by {
      assert n in Cells(grid) && n !in Elems(visited1);
      assert Elems(visited) == Elems(visited1) + {n};
    }
    var v, a, p := CheckSurrounds(grid, visited, crop, n, fenced);
    FillStep(grid, crop, xy, v0, data0, d, visited1, area1, perimeter1, data1, v, a, p, fenced.data);
    visited, area, perimeter := v, area + a, perimeter + p;
  }

  // Side d is fenced: one more unit of perimeter and its bit in xy's cell.
  lemma FenceStep(grid: Grid, crop: Byte, xy: XY, v0: seq<XY>, data0: seq<seq<Byte>>, d: nat,
                  v: seq<XY>, area: nat, perimeter: nat, data1: seq<seq<Byte>>, data: seq<seq<Byte>>)
    requires grid.Valid() && grid.HasXY(xy) && d < SIDES && Fence(grid, crop, xy, d)
    requires Rectangular(data0, grid.w) && Rectangular(data1, grid.w) && Rectangular(data, grid.w)
    requires |data0| == |data1| == |data| == grid.h
    requires Progress(grid, crop, xy, v0, data0, d, v, area, perimeter, data1)
    requires data[xy.y][xy.x] == Or(DIRS[d], data1[xy.y][xy.x])
    requires forall q :: grid.HasXY(q) && q != xy ==> data[q.y][q.x] == data1[q.y][q.x]
    ensures Progress(grid, crop, xy, v0, data0, d + 1, v, area, perimeter + 1, data)
  {
  }

  // Side d leads to a cell already visited: nothing changes.
  lemma SeenStep(grid: Grid, crop: Byte, xy: XY, v0: seq<XY>, data0: seq<seq<Byte>>, d: nat,
                 v: seq<XY>, area: nat, perimeter: nat, data: seq<seq<Byte>>)
    requires grid.Valid() && grid.HasXY(xy) && d < SIDES && !Fence(grid, crop, xy, d) && Neighbour(xy, d) in v
    requires Rectangular(data0, grid.w) && Rectangular(data, grid.w) && |data0| == |data| == grid.h
    requires Progress(grid, crop, xy, v0, data0, d, v, area, perimeter, data)
    ensures Progress(grid, crop, xy, v0, data0, d + 1, v, area, perimeter, data)
  {
  }

  // Side d leads to a new cell n of the region: the fill from n adds its
  // cells, fences and bits after those found so far.
  lemma FillStep(grid: Grid, crop: Byte, xy: XY, v0: seq<XY>, data0: seq<seq<Byte>>, d: nat,
                 v1: seq<XY>, area1: nat, perimeter1: nat, data1: seq<seq<Byte>>,
                 v: seq<XY>, a: nat, p: nat, data: seq<seq<Byte>>)
    requires grid.Valid() && grid.HasXY(xy) && xy in v0 && d < SIDES && !Fence(grid, crop, xy, d) && Neighbour(xy, d) !in v1
    requires Rectangular(data0, grid.w) && Rectangular(data1, grid.w) && Rectangular(data, grid.w)
    requires |data0| == |data1| == |data| == grid.h
    requires Progress(grid, crop, xy, v0, data0, d, v1, area1, perimeter1, data1)
    requires var n, w := Neighbour(xy, d), v1 + [Neighbour(xy, d)];
      Grown(grid, crop, w, v) && a == |v| - |w| &&
      p == Fences(grid, crop, [n] + v[|w|..]) &&
      data[n.y][n.x] == FenceBits(grid, crop, n, SIDES, data1[n.y][n.x]) &&
      MarkedBut(grid, crop, data1, data, v[|w|..], n) &&
      AllClosed(grid, crop, [n] + v[|w|..], v) &&
      Linked(v, |w|, n)
    ensures Progress(grid, crop, xy, v0, data0, d + 1, v, area1 + 1 + a, perimeter1 + p, data)
  {
    var n, w := Neighbour(xy, d), v1 + [Neighbour(xy, d)];
    var nv1, mid := v1[|v0|..], v[|w|..];
    assert Grown(grid, crop, v0, w) by {
      GrownPush(grid, crop, v0, v1, n);
    }
    GrownTrans(grid, crop, v0, w, v);
    SplitNew(v0, v1, n, v);
    assert xy in w && xy != n && xy !in mid by {
      GrownFresh(grid, crop, w, v, xy);
    }
    assert MarkedBut(grid, crop, data0, data, v[|v0|..], xy) by {
      FillMarked(grid, crop, xy, v0, data0, v1, data1, n, v, data);
    }
    assert v[..|v1|] == v1 by {
      PrefixOfPrefix(w, v, |v1|);
    }
    assert AllClosed(grid, crop, v[|v0|..], v) by {
      ClosedJoin(grid, crop, nv1, [n] + mid, v1, v);
    }
    SidesStep(grid, crop, xy, d, v1, v);
    assert Linked(v, |v0|, xy) by {
      NeighbourAdjacent(xy, d);
      FillLinked(v0, v1, n, v, xy);
    }
    FillPerimeter(grid, crop, xy, d, nv1, n, mid, v[|v0|..], perimeter1, p);
    assert data[xy.y][xy.x] == data1[xy.y][xy.x];
    FillBits(grid, crop, xy, d, data0[xy.y][xy.x], data1[xy.y][xy.x]);
  }

  lemma FillPerimeter(grid: Grid, crop: Byte, xy: XY, d: nat, nv1: seq<XY>, n: XY, mid: seq<XY>, s: seq<XY>, perimeter1: nat, p: nat)
    requires grid.Valid() && d < SIDES && !Fence(grid, crop, xy, d) && s == nv1 + ([n] + mid)
    requires perimeter1 == FenceCount(grid, crop, xy, d) + Fences(grid, crop, nv1)
    requires p == Fences(grid, crop, [n] + mid)
    ensures perimeter1 + p == FenceCount(grid, crop, xy, d + 1) + Fences(grid, crop, s)
  {
    FencesAppend(grid, crop, nv1, [n] + mid);
  }

  lemma FillBits(grid: Grid, crop: Byte, xy: XY, d: nat, b0: Byte, b1: Byte)
    requires grid.Valid() && d < SIDES && !Fence(grid, crop, xy, d)
    ensures b1 == FenceBits(grid, crop, xy, d, b0) ==> b1 == FenceBits(grid, crop, xy, d + 1, b0)
  {
  }

  lemma PrefixOfPrefix(w: seq<XY>, v: seq<XY>, k: nat)
    requires k <= |w| <= |v| && v[..|w|] == w
    ensures v[..k] == w[..k]
  {
    assert v[..k] == v[..|w|][..k];
  }

  lemma GrownPush(grid: Grid, crop: Byte, v0: seq<XY>, v1: seq<XY>, n: XY)
    requires grid.Valid() && Grown(grid, crop, v0, v1) && CropCell(grid, crop, n) && n !in v1
    ensures Grown(grid, crop, v0, v1 + [n])
  {
    var w := v1 + [n];
    assert w[..|v1|] == v1;
    forall i | |v0| <= i < |w|
      ensures CropCell(grid, crop, w[i]) && w[i] !in w[..i]
    {
      if i < |v1| {
        assert w[..i] == v1[..i];
      }
    }
  }

  lemma GrownTrans(grid: Grid, crop: Byte, v0: seq<XY>, v1: seq<XY>, v: seq<XY>)
    requires grid.Valid() && Grown(grid, crop, v0, v1) && Grown(grid, crop, v1, v)
    ensures Grown(grid, crop, v0, v)
  {
    assert v[..|v0|] == v[..|v1|][..|v0|];
    forall i | |v0| <= i < |v1|
      ensures CropCell(grid, crop, v[i]) && v[i] !in v[..i]
    {
      assert v[i] == v1[i] && v[..i] == v1[..i];
    }
  }

  // A cell of v before the new part is none of the new cells.
  lemma GrownFresh(grid: Grid, crop: Byte, v1: seq<XY>, v: seq<XY>, c: XY)
    requires grid.Valid() && Grown(grid, crop, v1, v) && c in v1
    ensures c !in v[|v1|..]
  {
    if c in v[|v1|..] {
      GrownNew(grid, crop, v1, v, c);
    }
  }

  // A new cell of v is none of the cells before it.
  lemma GrownNew(grid: Grid, crop: Byte, v1: seq<XY>, v: seq<XY>, c: XY)
    requires grid.Valid() && Grown(grid, crop, v1, v) && c in v[|v1|..]
    ensures c !in v1
  {
    var i :| 0 <= i < |v[|v1|..]| && v[|v1|..][i] == c;
    var k := |v1| + i;
    assert v[k] == c;
    assert v[..k][..|v1|] == v1;
  }

  lemma InSuffix(v: seq<XY>, lo: nat, c: XY)
    requires lo <= |v|
    ensures c in v[lo..] ==> c in v
  {
    if c in v[lo..] {
      var i :| 0 <= i < |v[lo..]| && v[lo..][i] == c;
      assert v[lo + i] == c;
    }
  }

  lemma SplitNew(v0: seq<XY>, v1: seq<XY>, n: XY, v: seq<XY>)
    requires |v0| <= |v1| && |v1| + 1 <= |v| && v[..|v1| + 1] == v1 + [n]
    ensures v[|v0|..] == v1[|v0|..] + ([n] + v[|v1| + 1..])
  {
    assert v[|v0|..] == v[|v0|..|v1| + 1] + v[|v1| + 1..];
    assert v[|v0|..|v1| + 1] == (v1 + [n])[|v0|..];
  }

  // Side d of xy, not fenced, leads to the cell just visited.
  lemma SidesStep(grid: Grid, crop: Byte, xy: XY, d: nat, v1: seq<XY>, v: seq<XY>)
    requires grid.Valid() && d < SIDES && |v1| < |v| && v[..|v1|] == v1 && v[|v1|] == Neighbour(xy, d)
    requires forall e :: 0 <= e < d && !Fence(grid, crop, xy, e) ==> Neighbour(xy, e) in v1
    ensures forall e :: 0 <= e < d + 1 && !Fence(grid, crop, xy, e) ==> Neighbour(xy, e) in v
  {
    forall e | 0 <= e < d && !Fence(grid, crop, xy, e)
      ensures Neighbour(xy, e) in v
    {
      var k :| 0 <= k < |v1| && v1[k] == Neighbour(xy, e);
      assert v[k] == v1[k];
    }
  }

  lemma ClosedGrows(grid: Grid, crop: Byte, c: XY, v1: seq<XY>, v: seq<XY>)
    requires grid.Valid() && Closed(grid, crop, c, v1) && |v1| <= |v| && v[..|v1|] == v1
    ensures Closed(grid, crop, c, v)
  {
    forall d | 0 <= d < SIDES && !Fence(grid, crop, c, d)
      ensures Neighbour(c, d) in v
    {
      var k :| 0 <= k < |v1| && v1[k] == Neighbour(c, d);
      assert v[k] == v1[k];
    }
  }

  lemma ClosedJoin(grid: Grid, crop: Byte, a: seq<XY>, b: seq<XY>, v1: seq<XY>, v: seq<XY>)
    requires grid.Valid() && AllClosed(grid, crop, a, v1) && AllClosed(grid, crop, b, v)
    requires |v1| <= |v| && v[..|v1|] == v1
    ensures AllClosed(grid, crop, a + b, v)
  {
    forall c | c in a
      ensures Closed(grid, crop, c, v)
    {
      ClosedGrows(grid, crop, c, v1, v);
    }
  }

  lemma NeighbourAdjacent(xy: XY, d: nat)
    requires d < SIDES
    ensures Adjacent(xy, Neighbour(xy, d))
  {
  }

  // The bits of the side grid after the fill from n: the cells filled
  // before n, n and the cells filled from it each carry their fences.
  lemma FillMarked(grid: Grid, crop: Byte, xy: XY, v0: seq<XY>, data0: seq<seq<Byte>>, v1: seq<XY>, data1: seq<seq<Byte>>,
                   n: XY, v: seq<XY>, data: seq<seq<Byte>>)
    requires grid.Valid() && Rectangular(data0, grid.w) && Rectangular(data1, grid.w) && Rectangular(data, grid.w)
    requires |data0| == |data1| == |data| == grid.h
    requires |v0| <= |v1| && xy != n && n !in v1 && grid.HasXY(n)
    requires MarkedBut(grid, crop, data0, data1, v1[|v0|..], xy)
    requires Grown(grid, crop, v1 + [n], v)
    requires data[n.y][n.x] == FenceBits(grid, crop, n, SIDES, data1[n.y][n.x])
    requires MarkedBut(grid, crop, data1, data, v[|v1| + 1..], n)
    requires v[|v0|..] == v1[|v0|..] + ([n] + v[|v1| + 1..])
    ensures MarkedBut(grid, crop, data0, data, v[|v0|..], xy)
  {
    var w, nv1, mid := v1 + [n], v1[|v0|..], v[|v1| + 1..];
    forall p | grid.HasXY(p) && p != xy
      ensures data[p.y][p.x] == if p in v[|v0|..] then FenceBits(grid, crop, p, SIDES, data0[p.y][p.x]) else data0[p.y][p.x]
    {
      if p == n {
        assert n !in nv1;
        assert data1[n.y][n.x] == data0[n.y][n.x];
      } else if p in mid {
        GrownNew(grid, crop, w, v, p);
        InSuffix(v1, |v0|, p);
        assert p !in nv1;
      }
    }
  }

  lemma FillLinked(v0: seq<XY>, v1: seq<XY>, n: XY, v: seq<XY>, xy: XY)
    requires |v0| <= |v1| < |v| && v[..|v1|] == v1 && v[|v1|] == n && Adjacent(xy, n)
    requires Linked(v1, |v0|, xy) && Linked(v, |v1| + 1, n)
    ensures Linked(v, |v0|, xy)
  {
    forall i | |v0| <= i < |v|
      ensures Adjacent(xy, v[i]) || exists j :: |v0| <= j < i && Adjacent(v[j], v[i])
    {
      if i < |v1| {
        assert v[i] == v1[i];
        if !Adjacent(xy, v[i]) {
          var j :| |v0| <= j < i && Adjacent(v1[j], v1[i]);
          assert v[j] == v1[j];
        }
      } else if i > |v1| {
        if !Adjacent(n, v[i]) {
          var j :| |v1| + 1 <= j < i && Adjacent(v[j], v[i]);
        } else {
          assert Adjacent(v[|v1|], v[i]);
        }
      }
    }
  }

  // ---------------------------------------------------------------------
  // `count_corners`

  const DIR_U: Byte := 1
  const DIR_R: Byte := 2
  const DIR_D: Byte := 4
  const DIR_L: Byte := 8

  // `Grid::get` on a grid of side bits.
  function SideAt(sides: seq<seq<Byte>>, w: int, p: XY): (r: Option<Byte>)
    requires Rectangular(sides, w)
    ensures r.Some? <==> 0 <= p.x < w && 0 <= p.y < |sides|
  {
    if 0 <= p.x < w && 0 <= p.y < |sides| then Some(sides[p.y][p.x]) else None
  }

  // The first pass's table of side masks and the corners each makes, in
  // `count_corners`' order: U|L, U|R, U|L|R, L|U|D, L|D, L|D|R, D|R, R|U|D and
  // all four.
  const CORNER_TABLE: seq<(Byte, nat)> := [(9, 1), (3, 1), (11, 2), (13, 2), (12, 1), (14, 2), (6, 1), (7, 2), (15, 4)]

  // `find` on the table: the first entry for the mask, or 0.
  function Lookup(table: seq<(Byte, nat)>, sides: Byte): nat
    decreases |table|
  {
    if table == [] then 0 else if table[0].0 == sides then table[0].1 else Lookup(table[1..], sides)
  }

  // The corners of a cell where two of its fences meet.
  function CornerPairs(s: Byte): nat
  {
    (if Has(s, DIR_U) && Has(s, DIR_L) then 1 else 0) + (if Has(s, DIR_U) && Has(s, DIR_R) then 1 else 0) +
    (if Has(s, DIR_D) && Has(s, DIR_L) then 1 else 0) + (if Has(s, DIR_D) && Has(s, DIR_R) then 1 else 0)
  }

  // The table counts, for every mask of four sides, the corners where an
  // upper or lower fence meets a left or right one.
  lemma TableCountsCorners(s: Byte)
    requires s < 16
    ensures Lookup(CORNER_TABLE, s) == CornerPairs(s)
  {
    TableLadder(s);
    PairsLadder(s);
  }

  function Ladder(s: Byte): nat
  {
    if s in {9, 3, 12, 6} then 1 else if s in {11, 13, 14, 7} then 2 else if s == 15 then 4 else 0
  }

  lemma TableLadder(s: Byte)
    requires s < 16
    ensures Lookup(CORNER_TABLE, s) == Ladder(s)
  {
  }

  lemma PairsLadder(s: Byte)
    requires s < 16
    ensures CornerPairs(s) == Ladder(s)
  {
    assert s == 0 || s == 1 || s == 2 || s == 3 || s == 4 || s == 5 || s == 6 || s == 7 ||
           s == 8 || s == 9 || s == 10 || s == 11 || s == 12 || s == 13 || s == 14 || s == 15;
  }

  // A diagonal neighbour's bits, dropped when neither of the two cells
  // between it and xy has been visited.
  function Diagonal(sides: seq<seq<Byte>>, w: int, visited: seq<XY>, xy: XY, diag: XY, a: nat, b: nat): Option<Byte>
    requires Rectangular(sides, w) && a < SIDES && b < SIDES
  {
    var g := SideAt(sides, w, Add(xy, diag));
    if g.Some? && Neighbour(xy, a) !in visited && Neighbour(xy, b) !in visited then None else g
  }

  function Inner(s: Byte, o: Option<Byte>, own: Byte, theirs: Byte): nat
  {
    if o.Some? && Has(s, own) && Has(o.value, theirs) then 1 else 0
  }

  // The second pass at xy: a fence of xy meeting a fence of the diagonal
  // neighbour on the same side.
  function Convex(sides: seq<seq<Byte>>, w: int, visited: seq<XY>, xy: XY): nat
    requires Rectangular(sides, w) && 0 <= xy.y < |sides| && 0 <= xy.x < w
  {
    var s := sides[xy.y][xy.x];
    Inner(s, Diagonal(sides, w, visited, xy, XY(-1, -1), 0, 3), DIR_U, DIR_R) +
    Inner(s, Diagonal(sides, w, visited, xy, XY(1, -1), 0, 1), DIR_U, DIR_L) +
    Inner(s, Diagonal(sides, w, visited, xy, XY(-1, 1), 2, 3), DIR_D, DIR_R) +
    Inner(s, Diagonal(sides, w, visited, xy, XY(1, 1), 2, 1), DIR_D, DIR_L)
  }

  datatype Pass = Own | Diagonals

  function CellCorners(pass: Pass, sides: seq<seq<Byte>>, w: int, visited: seq<XY>, xy: XY): nat
    requires Rectangular(sides, w) && 0 <= xy.y < |sides| && 0 <= xy.x < w
  {
    match pass
    case Own => Lookup(CORNER_TABLE, sides[xy.y][xy.x])
    case Diagonals => Convex(sides, w, visited, xy)
  }

  // What each cell contributes to one pass, row by row.
  function CellTable(pass: Pass, sides: seq<seq<Byte>>, w: int, visited: seq<XY>): (t: seq<seq<nat>>)
    requires Rectangular(sides, w) && 0 <= w
    ensures |t| == |sides| && forall y :: 0 <= y < |t| ==> |t[y]| == w
  {
    seq(|sides|, y requires 0 <= y < |sides| =>
      seq(w, x requires 0 <= x < w => CellCorners(pass, sides, w, visited, XY(x, y))))
  }

  function Sum(s: seq<nat>): nat
    decreases |s|
  {
    if s == [] then 0 else Sum(s[..|s| - 1]) + s[|s| - 1]
  }

  function SumRows(t: seq<seq<nat>>): nat
    decreases |t|
  {
    if t == [] then 0 else SumRows(t[..|t| - 1]) + Sum(t[|t| - 1])
  }

  // Both passes over the whole side grid.
  function Corners(sides: seq<seq<Byte>>, w: int, visited: seq<XY>): nat
    requires Rectangular(sides, w) && 0 <= w
  {
    SumRows(CellTable(Own, sides, w, visited)) + SumRows(CellTable(Diagonals, sides, w, visited))
  }

  // `count_corners`: the two passes over the side grid, row by row.
  method CountCorners(fenced: Grid, visited: seq<XY>) returns (count: nat)
    requires fenced.Valid()
    ensures count == Corners(fenced.data, fenced.w, visited)
  {
    var own := PassAt(fenced, visited, Own, CellTable(Own, fenced.data, fenced.w, visited));
    var diagonals := PassAt(fenced, visited, Diagonals, CellTable(Diagonals, fenced.data, fenced.w, visited));
    count := own + diagonals;
  }

  // The outer loop of either pass, down the rows.
  method PassAt(fenced: Grid, visited: seq<XY>, pass: Pass, ghost t: seq<seq<nat>>) returns (count: nat)
    requires fenced.Valid() && t == CellTable(pass, fenced.data, fenced.w, visited)
    ensures count == SumRows(t)
  {
    count := 0;
    for y := 0 to fenced.h
      invariant count == SumRows(t[..y])
    {
      var c := RowAt(fenced, visited, pass, y, t[y]);
      assert t[..y + 1][..y] == t[..y];
      count := count + c;
    }
    assert t[..fenced.h] == t;
  }

  // The inner loop of either pass, along row y.
  method RowAt(fenced: Grid, visited: seq<XY>, pass: Pass, y: int, ghost row: seq<nat>) returns (count: nat)
    requires fenced.Valid() && 0 <= y < fenced.h && row == CellTable(pass, fenced.data, fenced.w, visited)[y]
    ensures count == Sum(row)
  {
    count := 0;
    for x := 0 to fenced.w
      invariant count == Sum(row[..x])
    {
      var c := CellAt(fenced, visited, pass, XY(x, y));
      assert row[..x + 1][..x] == row[..x];
      count := count + c;
    }
    assert row[..fenced.w] == row;
  }

  // The body of either pass at one cell.
  method CellAt(fenced: Grid, visited: seq<XY>, pass: Pass, xy: XY) returns (c: nat)
    requires fenced.Valid() && fenced.HasXY(xy)
    ensures c == CellCorners(pass, fenced.data, fenced.w, visited, xy)
  {
    if pass == Own {
      var sides := fenced.GetUnchecked(xy);
      c := Lookup(CORNER_TABLE, sides);
    } else {
      c := ConvexAt(fenced, visited, xy);
    }
  }

  // The second pass's body at one cell.
  method ConvexAt(fenced: Grid, visited: seq<XY>, xy: XY) returns (count: nat)
    requires fenced.Valid() && fenced.HasXY(xy)
    ensures count == Convex(fenced.data, fenced.w, visited, xy)
  {
    var sides := fenced.GetUnchecked(xy);
    var tl := DiagonalAt(fenced, visited, xy, XY(-1, -1), 0, 3);
    var tr := DiagonalAt(fenced, visited, xy, XY(1, -1), 0, 1);
    var bl := DiagonalAt(fenced, visited, xy, XY(-1, 1), 2, 3);
    var br := DiagonalAt(fenced, visited, xy, XY(1, 1), 2, 1);
    count := 0;
    if tl.Some? && Has(sides, DIR_U) && Has(tl.value, DIR_R) {
      count := count + 1;
    }
    if tr.Some? && Has(sides, DIR_U) && Has(tr.value, DIR_L) {
      count := count + 1;
    }
    if bl.Some? && Has(sides, DIR_D) && Has(bl.value, DIR_R) {
      count := count + 1;
    }
    if br.Some? && Has(sides, DIR_D) && Has(br.value, DIR_L) {
      count := count + 1;
    }
  }

  // One diagonal neighbour's bits, dropped unless a cell between is visited.
  method DiagonalAt(fenced: Grid, visited: seq<XY>, xy: XY, diag: XY, a: nat, b: nat) returns (o: Option<Byte>)
    requires fenced.Valid() && a < SIDES && b < SIDES
    ensures o == Diagonal(fenced.data, fenced.w, visited, xy, diag, a, b)
  {
    o := fenced.Get(Add(xy, diag));
    if o.Some? && Add(xy, STEPS[a]) !in visited && Add(xy, STEPS[b]) !in visited {
      o := None;
    }
  }

  // ---------------------------------------------------------------------
  // `day12`: the regions of each crop and their prices

  // One region as `day12` measures it: its cells (the first is the spot
  // the fill started from), its perimeter, the side grid the fill left and
  // the crop's visited list that `count_corners` consulted.
  datatype Region = Region(cells: seq<XY>, perimeter: nat, sides: seq<seq<Byte>>, seen: seq<XY>, corners: nat)

  function Concat(regions: seq<Region>): seq<XY>
    decreases |regions|
  {
    if regions == [] then [] else Concat(regions[..|regions| - 1]) + regions[|regions| - 1].cells
  }

  // A region's price: its area times its perimeter, or, discounted, times
  // its number of sides (which equals its number of corners).
  function Cost(area: nat, measure: nat): nat
  {
    area * measure
  }

  function Prices(regions: seq<Region>): nat
    decreases |regions|
  {
    if regions == [] then 0 else Prices(regions[..|regions| - 1]) + Cost(|regions[|regions| - 1].cells|, regions[|regions| - 1].perimeter)
  }

  function Discounts(regions: seq<Region>): nat
    decreases |regions|
  {
    if regions == [] then 0 else Discounts(regions[..|regions| - 1]) + Cost(|regions[|regions| - 1].cells|, regions[|regions| - 1].corners)
  }

  // A connected set of crop cells closed under same-crop neighbours, with
  // its fences counted, its side bits recorded and its corners counted.
  ghost predicate IsRegion(grid: Grid, crop: Byte, r: Region)
    reads grid
    requires grid.Valid()
  {
    |r.cells| >= 1 &&
    Linked(r.cells, 1, r.cells[0]) &&
    AllClosed(grid, crop, r.cells, r.cells) &&
    r.perimeter == Fences(grid, crop, r.cells) &&
    |r.sides| == grid.h && Rectangular(r.sides, grid.w) &&
    (forall p {:trigger r.sides[p.y][p.x]} :: grid.HasXY(p) ==>
      r.sides[p.y][p.x] == if p in r.cells then FenceBits(grid, crop, p, SIDES, 0) else 0) &&
    r.corners == Corners(r.sides, grid.w, r.seen)
  }

  // The regions found so far for one crop: between them they hold each
  // crop cell at most once, and each saw the cells of those before it.
  ghost predicate CropRegions(grid: Grid, crop: Byte, regions: seq<Region>)
    reads grid
    requires grid.Valid()
  {
    Grown(grid, crop, [], Concat(regions)) &&
    forall k :: 0 <= k < |regions| ==> IsRegion(grid, crop, regions[k]) && regions[k].seen == Concat(regions[..k + 1])
  }

  lemma {:induction false} InConcat(regions: seq<Region>, c: XY)
    requires c in Concat(regions)
    ensures exists k :: 0 <= k < |regions| && c in regions[k].cells
    decreases |regions|
  {
    var last := |regions| - 1;
    if c !in regions[last].cells {
      InConcat(regions[..last], c);
      var k :| 0 <= k < last && c in regions[..last][k].cells;
      assert regions[k] == regions[..last][k];
    }
  }

  lemma {:induction false} ConcatHolds(regions: seq<Region>, k: nat, c: XY)
    requires k < |regions| && c in regions[k].cells
    ensures c in Concat(regions)
    decreases |regions|
  {
    var last := |regions| - 1;
    if k < last {
      assert regions[..last][k] == regions[k];
      ConcatHolds(regions[..last], k, c);
    }
  }

  // The side opposite d leads back.
  lemma NeighbourBack(c: XY, d: nat)
    requires d < SIDES
    ensures Neighbour(Neighbour(c, d), (d + 2) % 4) == c
  {
  }

  // A cell whose same-crop neighbour lies in an earlier region lies there
  // too, since that region is closed.
  lemma BackInto(grid: Grid, crop: Byte, regions: seq<Region>, c: XY, d: nat)
    requires grid.Valid() && CropRegions(grid, crop, regions) && d < SIDES
    requires CropCell(grid, crop, c) && !Fence(grid, crop, c, d)
    ensures Neighbour(c, d) in Concat(regions) ==> c in Concat(regions)
  {
    var n := Neighbour(c, d);
    if n in Concat(regions) {
      InConcat(regions, n);
      var k :| 0 <= k < |regions| && n in regions[k].cells;
      NeighbourBack(c, d);
      assert Closed(grid, crop, n, regions[k].cells);
      assert !Fence(grid, crop, n, (d + 2) % 4);
      ConcatHolds(regions, k, c);
    }
  }

  // The cells of a new region, closed within everything visited so far,
  // are closed within themselves.
  lemma OwnClosed(grid: Grid, crop: Byte, regions: seq<Region>, cells: seq<XY>)
    requires grid.Valid() && CropRegions(grid, crop, regions)
    requires Grown(grid, crop, Concat(regions), Concat(regions) + cells)
    requires AllClosed(grid, crop, cells, Concat(regions) + cells)
    ensures AllClosed(grid, crop, cells, cells)
  {
    var v0 := Concat(regions);
    forall c | c in cells
      ensures Closed(grid, crop, c, cells)
    {
      assert (v0 + cells)[|v0|..] == cells;
      GrownNew(grid, crop, v0, v0 + cells, c);
      var i :| 0 <= i < |cells| && cells[i] == c;
      assert c == (v0 + cells)[|v0| + i];
      forall d | 0 <= d < SIDES && !Fence(grid, crop, c, d)
        ensures Neighbour(c, d) in cells
      {
        BackInto(grid, crop, regions, c, d);
      }
    }
  }

  // Linked from index lo of v, restated for xy followed by v[lo..].
  lemma LinkedShift(v: seq<XY>, lo: nat, xy: XY)
    requires lo <= |v| && Linked(v, lo, xy)
    ensures Linked([xy] + v[lo..], 1, xy)
  {
    var cells := [xy] + v[lo..];
    forall i | 1 <= i < |cells|
      ensures Adjacent(xy, cells[i]) || exists j :: 1 <= j < i && Adjacent(cells[j], cells[i])
    {
      assert cells[i] == v[lo + i - 1];
      if !Adjacent(xy, cells[i]) {
        var j :| lo <= j < lo + i - 1 && Adjacent(v[j], v[lo + i - 1]);
        assert cells[j - lo + 1] == v[j];
      }
    }
  }

  // The fill's side grid started from zeros: the bits of the region's
  // cells and zero elsewhere.
  lemma SidesOfRegion(grid: Grid, crop: Byte, xy: XY, added: seq<XY>, data: seq<seq<Byte>>, data0: seq<seq<Byte>>)
    requires grid.Valid() && grid.HasXY(xy)
    requires Rectangular(data0, grid.w) && Rectangular(data, grid.w) && |data0| == |data| == grid.h
    requires forall y, x :: 0 <= y < grid.h && 0 <= x < grid.w ==> data0[y][x] == 0
    requires data[xy.y][xy.x] == FenceBits(grid, crop, xy, SIDES, data0[xy.y][xy.x])
    requires MarkedBut(grid, crop, data0, data, added, xy)
    ensures forall p {:trigger data[p.y][p.x]} :: grid.HasXY(p) ==>
      data[p.y][p.x] == if p in [xy] + added then FenceBits(grid, crop, p, SIDES, 0) else 0
  {
    forall p | grid.HasXY(p)
      ensures data[p.y][p.x] == if p in [xy] + added then FenceBits(grid, crop, p, SIDES, 0) else 0
    {
      assert data0[p.y][p.x] == 0;
      if p != xy {
        assert p in [xy] + added <==> p in added;
      }
    }
  }

  lemma ConcatSnoc(regions: seq<Region>, r: Region)
    ensures Concat(regions + [r]) == Concat(regions) + r.cells
    ensures Prices(regions + [r]) == Prices(regions) + Cost(|r.cells|, r.perimeter)
    ensures Discounts(regions + [r]) == Discounts(regions) + Cost(|r.cells|, r.corners)
  {
    assert (regions + [r])[..|regions|] == regions;
  }

  lemma TakeSnoc<T>(s: seq<T>, x: T, k: nat)
    requires k <= |s|
    ensures (s + [x])[..k] == s[..k]
  {
  }

  lemma TakeAll<T>(s: seq<T>)
    ensures s[..|s|] == s
  {
  }

  // Adding a region keeps the earlier ones as they were.
  lemma CropRegionsSnoc(grid: Grid, crop: Byte, regions: seq<Region>, r: Region)
    requires grid.Valid() && CropRegions(grid, crop, regions)
    requires Grown(grid, crop, Concat(regions), Concat(regions) + r.cells)
    requires IsRegion(grid, crop, r) && r.seen == Concat(regions) + r.cells
    ensures CropRegions(grid, crop, regions + [r])
  {
    ConcatSnoc(regions, r);
    GrownTrans(grid, crop, [], Concat(regions), Concat(regions + [r]));
    var all := regions + [r];
    forall k | 0 <= k < |all|
      ensures IsRegion(grid, crop, all[k]) && all[k].seen == Concat(all[..k + 1])
    {
      if k < |regions| {
        TakeSnoc(regions, r, k + 1);
      } else {
        TakeAll(all);
      }
    }
  }

  lemma PrefixJoin<T>(v0: seq<T>, x: T, v: seq<T>)
    requires |v0| + 1 <= |v| && v[..|v0| + 1] == v0 + [x]
    ensures v == v0 + ([x] + v[|v0| + 1..])
  {
    assert v == v[..|v0| + 1] + v[|v0| + 1..];
  }

  // What the fill from xy and `count_corners` leave make a new region.
  lemma NewRegion(grid: Grid, crop: Byte, xy: XY, regions: seq<Region>, more: seq<XY>, perimeter: nat,
                  data0: seq<seq<Byte>>, data: seq<seq<Byte>>, corners: nat)
    requires grid.Valid() && CropCell(grid, crop, xy) && xy !in Concat(regions) && CropRegions(grid, crop, regions)
    requires Rectangular(data0, grid.w) && Rectangular(data, grid.w) && |data0| == |data| == grid.h
    requires forall y, x :: 0 <= y < grid.h && 0 <= x < grid.w ==> data0[y][x] == 0
    requires var v := Concat(regions) + [xy];
      Grown(grid, crop, v, more) &&
      perimeter == Fences(grid, crop, [xy] + more[|v|..]) &&
      data[xy.y][xy.x] == FenceBits(grid, crop, xy, SIDES, data0[xy.y][xy.x]) &&
      MarkedBut(grid, crop, data0, data, more[|v|..], xy) &&
      AllClosed(grid, crop, [xy] + more[|v|..], more) &&
      Linked(more, |v|, xy)
    requires Rectangular(data, grid.w) && corners == Corners(data, grid.w, more)
    ensures var r := Region([xy] + more[|Concat(regions)| + 1..], perimeter, data, more, corners);
      CropRegions(grid, crop, regions + [r]) && more == Concat(regions + [r])
  {
    var v0 := Concat(regions);
    var v := v0 + [xy];
    var cells := [xy] + more[|v|..];
    var r := Region(cells, perimeter, data, more, corners);
    GrownPush(grid, crop, [], v0, xy);
    GrownTrans(grid, crop, v0, v, more);
    PrefixJoin(v0, xy, more);
    OwnClosed(grid, crop, regions, cells);
    LinkedShift(more, |v|, xy);
    SidesOfRegion(grid, crop, xy, more[|v|..], data, data0);
    CropRegionsSnoc(grid, crop, regions, r);
    ConcatSnoc(regions, r);
  }

  // The body of the loop over one crop's spots, for a spot not yet
  // visited: fill its region, then price it.
  method MeasureRegion(grid: Grid, crop: Byte, xy: XY, visited0: seq<XY>, ghost regions: seq<Region>)
    returns (visited: seq<XY>, price: nat, discount: nat, ghost r: Region)
    requires grid.Valid() && CropCell(grid, crop, xy) && xy !in visited0
    requires CropRegions(grid, crop, regions) && visited0 == Concat(regions)
    ensures CropRegions(grid, crop, regions + [r]) && visited == Concat(regions + [r])
    ensures r.cells[0] == xy
    ensures price == Cost(|r.cells|, r.perimeter) && discount == Cost(|r.cells|, r.corners)
  {
    var fenced := new Grid(grid.w, grid.h);
    ghost var data0 := fenced.data;
    var area: nat := 1;
    var perimeter: nat := 0;
    visited := visited0 + [xy];
    var a, p;
    visited, a, p := CheckSurrounds(grid, visited, crop, xy, fenced);
    area := area + a;
    perimeter := perimeter + p;
    price := Cost(area, perimeter);
    var corners := CountCorners(fenced, visited);
    discount := Cost(area, corners);
    NewRegion(grid, crop, xy, regions, visited, perimeter, data0, fenced.data, corners);
    r := Region([xy] + visited[|visited0| + 1..], perimeter, fenced.data, visited, corners);
    assert |r.cells| == area;
  }

  // Every cell of the crop lies in one of the regions.
  ghost predicate Covers(grid: Grid, crop: Byte, regions: seq<Region>)
    reads grid
    requires grid.Valid()
  {
    forall p :: CropCell(grid, crop, p) ==> p in Concat(regions)
  }

  lemma SpotsVisited(spots: seq<XY>, i: nat, visited: seq<XY>, cells: seq<XY>)
    requires i < |spots| && |cells| > 0 && cells[0] == spots[i]
    requires forall j :: 0 <= j < i ==> spots[j] in visited
    ensures forall j :: 0 <= j < i + 1 ==> spots[j] in visited + cells
  {
    assert (visited + cells)[|visited|] == spots[i];
    forall j | 0 <= j < i
      ensures spots[j] in visited + cells
    {
      var k :| 0 <= k < |visited| && visited[k] == spots[j];
      assert (visited + cells)[k] == spots[j];
    }
  }

  // `grid.find(crop)`, as the crop's cells.
  method CropSpots(grid: Grid, crop: Byte) returns (spots: seq<XY>)
    requires grid.Valid()
    ensures forall i :: 0 <= i < |spots| ==> CropCell(grid, crop, spots[i])
    ensures forall p :: CropCell(grid, crop, p) ==> p in spots
  {
    spots := grid.Find(crop);
    forall p | CropCell(grid, crop, p)
      ensures p in spots
    {
      assert grid.Get(p) == Some(crop);
    }
  }

  // The state of the loop over one crop's spots once the first i are done.
  ghost predicate SpotsDone(grid: Grid, crop: Byte, spots: seq<XY>, i: nat, visited: seq<XY>, regions: seq<Region>,
                            price: nat, discount: nat)
    reads grid
    requires grid.Valid() && i <= |spots|
  {
    CropRegions(grid, crop, regions) && visited == Concat(regions) &&
    (forall j :: 0 <= j < i ==> spots[j] in visited) &&
    price == Prices(regions) && discount == Discounts(regions)
  }

  // The loop body for spot i: a spot already visited is skipped, any
  // other starts a new region.
  method VisitSpot(grid: Grid, crop: Byte, spots: seq<XY>, i: nat, visited0: seq<XY>, ghost regions0: seq<Region>,
                   price0: nat, discount0: nat)
    returns (visited: seq<XY>, ghost regions: seq<Region>, price: nat, discount: nat)
    requires grid.Valid() && i < |spots| && CropCell(grid, crop, spots[i])
    requires SpotsDone(grid, crop, spots, i, visited0, regions0, price0, discount0)
    ensures SpotsDone(grid, crop, spots, i + 1, visited, regions, price, discount)
  {
    var xy := spots[i];
    if xy in visited0 {
      return visited0, regions0, price0, discount0;
    }
    var v, p, d, r := MeasureRegion(grid, crop, xy, visited0, regions0);
    ConcatSnoc(regions0, r);
    SpotsVisited(spots, i, visited0, r.cells);
    visited, regions := v, regions0 + [r];
    price, discount := price0 + p, discount0 + d;
  }

  // The loop over one crop's spots: each spot not yet visited starts a new
  // region, so the crop's cells are split into regions.
  method SolveCrop(grid: Grid, crop: Byte) returns (price: nat, discount: nat, ghost regions: seq<Region>)
    requires grid.Valid()
    ensures CropRegions(grid, crop, regions) && Covers(grid, crop, regions)
    ensures price == Prices(regions) && discount == Discounts(regions)
  {
    var spots := CropSpots(grid, crop);
    var visited: seq<XY> := [];
    regions := [];
    price, discount := 0, 0;
    for i := 0 to |spots|
      invariant SpotsDone(grid, crop, spots, i, visited, regions, price, discount)
    {
      visited, regions, price, discount := VisitSpot(grid, crop, spots, i, visited, regions, price, discount);
    }
  }

  const CROPS: seq<Byte> := [65, 66, 67, 68, 69, 70, 71, 72, 73, 74, 75, 76, 77, 78, 79, 80, 81, 82, 83, 84, 85, 86, 87, 88, 89, 90]

  function AllPrices(byCrop: seq<seq<Region>>): nat
    decreases |byCrop|
  {
    if byCrop == [] then 0 else AllPrices(byCrop[..|byCrop| - 1]) + Prices(byCrop[|byCrop| - 1])
  }

  function AllDiscounts(byCrop: seq<seq<Region>>): nat
    decreases |byCrop|
  {
    if byCrop == [] then 0 else AllDiscounts(byCrop[..|byCrop| - 1]) + Discounts(byCrop[|byCrop| - 1])
  }

  lemma SolvedSnoc(grid: Grid, byCrop: seq<seq<Region>>, regions: seq<Region>)
    requires grid.Valid() && |byCrop| < |CROPS|
    requires forall k :: 0 <= k < |byCrop| ==> CropRegions(grid, CROPS[k], byCrop[k]) && Covers(grid, CROPS[k], byCrop[k])
    requires CropRegions(grid, CROPS[|byCrop|], regions) && Covers(grid, CROPS[|byCrop|], regions)
    ensures var all := byCrop + [regions];
      forall k :: 0 <= k < |all| ==> CropRegions(grid, CROPS[k], all[k]) && Covers(grid, CROPS[k], all[k])
    ensures AllPrices(byCrop + [regions]) == AllPrices(byCrop) + Prices(regions)
    ensures AllDiscounts(byCrop + [regions]) == AllDiscounts(byCrop) + Discounts(regions)
  {
    assert (byCrop + [regions])[..|byCrop|] == byCrop;
  }

  // `day12`: the total price and the total discounted price over the
  // regions of every crop A to Z, byCrop[i] holding those of CROPS[i].
  method Solve(grid: Grid) returns (totalPrice: nat, totalDiscount: nat, ghost byCrop: seq<seq<Region>>)
    requires grid.Valid()
    ensures |byCrop| == |CROPS|
    ensures forall i :: 0 <= i < |CROPS| ==> CropRegions(grid, CROPS[i], byCrop[i]) && Covers(grid, CROPS[i], byCrop[i])
    ensures totalPrice == AllPrices(byCrop) && totalDiscount == AllDiscounts(byCrop)
  {
    totalPrice, totalDiscount := 0, 0;
    byCrop := [];
    for i := 0 to |CROPS|
      invariant |byCrop| == i
      invariant forall k :: 0 <= k < i ==> CropRegions(grid, CROPS[k], byCrop[k]) && Covers(grid, CROPS[k], byCrop[k])
      invariant totalPrice == AllPrices(byCrop) && totalDiscount == AllDiscounts(byCrop)
    {
      var price, discount, regions := SolveCrop(grid, CROPS[i]);
      SolvedSnoc(grid, byCrop, regions);
      byCrop := byCrop + [regions];
      totalPrice, totalDiscount := totalPrice + price, totalDiscount + discount;
    }
  }
}

