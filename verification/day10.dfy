// src/day10.rs: a topographic map of digit heights. A hike starts on a 0
// and climbs one unit per step to a grid neighbour until it reaches a 9.
// A trailhead's score is the number of distinct 9s its hikes reach, its
// rating the number of hikes; the answers are the two sums.
module Day10 {
  import opened Grids

  const ZERO: Byte := 48
  const NINE: Byte := 57

  // The unit steps of `ALLMOVES`, in its order: up, right, down, left.
  const STEPS: seq<XY> := [XY(0, -1), XY(1, 0), XY(0, 1), XY(-1, 0)]

  function Abs(n: int): nat { if n < 0 then -n else n }

  predicate Adjacent(a: XY, b: XY)
  {
    Abs(a.x - b.x) + Abs(a.y - b.y) == 1
  }

  function Height(grid: Grid, p: XY): Byte
    reads grid
    requires grid.Valid() && grid.HasXY(p)
  {
    grid.data[p.y][p.x]
  }

  // One step of a hike: to a neighbouring cell exactly one higher.
  predicate Climb(grid: Grid, a: XY, b: XY)
    reads grid
    requires grid.Valid()
  {
    grid.HasXY(a) && grid.HasXY(b) && Adjacent(a, b) && Height(grid, b) as int == Height(grid, a) as int + 1
  }

  // t carries on from path by climbing steps, the first 9 after path's
  // last cell ending it.
  ghost predicate Continues(grid: Grid, path: seq<XY>, t: seq<XY>)
    reads grid
    requires grid.Valid()
  {
    1 <= |path| <= |t| && t[..|path|] == path &&
    (forall i :: |path| - 1 <= i < |t| - 1 ==> Climb(grid, t[i], t[i + 1]) && Height(grid, t[i]) != NINE) &&
    grid.HasXY(t[|t| - 1]) && Height(grid, t[|t| - 1]) == NINE
  }

  // ---------------------------------------------------------------------
  // The hikes `path_walk` records

  // The `possibles` filter over the first k moves.
  function Possibles(grid: Grid, xy: XY, k: nat): (r: seq<XY>)
    reads grid
    requires grid.Valid() && grid.HasXY(xy) && k <= 4
    ensures |r| <= k
    ensures forall i :: 0 <= i < |r| ==> Climb(grid, xy, r[i])
  {
    if k == 0 then []
    else
      var n := Add(xy, STEPS[k - 1]);
      Possibles(grid, xy, k - 1) + if grid.HasXY(n) && Height(grid, n) as int == Height(grid, xy) as int + 1 then [n] else []
  }

  // The hikes recorded by `path_walk(path)`, in the order it records them.
  function Hikes(grid: Grid, path: seq<XY>): seq<seq<XY>>
    reads grid
    requires grid.Valid() && path != [] && grid.HasXY(path[|path| - 1])
    decreases 256 - Height(grid, path[|path| - 1]) as int, 5
  {
    var xy := path[|path| - 1];
    if Height(grid, xy) == NINE then [path] else HikesVia(grid, path, Possibles(grid, xy, 4))
  }

  // The hikes through each of the next cells ns, one after another.
  function HikesVia(grid: Grid, path: seq<XY>, ns: seq<XY>): seq<seq<XY>>
    reads grid
    requires grid.Valid() && path != [] && grid.HasXY(path[|path| - 1])
    requires forall i :: 0 <= i < |ns| ==> Climb(grid, path[|path| - 1], ns[i])
    decreases 256 - Height(grid, path[|path| - 1]) as int, |ns|
  {
    if ns == [] then []
    else
      var n := ns[|ns| - 1];
      assert Climb(grid, path[|path| - 1], n);
      assert (path + [n])[|path + [n]| - 1] == n;
      assert grid.HasXY(n);
      HikesVia(grid, path, ns[..|ns| - 1]) + Hikes(grid, path + [n])
  }

  // The end cells of a list of paths.
  function Ends(hs: seq<seq<XY>>): set<XY>
    decreases |hs|
  {
    if hs == [] then {}
    else
      var h := hs[|hs| - 1];
      Ends(hs[..|hs| - 1]) + if h == [] then {} else {h[|h| - 1]}
  }

  // `path_walk`: a 9 records the path and its end; any other cell tries
  // each possible next cell in turn.
  method PathWalk(grid: Grid, path: seq<XY>, nines0: set<XY>, hikes0: seq<seq<XY>>) returns (nines: set<XY>, hikes: seq<seq<XY>>)
    requires grid.Valid() && path != [] && grid.HasXY(path[|path| - 1])
    ensures hikes == hikes0 + Hikes(grid, path)
    ensures nines == nines0 + Ends(Hikes(grid, path))
    decreases 256 - Height(grid, path[|path| - 1]) as int, 1
  {
    var xy := path[|path| - 1];
    if grid.Get(xy).value == NINE {
      nines := nines0 + {xy};
      hikes := hikes0 + [path];
      assert Ends([path]) == {xy} by {
        assert [path][..0] == [];
      }
      return;
    }
    var possibles := FindPossibles(grid, xy);
    nines, hikes := WalkEach(grid, path, possibles, nines0, hikes0);
  }

  // The `possibles` filter.
  method FindPossibles(grid: Grid, xy: XY) returns (possibles: seq<XY>)
    requires grid.Valid() && grid.HasXY(xy)
    ensures possibles == Possibles(grid, xy, 4)
  {
    var height := grid.GetUnchecked(xy);
    possibles := [];
    for k := 0 to 4
      invariant possibles == Possibles(grid, xy, k)
    {
      var n := Add(xy, STEPS[k]);
      if grid.HasXY(n) && grid.GetUnchecked(n) as int == height as int + 1 {
        possibles := possibles + [n];
      }
    }
  }

  // The `for_each` over the possibles, each walked with the path extended.
  method WalkEach(grid: Grid, path: seq<XY>, possibles: seq<XY>, nines0: set<XY>, hikes0: seq<seq<XY>>) returns (nines: set<XY>, hikes: seq<seq<XY>>)
    requires grid.Valid() && path != [] && grid.HasXY(path[|path| - 1])
    requires forall i :: 0 <= i < |possibles| ==> Climb(grid, path[|path| - 1], possibles[i])
    ensures hikes == hikes0 + HikesVia(grid, path, possibles)
    ensures nines == nines0 + Ends(HikesVia(grid, path, possibles))
    decreases 256 - Height(grid, path[|path| - 1]) as int, 0
  {
    nines, hikes := nines0, hikes0;
    for i := 0 to |possibles|
      invariant Walked(grid, path, possibles[..i], nines0, hikes0, nines, hikes)
    {
      nines, hikes := WalkNext(grid, path, possibles, i, nines0, hikes0, nines, hikes);
    }
    assert possibles[..|possibles|] == possibles;
  }

  // The hikes via ns are appended to hikes0, and their ends added to nines0.
  ghost predicate Walked(grid: Grid, path: seq<XY>, ns: seq<XY>, nines0: set<XY>, hikes0: seq<seq<XY>>, nines: set<XY>, hikes: seq<seq<XY>>)
    reads grid
    requires grid.Valid() && path != [] && grid.HasXY(path[|path| - 1])
    requires forall j :: 0 <= j < |ns| ==> Climb(grid, path[|path| - 1], ns[j])
  {
    hikes == hikes0 + HikesVia(grid, path, ns) && nines == nines0 + Ends(HikesVia(grid, path, ns))
  }

  // One turn of `WalkEach`: the walk from the i-th next cell.
  method WalkNext(grid: Grid, path: seq<XY>, possibles: seq<XY>, i: nat, nines0: set<XY>, hikes0: seq<seq<XY>>, nines1: set<XY>, hikes1: seq<seq<XY>>)
    returns (nines: set<XY>, hikes: seq<seq<XY>>)
    requires grid.Valid() && path != [] && grid.HasXY(path[|path| - 1])
    requires forall j :: 0 <= j < |possibles| ==> Climb(grid, path[|path| - 1], possibles[j])
    requires i < |possibles|
    requires Walked(grid, path, possibles[..i], nines0, hikes0, nines1, hikes1)
    ensures Walked(grid, path, possibles[..i + 1], nines0, hikes0, nines, hikes)
    decreases 256 - Height(grid, path[|path| - 1]) as int, -1
  {
    var npath := path + [possibles[i]];
    HikesViaSnoc(grid, path, possibles, i);
    ghost var done, more := HikesVia(grid, path, possibles[..i]), Hikes(grid, npath);
    nines, hikes := PathWalk(grid, npath, nines1, hikes1);
    assert hikes == hikes0 + (done + more) by {
      Associative(hikes0, done, more);
    }
    assert nines == nines0 + Ends(done + more) by {
      EndsAppend(done, more);
    }
  }

  lemma HikesViaSnoc(grid: Grid, path: seq<XY>, ns: seq<XY>, i: nat)
    requires grid.Valid() && path != [] && grid.HasXY(path[|path| - 1])
    requires forall j :: 0 <= j < |ns| ==> Climb(grid, path[|path| - 1], ns[j])
    requires i < |ns|
    ensures var npath := path + [ns[i]];
      grid.HasXY(npath[|npath| - 1]) && Height(grid, npath[|npath| - 1]) > Height(grid, path[|path| - 1]) &&
      HikesVia(grid, path, ns[..i + 1]) == HikesVia(grid, path, ns[..i]) + Hikes(grid, npath)
  {
    assert ns[..i + 1][..i] == ns[..i];
    assert Climb(grid, path[|path| - 1], ns[i]);
  }

  lemma Associative(a: seq<seq<XY>>, b: seq<seq<XY>>, c: seq<seq<XY>>)
    ensures a + b + c == a + (b + c)
  {
  }

  lemma {:induction false} EndsAppend(a: seq<seq<XY>>, b: seq<seq<XY>>)
    ensures Ends(a + b) == Ends(a) + Ends(b)
    decreases |b|
  {
    if b == [] {
      assert a + b == a;
    } else {
      assert (a + b)[..|a + b| - 1] == a + b[..|b| - 1];
      EndsAppend(a, b[..|b| - 1]);
    }
  }

  // So a trailhead's score never exceeds its rating.
  lemma {:induction false} EndsBound(hs: seq<seq<XY>>)
    ensures |Ends(hs)| <= |hs|
    decreases |hs|
  {
    if hs != [] {
      EndsBound(hs[..|hs| - 1]);
    }
  }

  lemma {:induction false} EndsAreLast(hs: seq<seq<XY>>, p: XY)
    ensures p in Ends(hs) <==> exists i :: 0 <= i < |hs| && hs[i] != [] && hs[i][|hs[i]| - 1] == p
    decreases |hs|
  {
    if hs != [] {
      var init := hs[..|hs| - 1];
      EndsAreLast(init, p);
      if exists i :: 0 <= i < |hs| && hs[i] != [] && hs[i][|hs[i]| - 1] == p {
        var i :| 0 <= i < |hs| && hs[i] != [] && hs[i][|hs[i]| - 1] == p;
        if i < |hs| - 1 {
          assert init[i] == hs[i];
        }
      }
      if p in Ends(init) {
        var i :| 0 <= i < |init| && init[i] != [] && init[i][|init[i]| - 1] == p;
        assert hs[i] == init[i];
      }
    }
  }

  // ---------------------------------------------------------------------
  // Every recorded hike is a hike, and every hike is recorded

  lemma {:induction false} HikesSound(grid: Grid, path: seq<XY>)
    requires grid.Valid() && path != [] && grid.HasXY(path[|path| - 1])
    ensures forall t :: t in Hikes(grid, path) ==> Continues(grid, path, t)
    decreases 256 - Height(grid, path[|path| - 1]) as int, 5
  {
    var xy := path[|path| - 1];
    if Height(grid, xy) != NINE {
      HikesViaSound(grid, path, Possibles(grid, xy, 4));
    }
  }

  lemma {:induction false} HikesViaSound(grid: Grid, path: seq<XY>, ns: seq<XY>)
    requires grid.Valid() && path != [] && grid.HasXY(path[|path| - 1])
    requires forall i :: 0 <= i < |ns| ==> Climb(grid, path[|path| - 1], ns[i])
    requires Height(grid, path[|path| - 1]) != NINE
    ensures forall t :: t in HikesVia(grid, path, ns) ==> Continues(grid, path, t)
    decreases 256 - Height(grid, path[|path| - 1]) as int, |ns|
  {
    if ns != [] {
      var n := ns[|ns| - 1];
      HikesViaSound(grid, path, ns[..|ns| - 1]);
      var npath := path + [n];
      HikesSound(grid, npath);
      forall t | t in Hikes(grid, npath)
        ensures Continues(grid, path, t)
      {
        ExtendsBack(grid, path, n, t);
      }
    }
  }

  // A hike from path + [n], with n a climb from path's end, is a hike from
  // path.
  lemma ExtendsBack(grid: Grid, path: seq<XY>, n: XY, t: seq<XY>)
    requires grid.Valid() && path != [] && Climb(grid, path[|path| - 1], n)
    requires Height(grid, path[|path| - 1]) != NINE
    requires Continues(grid, path + [n], t)
    ensures Continues(grid, path, t)
  {
    var m := |path|;
    assert t[..m] == (path + [n])[..m] == path;
    assert t[m - 1] == path[m - 1] && t[m] == n;
  }

  // The other direction: a cell holding the next height next to xy is one
  // of the possibles.
  lemma PossiblesComplete(grid: Grid, xy: XY, n: XY)
    requires grid.Valid() && Climb(grid, xy, n)
    ensures n in Possibles(grid, xy, 4)
  {
    var d := Sub(n, xy);
    var k: nat := if d == STEPS[0] then 0 else if d == STEPS[1] then 1 else if d == STEPS[2] then 2 else 3;
    assert n == Add(xy, STEPS[k]);
    PossiblesHas(grid, xy, k, 4);
  }

  lemma {:induction false} PossiblesHas(grid: Grid, xy: XY, k: nat, j: nat)
    requires grid.Valid() && grid.HasXY(xy) && k < j <= 4 && Climb(grid, xy, Add(xy, STEPS[k]))
    ensures Add(xy, STEPS[k]) in Possibles(grid, xy, j)
    decreases j
  {
    if k < j - 1 {
      PossiblesHas(grid, xy, k, j - 1);
    }
  }

  lemma {:induction false} HikesComplete(grid: Grid, path: seq<XY>, t: seq<XY>)
    requires grid.Valid() && path != [] && grid.HasXY(path[|path| - 1])
    requires Continues(grid, path, t)
    ensures t in Hikes(grid, path)
    decreases |t| - |path|
  {
    var m := |path|;
    var xy := path[m - 1];
    assert t[m - 1] == xy;
    if Height(grid, xy) == NINE {
      assert |t| == m;
      assert t == t[..m];
    } else {
      assert |t| > m;
      var n := t[m];
      assert Climb(grid, xy, n);
      var npath := path + [n];
      assert t[..m + 1] == npath;
      assert Continues(grid, npath, t);
      HikesComplete(grid, npath, t);
      PossiblesComplete(grid, xy, n);
      var ns := Possibles(grid, xy, 4);
      var k :| 0 <= k < |ns| && ns[k] == n;
      HikesViaHas(grid, path, ns, k, t);
    }
  }

  lemma {:induction false} HikesViaHas(grid: Grid, path: seq<XY>, ns: seq<XY>, k: nat, t: seq<XY>)
    requires grid.Valid() && path != [] && grid.HasXY(path[|path| - 1])
    requires forall i :: 0 <= i < |ns| ==> Climb(grid, path[|path| - 1], ns[i])
    requires k < |ns| && Climb(grid, path[|path| - 1], ns[k]) && t in Hikes(grid, path + [ns[k]])
    ensures t in HikesVia(grid, path, ns)
    decreases |ns|
  {
    if k < |ns| - 1 {
      HikesViaHas(grid, path, ns[..|ns| - 1], k, t);
    }
  }

  // ---------------------------------------------------------------------
  // Scores, ratings and the answers

  function Score(grid: Grid, th: XY): nat
    reads grid
    requires grid.Valid() && grid.HasXY(th)
  {
    |Ends(Hikes(grid, [th]))|
  }

  function Rating(grid: Grid, th: XY): nat
    reads grid
    requires grid.Valid() && grid.HasXY(th)
  {
    |Hikes(grid, [th])|
  }

  // The score counts exactly the 9s some hike from th reaches ...
  lemma ScoreIsReachableNines(grid: Grid, th: XY, p: XY)
    requires grid.Valid() && grid.HasXY(th)
    ensures p in Ends(Hikes(grid, [th])) <==> exists t :: Continues(grid, [th], t) && t[|t| - 1] == p
  {
    var hs := Hikes(grid, [th]);
    EndsAreLast(hs, p);
    if p in Ends(hs) {
      var i :| 0 <= i < |hs| && hs[i] != [] && hs[i][|hs[i]| - 1] == p;
      assert Continues(grid, [th], hs[i]) by {
        HikesSound(grid, [th]);
        assert hs[i] in hs;
      }
    }
    if exists t :: Continues(grid, [th], t) && t[|t| - 1] == p {
      var t :| Continues(grid, [th], t) && t[|t| - 1] == p;
      HikesComplete(grid, [th], t);
      var i :| 0 <= i < |hs| && hs[i] == t;
    }
  }

  // ... and is at most the rating.
  lemma ScoreBelowRating(grid: Grid, th: XY)
    requires grid.Valid() && grid.HasXY(th)
    ensures Score(grid, th) <= Rating(grid, th)
  {
    EndsBound(Hikes(grid, [th]));
  }

  function SumScores(grid: Grid, ths: seq<XY>): nat
    reads grid
    requires grid.Valid() && forall i :: 0 <= i < |ths| ==> grid.HasXY(ths[i])
    decreases |ths|
  {
    if ths == [] then 0 else SumScores(grid, ths[..|ths| - 1]) + Score(grid, ths[|ths| - 1])
  }

  function SumRatings(grid: Grid, ths: seq<XY>): nat
    reads grid
    requires grid.Valid() && forall i :: 0 <= i < |ths| ==> grid.HasXY(ths[i])
    decreases |ths|
  {
    if ths == [] then 0 else SumRatings(grid, ths[..|ths| - 1]) + Rating(grid, ths[|ths| - 1])
  }

  lemma {:induction false} ScoresBelowRatings(grid: Grid, ths: seq<XY>)
    requires grid.Valid() && forall i :: 0 <= i < |ths| ==> grid.HasXY(ths[i])
    ensures SumScores(grid, ths) <= SumRatings(grid, ths)
    decreases |ths|
  {
    if ths != [] {
      ScoresBelowRatings(grid, ths[..|ths| - 1]);
      var th := ths[|ths| - 1];
      ScoreBelowRating(grid, th);
    }
  }

  // Both parts: the trailheads are the 0 cells in reading order, and
  // every one contributes its score and its rating.
  method Solve(grid: Grid) returns (ths: seq<XY>, score: nat, rating: nat)
    requires grid.Valid()
    ensures forall i :: 0 <= i < |ths| ==> grid.HasXY(ths[i]) && Height(grid, ths[i]) == ZERO
    ensures forall p :: grid.HasXY(p) && Height(grid, p) == ZERO ==> p in ths
    ensures forall i, j :: 0 <= i < j < |ths| ==> RowMajorBefore(ths[i], ths[j])
    ensures score == SumScores(grid, ths) && rating == SumRatings(grid, ths)
  {
    ths := grid.Find(ZERO);
    score, rating := 0, 0;
    for i := 0 to |ths|
      invariant score == SumScores(grid, ths[..i]) && rating == SumRatings(grid, ths[..i])
    {
      assert ths[..i + 1][..i] == ths[..i];
      var nines, hikes := PathWalk(grid, [ths[i]], {}, []);
      score := score + |nines|;
      rating := rating + |hikes|;
    }
    assert ths[..|ths|] == ths;
  }
}
