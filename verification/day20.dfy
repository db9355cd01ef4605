// Day 20: a race track with one best path, and cheats that pass through
// walls. Part 1 counts jumps over a single wall that land back on the path
// far enough ahead; part 2 counts pairs of path points joined by a cheat of
// up to 20 steps that saves enough.

module Day20 {
  import opened Wrappers
  import opened Vectors
  import opened Levels
  import opened Path2
  import opened StackStack
  import Search = Solve

  // A cheat must save at least this many steps.
  const MIN_SAVINGS: nat := 100
  // The longest cheat of part 2.
  const MAX_CHEAT: nat := 20
  // The round limit handed to the search.
  const MAX_DEPTH: nat := STACKSTACK64_MAX * 32

  // ---------------------------------------------------------------------
  // The best path's points

  // Every point has its four neighbours inside the bitmap.
  predicate Addressable(rows: seq<seq<bv64>>, pts: seq<Vector>)
  {
    forall k :: 0 <= k < |pts| ==> Search.Inside(rows, pts[k])
  }

  // Each point is one step from the one before.
  predicate UnitSteps(pts: seq<Vector>)
  {
    forall k :: 0 <= k < |pts| - 1 ==> Distance(pts[k], pts[k + 1]) == 1
  }

  // `iter().skip(i).position(..)`: the first index from i on holding v.
  function IndexFrom(pts: seq<Vector>, i: nat, v: Vector): (r: Option<nat>)
    requires i <= |pts|
    ensures r.Some? ==> i <= r.value < |pts| && pts[r.value] == v
    ensures r.Some? ==> forall k :: i <= k < r.value ==> pts[k] != v
    ensures r.None? <==> forall k :: i <= k < |pts| ==> pts[k] != v
    decreases |pts| - i
  {
    if i == |pts| then None
    else if pts[i] == v then Some(i)
    else IndexFrom(pts, i + 1, v)
  }

  // Two steps the same way from a point.
  function Landing(pt: Vector, m: Move2): Vector
  {
    ApplyDir(ApplyDir(pt, m), m)
  }

  lemma LandingDistance(pt: Vector, m: Move2)
    ensures Distance(pt, ApplyDir(pt, m)) == 1
    ensures Distance(pt, Landing(pt, m)) == 2
  {
    match m
    case Up =>
    case Right =>
    case Down =>
    case Left =>
  }

  // The landing point of a jump is found at least two places further on,
  // so the subtraction `i2 - i - 2` never goes below zero.
  lemma LandingAhead(pts: seq<Vector>, i: nat, m: Move2, i2: nat)
    requires UnitSteps(pts) && i < |pts|
    requires IndexFrom(pts, i, Landing(pts[i], m)) == Some(i2)
    ensures i2 >= i + 2
  {
    LandingDistance(pts[i], m);
    if i + 1 < |pts| {
      assert Distance(pts[i], pts[i + 1]) == 1;
    }
  }

  // The points of a walk over open floor from an enclosed start have their
  // neighbours in the bitmap, and follow each other one step at a time.
  lemma {:induction false} WalkPrefix(rows: seq<seq<bv64>>, start: Vector, path: seq<Move2>, k: nat)
    requires RowsShape(rows) && Search.SpaceWalk(rows, start, path) && k <= |path|
    ensures Search.SpaceWalk(rows, start, path[..k])
    decreases |path|
  {
    if k < |path| {
      assert path[..|path| - 1][..k] == path[..k];
      WalkPrefix(rows, start, path[..|path| - 1], k);
    } else {
      assert path[..k] == path;
    }
  }

  lemma PathPointsUsable(rows: seq<seq<bv64>>, start: Vector, path: seq<Move2>)
    requires RowsShape(rows) && Search.Enclosed(rows, start) && Search.SpaceWalk(rows, start, path)
    ensures Addressable(rows, PathPoints(start, path)) && UnitSteps(PathPoints(start, path))
  {
    var pts := PathPoints(start, path);
    PathPointsFacts(start, path);
    forall k | 0 <= k < |pts|
      ensures Search.Inside(rows, pts[k])
    {
      WalkPrefix(rows, start, path, k);
    }
    forall k | 0 <= k < |pts| - 1
      ensures Distance(pts[k], pts[k + 1]) == 1
    {
      LandingDistance(pts[k], path[k]);
    }
  }

  // ---------------------------------------------------------------------
  // Part 1: jumps over one wall

  predicate InLevel(w: int, h: int, v: Vector)
  {
    0 <= v.x < w && 0 <= v.y < h
  }

  // The point after the wall is in the level and open, the wall is a wall,
  // and the path reaches the landing point again at i2 >= i with
  // i2 - i - 2 >= MIN_SAVINGS.
  predicate ShortCut(rows: seq<seq<bv64>>, w: int, h: int, pts: seq<Vector>, i: nat, m: Move2)
    requires RowsShape(rows) && |rows| == h && w <= BITMAP_COLUMNS
    requires i < |pts| && Search.Inside(rows, pts[i])
  {
    var magic1 := ApplyDir(pts[i], m);
    var magic2 := ApplyDir(magic1, m);
    InLevel(w, h, magic2) && BitAt(rows, magic1) && !BitAt(rows, magic2) &&
    IndexFrom(pts, i, magic2).Some? && IndexFrom(pts, i, magic2).value - i - 2 >= MIN_SAVINGS
  }

  // Shortcuts from point i among the first k moves of ALLMOVES2.
  function ShortCutsAt(rows: seq<seq<bv64>>, w: int, h: int, pts: seq<Vector>, i: nat, k: nat): nat
    requires RowsShape(rows) && |rows| == h && w <= BITMAP_COLUMNS
    requires i < |pts| && Search.Inside(rows, pts[i]) && k <= 4
  {
    if k == 0 then 0
    else ShortCutsAt(rows, w, h, pts, i, k - 1) + (if ShortCut(rows, w, h, pts, i, ALLMOVES2[k - 1]) then 1 else 0)
  }

  // Shortcuts from the first n points.
  function ShortCuts(rows: seq<seq<bv64>>, w: int, h: int, pts: seq<Vector>, n: nat): nat
    requires RowsShape(rows) && |rows| == h && w <= BITMAP_COLUMNS
    requires Addressable(rows, pts) && n <= |pts|
  {
    if n == 0 then 0
    else ShortCuts(rows, w, h, pts, n - 1) + ShortCutsAt(rows, w, h, pts, n - 1, 4)
  }

  // Counting the members of a set of (point, move) pairs, point by point
  // and move by move in ALLMOVES2 order.
  function CountAt(good: set<(nat, Move2)>, i: nat, k: nat): nat
    requires k <= 4
  {
    if k == 0 then 0 else CountAt(good, i, k - 1) + (if (i, ALLMOVES2[k - 1]) in good then 1 else 0)
  }

  function CountAll(good: set<(nat, Move2)>, n: nat): nat
  {
    if n == 0 then 0 else CountAll(good, n - 1) + CountAt(good, n - 1, 4)
  }

  // The pairs of good before point n, and those at n among the first k moves.
  ghost function Upto(good: set<(nat, Move2)>, n: nat, k: nat): set<(nat, Move2)>
    requires k <= 4
  {
    set p | p in good && (p.0 < n || (p.0 == n && p.1 in ALLMOVES2[..k]))
  }

  lemma EveryMove(m: Move2)
    ensures m in ALLMOVES2
  {
    match m
    case Up => assert ALLMOVES2[0] == m;
    case Right => assert ALLMOVES2[1] == m;
    case Down => assert ALLMOVES2[2] == m;
    case Left => assert ALLMOVES2[3] == m;
  }

  lemma {:induction false} UptoCount(good: set<(nat, Move2)>, n: nat, k: nat)
    requires k <= 4
    ensures |Upto(good, n, k)| == CountAll(good, n) + CountAt(good, n, k)
    decreases n, k
  {
    var here := Upto(good, n, k);
    if k == 0 {
      if n > 0 {
        UptoCount(good, n - 1, 4);
        assert ALLMOVES2[..4] == ALLMOVES2;
        forall p | p in good
          ensures p in here <==> p in Upto(good, n - 1, 4)
        {
          EveryMove(p.1);
        }
        assert here == Upto(good, n - 1, 4);
      } else {
        assert here == {};
      }
    } else {
      UptoCount(good, n, k - 1);
      var before := Upto(good, n, k - 1);
      var m := ALLMOVES2[k - 1];
      assert ALLMOVES2[..k] == ALLMOVES2[..k - 1] + [m];
      assert m !in ALLMOVES2[..k - 1] by {
        assert ALLMOVES2 == [Up, Right, Down, Left];
      }
      if (n, m) in good {
        assert here == before + {(n, m)};
      } else {
        assert here == before;
      }
    }
  }

  // The (point, move) pairs that are shortcuts.
  ghost function ShortCutPairs(rows: seq<seq<bv64>>, w: int, h: int, pts: seq<Vector>): set<(nat, Move2)>
    requires RowsShape(rows) && |rows| == h && w <= BITMAP_COLUMNS && Addressable(rows, pts)
  {
    set i: nat, m | i < |pts| && m in ALLMOVES2 && ShortCut(rows, w, h, pts, i, m) :: (i, m)
  }

  lemma {:induction false} ShortCutsAtCount(rows: seq<seq<bv64>>, w: int, h: int, pts: seq<Vector>, i: nat, k: nat)
    requires RowsShape(rows) && |rows| == h && w <= BITMAP_COLUMNS && Addressable(rows, pts)
    requires i < |pts| && k <= 4
    ensures ShortCutsAt(rows, w, h, pts, i, k) == CountAt(ShortCutPairs(rows, w, h, pts), i, k)
  {
    if k > 0 {
      ShortCutsAtCount(rows, w, h, pts, i, k - 1);
      var m := ALLMOVES2[k - 1];
      assert (i, m) in ShortCutPairs(rows, w, h, pts) <==> ShortCut(rows, w, h, pts, i, m);
    }
  }

  lemma {:induction false} ShortCutsCountAll(rows: seq<seq<bv64>>, w: int, h: int, pts: seq<Vector>, n: nat)
    requires RowsShape(rows) && |rows| == h && w <= BITMAP_COLUMNS && Addressable(rows, pts)
    requires n <= |pts|
    ensures ShortCuts(rows, w, h, pts, n) == CountAll(ShortCutPairs(rows, w, h, pts), n)
  {
    if n > 0 {
      ShortCutsCountAll(rows, w, h, pts, n - 1);
      ShortCutsAtCount(rows, w, h, pts, n - 1, 4);
    }
  }

  // ShortCuts counts the (point, move) pairs that are shortcuts.
  lemma ShortCutsCount(rows: seq<seq<bv64>>, w: int, h: int, pts: seq<Vector>)
    requires RowsShape(rows) && |rows| == h && w <= BITMAP_COLUMNS && Addressable(rows, pts)
    ensures |ShortCutPairs(rows, w, h, pts)| == ShortCuts(rows, w, h, pts, |pts|)
  {
    var good := ShortCutPairs(rows, w, h, pts);
    ShortCutsCountAll(rows, w, h, pts, |pts|);
    UptoCount(good, |pts|, 0);
    assert Upto(good, |pts|, 0) == good;
    assert CountAt(good, |pts|, 0) == 0;
  }

  // The moves of point i, in ALLMOVES2 order.
  method ShortCutsFrom(level: Level, pts: seq<Vector>, i: nat) returns (c: nat)
    requires level.Valid() && level.w <= BITMAP_COLUMNS
    requires i < |pts| && Addressable(level.wallBmp.bitmap, pts) && UnitSteps(pts)
    ensures c == ShortCutsAt(level.wallBmp.bitmap, level.w, level.h, pts, i, 4)
  {
    var rows := level.wallBmp.bitmap;
    c := 0;
    for k := 0 to 4
      invariant c == ShortCutsAt(rows, level.w, level.h, pts, i, k)
    {
      var m := ALLMOVES2[k];
      var magic1 := ApplyDir(pts[i], m);
      var magic2 := ApplyDir(magic1, m);
      if !level.VectorInBounds(magic2) {
        continue;
      }
      if !level.wallBmp.GetV(magic1) || level.wallBmp.GetV(magic2) {
        continue;
      }
      var found := IndexFrom(pts, i, magic2);
      if found.None? {
        continue;
      }
      var i2 := found.value;
      LandingAhead(pts, i, m, i2);
      var difference := i2 - i - 2;
      if difference >= MIN_SAVINGS {
        c := c + 1;
      }
    }
  }

  method PartOne(level: Level, pts: seq<Vector>) returns (p1: nat)
    requires level.Valid() && level.w <= BITMAP_COLUMNS
    requires Addressable(level.wallBmp.bitmap, pts) && UnitSteps(pts)
    ensures p1 == ShortCuts(level.wallBmp.bitmap, level.w, level.h, pts, |pts|)
  {
    p1 := 0;
    for i := 0 to |pts|
      invariant p1 == ShortCuts(level.wallBmp.bitmap, level.w, level.h, pts, i)
    {
      var c := ShortCutsFrom(level, pts, i);
      p1 := p1 + c;
    }
  }

  // ---------------------------------------------------------------------
  // Part 2: long cheats between two path points

  // The saving of a cheat from point i to point j, when it is short enough
  // and saves enough.
  function Saving(pts: seq<Vector>, i: nat, j: nat): (r: Option<nat>)
    requires i + MIN_SAVINGS <= j < |pts|
    ensures r.Some? <==> Distance(pts[i], pts[j]) <= MAX_CHEAT && j - i - Distance(pts[i], pts[j]) >= MIN_SAVINGS
    ensures r.Some? ==> r.value >= MIN_SAVINGS && r.value + Distance(pts[i], pts[j]) == j - i
  {
    var dist := Distance(pts[i], pts[j]);
    if dist <= MAX_CHEAT && j - i - dist >= MIN_SAVINGS then Some(j - i - dist) else None
  }

  // The savings of cheats from point i to the points before hi.
  function SavingsFrom(pts: seq<Vector>, i: nat, hi: nat): seq<nat>
    requires hi <= |pts|
  {
    if hi <= i + MIN_SAVINGS then []
    else SavingsFrom(pts, i, hi - 1) + (match Saving(pts, i, hi - 1) case Some(d) => [d] case None => [])
  }

  // The savings of cheats from the first n points.
  function Savings(pts: seq<Vector>, n: nat): seq<nat>
    requires n <= |pts|
  {
    if n == 0 then [] else Savings(pts, n - 1) + SavingsFrom(pts, n - 1, |pts|)
  }

  // Every recorded saving is at least MIN_SAVINGS.
  lemma {:induction false} SavingsFromBound(pts: seq<Vector>, i: nat, hi: nat)
    requires hi <= |pts|
    ensures forall d :: d in SavingsFrom(pts, i, hi) ==> d >= MIN_SAVINGS
  {
    if hi > i + MIN_SAVINGS {
      SavingsFromBound(pts, i, hi - 1);
    }
  }

  lemma {:induction false} SavingsBound(pts: seq<Vector>, n: nat)
    requires n <= |pts|
    ensures forall d :: d in Savings(pts, n) ==> d >= MIN_SAVINGS
  {
    if n > 0 {
      SavingsBound(pts, n - 1);
      SavingsFromBound(pts, n - 1, |pts|);
    }
  }

  // A cheat from path point i to path point j: at most MAX_CHEAT steps
  // through walls that save at least MIN_SAVINGS steps of the path.
  ghost predicate Cheat(pts: seq<Vector>, i: nat, j: nat)
  {
    i + MIN_SAVINGS <= j < |pts| && Distance(pts[i], pts[j]) <= MAX_CHEAT && j - i - Distance(pts[i], pts[j]) >= MIN_SAVINGS
  }

  // The cheats from i to a point before hi, and from the first n points.
  ghost function CheatEnds(pts: seq<Vector>, i: nat, hi: nat): set<nat>
  {
    set j: nat | j < hi && Cheat(pts, i, j)
  }

  ghost function Cheats(pts: seq<Vector>, n: nat): set<(nat, nat)>
  {
    set i: nat, j: nat | i < n && j < |pts| && Cheat(pts, i, j) :: (i, j)
  }

  // One saving is recorded per cheat from point i.
  lemma {:induction false} SavingsFromCount(pts: seq<Vector>, i: nat, hi: nat)
    requires hi <= |pts|
    ensures |SavingsFrom(pts, i, hi)| == |CheatEnds(pts, i, hi)|
    decreases hi
  {
    if hi <= i + MIN_SAVINGS {
      assert CheatEnds(pts, i, hi) == {};
    } else {
      SavingsFromCount(pts, i, hi - 1);
      if Cheat(pts, i, hi - 1) {
        assert CheatEnds(pts, i, hi) == CheatEnds(pts, i, hi - 1) + {hi - 1};
      } else {
        assert CheatEnds(pts, i, hi) == CheatEnds(pts, i, hi - 1);
      }
    }
  }

  ghost function Paired(i: nat, js: set<nat>): set<(nat, nat)>
  {
    set j | j in js :: (i, j)
  }

  // Pairing every member of js with i keeps the count.
  lemma {:induction false} PairedCount(i: nat, js: set<nat>)
    ensures |Paired(i, js)| == |js|
    decreases |js|
  {
    if js != {} {
      var x :| x in js;
      PairedCount(i, js - {x});
      assert Paired(i, js) == Paired(i, js - {x}) + {(i, x)};
    }
  }

  // Part 2 counts the cheats: one saving per pair of path points a cheat
  // joins.
  lemma {:induction false} SavingsCount(pts: seq<Vector>, n: nat)
    requires n <= |pts|
    ensures |Savings(pts, n)| == |Cheats(pts, n)|
    decreases n
  {
    if n > 0 {
      SavingsCount(pts, n - 1);
      SavingsFromCount(pts, n - 1, |pts|);
      PairedCount(n - 1, CheatEnds(pts, n - 1, |pts|));
      CheatsSplit(pts, n);
    }
  }

  // The cheats from the first n points: those from the first n - 1, and
  // apart from them those from point n - 1.
  lemma CheatsSplit(pts: seq<Vector>, n: nat)
    requires 0 < n <= |pts|
    ensures Cheats(pts, n) == Cheats(pts, n - 1) + Paired(n - 1, CheatEnds(pts, n - 1, |pts|))
    ensures Cheats(pts, n - 1) * Paired(n - 1, CheatEnds(pts, n - 1, |pts|)) == {}
  {
  }

  // The inner loop over j from i + MIN_SAVINGS.
  method CheatsFrom(pts: seq<Vector>, i: nat, savings: seq<nat>) returns (savings': seq<nat>)
    requires i < |pts|
    ensures savings' == savings + SavingsFrom(pts, i, |pts|)
  {
    savings' := savings;
    if i + MIN_SAVINGS > |pts| {
      return;
    }
    for j := i + MIN_SAVINGS to |pts|
      invariant savings' == savings + SavingsFrom(pts, i, j)
    {
      var (v0, v1) := (pts[i], pts[j]);
      var dist := Distance(v0, v1);
      if dist <= MAX_CHEAT {
        var difference := j - i - dist;
        if difference >= MIN_SAVINGS {
          savings' := savings' + [difference];
        }
      }
    }
  }

  // `p2count` is the number of savings recorded.
  method PartTwo(pts: seq<Vector>) returns (p2: nat, savings: seq<nat>)
    ensures savings == Savings(pts, |pts|) && p2 == |savings|
    ensures forall d :: d in savings ==> d >= MIN_SAVINGS
    ensures p2 == |Cheats(pts, |pts|)|
  {
    savings := [];
    p2 := 0;
    for i := 0 to |pts|
      invariant savings == Savings(pts, i) && p2 == |savings|
    {
      savings := CheatsFrom(pts, i, savings);
      p2 := |savings|;
    }
    SavingsBound(pts, |pts|);
    SavingsCount(pts, |pts|);
  }

  // ---------------------------------------------------------------------
  // Both parts

  // The points of a shortest walk from the deer to the end, laid out from
  // the start; none when no walk of fewer than MAX_DEPTH moves exists.
  ghost predicate BestPoints(rows: seq<seq<bv64>>, start: Vector, end: Vector, pts: seq<Vector>)
    requires RowsShape(rows)
  {
    if pts == [] then forall p :: Search.WalkTo(rows, start, end, p) ==> |p| >= MAX_DEPTH
    else exists path :: Search.WalkTo(rows, start, end, path) && pts == PathPoints(start, path) &&
                        forall p :: Search.WalkTo(rows, start, end, p) ==> |path| <= |p|
  }

  /** `day20`: the shortest walk's points, then both counts over them. With
    * no walk there are no points and both counts are zero. */
  method Solve(level: Level) returns (p1: nat, p2: nat)
    requires level.Valid() && Search.Enclosed(level.wallBmp.bitmap, level.deerPos)
    requires level.startPos == level.deerPos && level.w <= BITMAP_COLUMNS
    ensures exists pts :: BestPoints(level.wallBmp.bitmap, level.deerPos, level.endPos, pts) &&
                          Addressable(level.wallBmp.bitmap, pts) &&
                          p1 == ShortCuts(level.wallBmp.bitmap, level.w, level.h, pts, |pts|) &&
                          p2 == |Savings(pts, |pts|)| && p2 == |Cheats(pts, |pts|)|
  {
    var rows := level.wallBmp.bitmap;
    var soln, _ := Search.FindBestPath18(level, MAX_DEPTH);
    var pts: seq<Vector> := [];
    if soln.Some? {
      pts := soln.value.visited;
      PathPointsUsable(rows, level.deerPos, soln.value.path);
      PathPointsFacts(level.startPos, soln.value.path);
    }
    p1 := PartOne(level, pts);
    var savings;
    p2, savings := PartTwo(pts);
    assert BestPoints(rows, level.deerPos, level.endPos, pts);
  }
}
