// src/day08.rs: antennas on a map, one frequency per letter or digit.
// Every two antennas of one frequency create antinodes: in part one the two
// points beyond either antenna at the pair's own spacing, in part two every
// map point on the line through them at a whole multiple of that spacing.
// Each part counts the distinct antinodes on the map.
module Day08 {
  import opened Wrappers
  import opened Grids

  // The frequencies, in the order `day08` visits them: a-z, A-Z, 0-9.
  const NODES: seq<Byte> :=
    seq(26, i requires 0 <= i < 26 => (97 + i) as Byte) +
    seq(26, i requires 0 <= i < 26 => (65 + i) as Byte) +
    seq(10, i requires 0 <= i < 10 => (48 + i) as Byte)

  // ---------------------------------------------------------------------
  // Antennas and antinodes

  // Two different cells holding the same frequency.
  ghost predicate Antennas(grid: Grid, node: Byte, p: XY, q: XY)
    reads grid
    requires grid.Valid()
  {
    p != q && grid.HasXY(p) && grid.HasXY(q) && grid.Get(p) == Some(node) && grid.Get(q) == Some(node)
  }

  // The point beyond p, on the far side from q, at the pair's spacing.
  function Reflect(p: XY, q: XY): XY
  {
    Sub(p, Sub(q, p))
  }

  function Scale(k: int, d: XY): XY
  {
    XY(k * d.x, k * d.y)
  }

  // a lies on the line through p and q at a whole multiple of q - p from p.
  ghost predicate OnLine(a: XY, p: XY, q: XY)
  {
    exists k: int :: a == Add(p, Scale(k, Sub(q, p)))
  }

  // Part one's antinodes from the first n frequencies.
  ghost predicate Antinode1(grid: Grid, a: XY, n: nat)
    reads grid
    requires grid.Valid() && n <= |NODES|
  {
    exists i, p, q :: 0 <= i < n && Antennas(grid, NODES[i], p, q) && a == Reflect(p, q)
  }

  // Part two's antinodes from the first n frequencies.
  ghost predicate Antinode2(grid: Grid, a: XY, n: nat)
    reads grid
    requires grid.Valid() && n <= |NODES|
  {
    grid.HasXY(a) && exists i, p, q :: 0 <= i < n && Antennas(grid, NODES[i], p, q) && OnLine(a, p, q)
  }

  // ---------------------------------------------------------------------
  // `combinations(2)`: the pairs of positions in list order

  function Pairs(s: seq<XY>): seq<(XY, XY)>
    decreases |s|
  {
    if s == [] then [] else PairsWith(s[0], s[1..]) + Pairs(s[1..])
  }

  // The first position paired with each later one.
  function PairsWith(x: XY, t: seq<XY>): (r: seq<(XY, XY)>)
    ensures |r| == |t| && forall j :: 0 <= j < |t| ==> r[j] == (x, t[j])
  {
    seq(|t|, j requires 0 <= j < |t| => (x, t[j]))
  }

  // Every listed pair is two positions in list order ...
  lemma {:induction false} PairsSound(s: seq<XY>)
    ensures forall k :: 0 <= k < |Pairs(s)| ==> exists i, j :: 0 <= i < j < |s| && Pairs(s)[k] == (s[i], s[j])
    decreases |s|
  {
    if s != [] {
      var t := s[1..];
      var head := PairsWith(s[0], t);
      PairsSound(t);
      forall k | 0 <= k < |Pairs(s)|
        ensures exists i, j :: 0 <= i < j < |s| && Pairs(s)[k] == (s[i], s[j])
      {
        if k < |head| {
          assert Pairs(s)[k] == (s[0], s[k + 1]);
        } else {
          var i, j :| 0 <= i < j < |t| && Pairs(t)[k - |head|] == (t[i], t[j]);
          assert Pairs(s)[k] == (s[i + 1], s[j + 1]);
        }
      }
    } else {
      assert Pairs(s) == [];
    }
  }

  // ... and every two positions in list order are listed.
  lemma {:induction false} PairsComplete(s: seq<XY>)
    ensures forall i, j :: 0 <= i < j < |s| ==> (s[i], s[j]) in Pairs(s)
    decreases |s|
  {
    if s != [] {
      var t := s[1..];
      var head := PairsWith(s[0], t);
      PairsComplete(t);
      forall i, j | 0 <= i < j < |s|
        ensures (s[i], s[j]) in Pairs(s)
      {
        if i == 0 {
          assert head[j - 1] == (s[i], s[j]);
        } else {
          assert (t[i - 1], t[j - 1]) in Pairs(t);
        }
      }
    }
  }

  // The cells that `Find` returns for one frequency.
  ghost predicate Found(grid: Grid, node: Byte, positions: seq<XY>)
    reads grid
    requires grid.Valid()
  {
    && (forall i :: 0 <= i < |positions| ==> grid.HasXY(positions[i]) && grid.Get(positions[i]) == Some(node))
    && (forall p :: grid.HasXY(p) && grid.Get(p) == Some(node) ==> p in positions)
    && (forall i, j :: 0 <= i < j < |positions| ==> RowMajorBefore(positions[i], positions[j]))
  }

  // The pairs of found positions are the antenna pairs of that frequency,
  // each unordered pair once.
  lemma PairsAreAntennas(grid: Grid, node: Byte, positions: seq<XY>, p: XY, q: XY)
    requires grid.Valid() && Found(grid, node, positions)
    ensures (p, q) in Pairs(positions) ==> Antennas(grid, node, p, q)
    ensures Antennas(grid, node, p, q) ==> (p, q) in Pairs(positions) || (q, p) in Pairs(positions)
  {
    var r := Pairs(positions);
    PairsSound(positions);
    PairsComplete(positions);
    if (p, q) in r {
      assert Antennas(grid, node, p, q) by {
        var k :| 0 <= k < |r| && r[k] == (p, q);
        var i, j :| 0 <= i < j < |positions| && r[k] == (positions[i], positions[j]);
        assert RowMajorBefore(p, q);
      }
    }
    if Antennas(grid, node, p, q) {
      assert (p, q) in r || (q, p) in r by {
        var i :| 0 <= i < |positions| && positions[i] == p;
        var j :| 0 <= j < |positions| && positions[j] == q;
        if i < j {
          assert (positions[i], positions[j]) in r;
        } else {
          assert (positions[j], positions[i]) in r;
        }
      }
    }
  }

  // ---------------------------------------------------------------------
  // Part one

  predicate Reflects(a: XY, pair: (XY, XY))
  {
    a == Reflect(pair.0, pair.1) || a == Reflect(pair.1, pair.0)
  }

  // a is reflected by one of the first k pairs.
  ghost predicate FromPairs1(a: XY, pairs: seq<(XY, XY)>, k: nat)
  {
    exists k' :: 0 <= k' < k && k' < |pairs| && Reflects(a, pairs[k'])
  }

  lemma FromPairs1Step(pairs: seq<(XY, XY)>, k: nat)
    requires k < |pairs|
    ensures forall a :: FromPairs1(a, pairs, k + 1) <==> FromPairs1(a, pairs, k) || Reflects(a, pairs[k])
  {
  }

  lemma NodeStep1(grid: Grid, n: nat, positions: seq<XY>, before: seq<XY>, after: seq<XY>)
    requires grid.Valid() && n < |NODES| && Found(grid, NODES[n], positions)
    requires forall a :: a in before <==> Antinode1(grid, a, n)
    requires forall a :: a in after <==> a in before || FromPairs1(a, Pairs(positions), |Pairs(positions)|)
    ensures forall a :: a in after <==> Antinode1(grid, a, n + 1)
  {
    var r := Pairs(positions);
    forall a | a in after && a !in before
      ensures Antinode1(grid, a, n + 1)
    {
      var k :| 0 <= k < |r| && k < |r| && Reflects(a, r[k]);
      PairsAreAntennas(grid, NODES[n], positions, r[k].0, r[k].1);
      if a != Reflect(r[k].0, r[k].1) {
        assert Antennas(grid, NODES[n], r[k].1, r[k].0);
      }
    }
    forall a | Antinode1(grid, a, n + 1) && !Antinode1(grid, a, n)
      ensures a in after
    {
      var i, p, q :| 0 <= i < n + 1 && Antennas(grid, NODES[i], p, q) && a == Reflect(p, q);
      assert i == n;
      PairsAreAntennas(grid, NODES[n], positions, p, q);
      if (p, q) in r {
        var k :| 0 <= k < |r| && r[k] == (p, q);
        assert Reflects(a, r[k]);
      } else {
        var k :| 0 <= k < |r| && r[k] == (q, p);
        assert Reflects(a, r[k]);
      }
    }
    forall a | Antinode1(grid, a, n)
      ensures Antinode1(grid, a, n + 1)
    {
      var i, p, q :| 0 <= i < n && Antennas(grid, NODES[i], p, q) && a == Reflect(p, q);
      assert 0 <= i < n + 1 && Antennas(grid, NODES[i], p, q) && a == Reflect(p, q);
    }
  }

  // The inner loop for one frequency: both reflections of every pair
  // appended.
  method AddReflections(pairs: seq<(XY, XY)>, before: seq<XY>) returns (antinodes: seq<XY>)
    ensures forall a :: a in antinodes <==> a in before || FromPairs1(a, pairs, |pairs|)
  {
    antinodes := before;
    for k := 0 to |pairs|
      invariant forall a :: a in antinodes <==> a in before || FromPairs1(a, pairs, k)
    {
      var d := Sub(pairs[k].1, pairs[k].0);
      var an0 := Sub(pairs[k].0, d);
      var an1 := Add(pairs[k].1, d);
      antinodes := antinodes + [an0, an1];
      assert forall a :: Reflects(a, pairs[k]) <==> a == an0 || a == an1;
      FromPairs1Step(pairs, k);
    }
  }

  method Antinodes1(grid: Grid) returns (antinodes: seq<XY>)
    requires grid.Valid()
    ensures forall a :: a in antinodes <==> Antinode1(grid, a, |NODES|)
  {
    antinodes := [];
    for n := 0 to |NODES|
      invariant forall a :: a in antinodes <==> Antinode1(grid, a, n)
    {
      var positions := grid.Find(NODES[n]);
      var after := AddReflections(Pairs(positions), antinodes);
      NodeStep1(grid, n, positions, antinodes, after);
      antinodes := after;
    }
  }

  // ---------------------------------------------------------------------
  // `sort` then `dedup`, in the derived order of `XY` (x, then y)

  predicate Less(a: XY, b: XY)
  {
    a.x < b.x || (a.x == b.x && a.y < b.y)
  }

  predicate StrictlySorted(s: seq<XY>)
  {
    forall i, j :: 0 <= i < j < |s| ==> Less(s[i], s[j])
  }

  function InsertSorted(s: seq<XY>, v: XY): (r: seq<XY>)
    requires StrictlySorted(s)
    ensures StrictlySorted(r)
    ensures forall u :: u in r <==> u in s || u == v
    decreases |s|
  {
    if s == [] || Less(v, s[0]) then [v] + s
    else if v == s[0] then s
    else
      var t := InsertSorted(s[1..], v);
      assert forall u :: u in t ==> Less(s[0], u);
      [s[0]] + t
  }

  function SortDedup(s: seq<XY>): (r: seq<XY>)
    ensures StrictlySorted(r)
    ensures forall u :: u in r <==> u in s
    decreases |s|
  {
    if s == [] then [] else InsertSorted(SortDedup(s[..|s| - 1]), s[|s| - 1])
  }

  // The entries on the map, in order.
  function KeepOnMap(grid: Grid, s: seq<XY>): (r: seq<XY>)
    reads grid
    requires StrictlySorted(s)
    ensures StrictlySorted(r)
    ensures forall u :: u in r <==> u in s && grid.IsValid(u)
    decreases |s|
  {
    if s == [] then []
    else
      var rest := KeepOnMap(grid, s[1..]);
      assert forall u :: u in rest ==> Less(s[0], u);
      if grid.IsValid(s[0]) then [s[0]] + rest else rest
  }

  // Part one: the distinct antinodes that lie on the map.
  method PartOne(grid: Grid) returns (count: nat, unique: seq<XY>)
    requires grid.Valid()
    ensures StrictlySorted(unique) && count == |unique|
    ensures forall a :: a in unique <==> grid.HasXY(a) && Antinode1(grid, a, |NODES|)
  {
    var antinodes := Antinodes1(grid);
    unique := KeepOnMap(grid, SortDedup(antinodes));
    count := |unique|;
  }

  // ---------------------------------------------------------------------
  // Part two

  // Whole multiples of one coordinate lie between those of the ends.
  lemma MulBetween(a: int, c: int, b: int, t: int)
    requires a <= c <= b
    ensures (a * t <= c * t <= b * t) || (b * t <= c * t <= a * t)
  {
    if t >= 0 {
      assert (c - a) * t >= 0 && (b - c) * t >= 0;
    } else {
      assert (c - a) * t <= 0 && (b - c) * t <= 0;
    }
  }

  // The map is convex: between two map points of a line every multiple is
  // on the map too.
  lemma OnMapBetween(grid: Grid, p: XY, d: XY, a: int, c: int, b: int)
    requires grid.Valid() && a <= c <= b
    requires grid.HasXY(Add(p, Scale(a, d))) && grid.HasXY(Add(p, Scale(b, d)))
    ensures grid.HasXY(Add(p, Scale(c, d)))
  {
    MulBetween(a, c, b, d.x);
    MulBetween(a, c, b, d.y);
  }

  // A walk from a map point by a non-zero step leaves the map within
  // w + h steps.
  lemma StepsBounded(grid: Grid, p: XY, d: XY, k: int)
    requires grid.Valid() && d != XY(0, 0) && k >= 1
    requires grid.HasXY(p) && grid.HasXY(Add(p, Scale(k, d)))
    ensures k < grid.w + grid.h
  {
    if d.x != 0 {
      assert k * d.x >= k || k * d.x <= -k;
    } else {
      assert k * d.y >= k || k * d.y <= -k;
    }
  }

  // One while loop: the points start, start + d, start + 2d, ... pushed
  // while they lie on the map.
  method WalkOut(grid: Grid, start: XY, d: XY) returns (pts: seq<XY>, ghost stop: nat)
    requires grid.Valid() && d != XY(0, 0)
    ensures forall a :: a in pts <==> exists j :: 0 <= j < stop && a == Add(start, Scale(j, d))
    ensures forall a :: a in pts ==> grid.HasXY(a)
    ensures !grid.HasXY(Add(start, Scale(stop, d)))
  {
    pts := [];
    var an := start;
    stop := 0;
    assert an == Add(start, Scale(0, d));
    while grid.HasXY(an)
      invariant an == Add(start, Scale(stop, d))
      invariant forall a :: a in pts <==> exists j :: 0 <= j < stop && a == Add(start, Scale(j, d))
      invariant forall a :: a in pts ==> grid.HasXY(a)
      invariant stop > 0 ==> grid.HasXY(start)
      decreases grid.w + grid.h - stop
    {
      if stop > 0 {
        StepsBounded(grid, start, d, stop);
      }
      pts := pts + [an];
      an := Add(an, d);
      stop := stop + 1;
      assert an == Add(start, Scale(stop, d));
    }
  }

  // The points the two while loops push for one pair: both antennas, then
  // the steps by d away from each until the map ends.
  method LinePoints(grid: Grid, p0: XY, p1: XY) returns (pts: seq<XY>)
    requires grid.Valid() && grid.HasXY(p0) && grid.HasXY(p1) && p0 != p1
    ensures forall a :: a in pts <==> grid.HasXY(a) && OnLine(a, p0, p1)
  {
    var d := Sub(p1, p0);
    var back, stop0 := WalkOut(grid, Sub(p0, d), Neg(d));
    assert Sub(p0, d) == Add(p0, Scale(1, Neg(d)));
    WalkCovered(grid, p0, Neg(d), 1, back, stop0);
    var on, stop1 := WalkOut(grid, Add(p1, d), d);
    assert Add(p1, d) == Add(p0, Scale(2, d));
    WalkCovered(grid, p0, d, 2, on, stop1);
    pts := [p0, p1] + back + on;
    LineCovered(grid, p0, p1, back, on, pts);
  }

  // The walk out from base + c*d (c >= 1) holds exactly the map points at
  // multiples of at least c.
  lemma WalkCovered(grid: Grid, base: XY, d: XY, c: int, walk: seq<XY>, stop: nat)
    requires grid.Valid() && grid.HasXY(base) && c >= 1
    requires forall a :: a in walk <==> exists j :: 0 <= j < stop && a == Add(Add(base, Scale(c, d)), Scale(j, d))
    requires !grid.HasXY(Add(Add(base, Scale(c, d)), Scale(stop, d)))
    ensures forall a :: a in walk ==> exists k :: k >= c && a == Add(base, Scale(k, d))
    ensures forall k: int :: k >= c && grid.HasXY(Add(base, Scale(k, d))) ==> Add(base, Scale(k, d)) in walk
  {
    var start := Add(base, Scale(c, d));
    forall a | a in walk
      ensures exists k :: k >= c && a == Add(base, Scale(k, d))
    {
      var j :| 0 <= j < stop && a == Add(start, Scale(j, d));
      assert a == Add(base, Scale(c + j, d));
    }
    assert Add(start, Scale(stop, d)) == Add(base, Scale(c + stop, d));
    assert base == Add(base, Scale(0, d));
    forall k: int | k >= c && grid.HasXY(Add(base, Scale(k, d)))
      ensures Add(base, Scale(k, d)) in walk
    {
      assert Add(base, Scale(k, d)) == Add(start, Scale(k - c, d));
      if k - c >= stop {
        OnMapBetween(grid, base, d, 0, c + stop, k);
      }
    }
  }

  lemma ScaleNeg(k: int, d: XY)
    ensures Scale(k, Neg(d)) == Scale(-k, d)
  {
  }

  lemma LineCovered(grid: Grid, p0: XY, p1: XY, back: seq<XY>, on: seq<XY>, pts: seq<XY>)
    requires grid.Valid() && grid.HasXY(p0) && grid.HasXY(p1)
    requires var d := Sub(p1, p0);
      && (forall a :: a in back ==> exists k :: k >= 1 && a == Add(p0, Scale(k, Neg(d))))
      && (forall k: int :: k >= 1 && grid.HasXY(Add(p0, Scale(k, Neg(d)))) ==> Add(p0, Scale(k, Neg(d))) in back)
      && (forall a :: a in back ==> grid.HasXY(a))
      && (forall a :: a in on ==> exists k :: k >= 2 && a == Add(p0, Scale(k, d)))
      && (forall k: int :: k >= 2 && grid.HasXY(Add(p0, Scale(k, d))) ==> Add(p0, Scale(k, d)) in on)
      && (forall a :: a in on ==> grid.HasXY(a))
    requires pts == [p0, p1] + back + on
    ensures forall a :: a in pts <==> grid.HasXY(a) && OnLine(a, p0, p1)
  {
    var d := Sub(p1, p0);
    assert p0 == Add(p0, Scale(0, d)) && p1 == Add(p0, Scale(1, d));
    forall a | a in back
      ensures OnLine(a, p0, p1)
    {
      var k :| k >= 1 && a == Add(p0, Scale(k, Neg(d)));
      ScaleNeg(k, d);
    }
    forall a | grid.HasXY(a) && OnLine(a, p0, p1)
      ensures a in pts
    {
      var k :| a == Add(p0, Scale(k, d));
      if k <= -1 {
        ScaleNeg(-k, d);
        assert a == Add(p0, Scale(-k, Neg(d)));
      } else if k == 0 {
        assert a == p0;
      } else if k == 1 {
        assert a == p1;
      }
    }
  }

  // The line through p and q is the line through q and p.
  lemma OnLineSymmetric(a: XY, p: XY, q: XY)
    requires OnLine(a, p, q)
    ensures OnLine(a, q, p)
  {
    var k :| a == Add(p, Scale(k, Sub(q, p)));
    assert a == Add(q, Scale(1 - k, Sub(p, q)));
  }

  // a is a map point on the line of one of the first k pairs.
  ghost predicate FromPairs2(grid: Grid, a: XY, pairs: seq<(XY, XY)>, k: nat)
    reads grid
  {
    grid.HasXY(a) && exists k' :: 0 <= k' < k && k' < |pairs| && OnLine(a, pairs[k'].0, pairs[k'].1)
  }

  lemma FromPairs2Step(grid: Grid, pairs: seq<(XY, XY)>, k: nat)
    requires k < |pairs|
    ensures forall a :: FromPairs2(grid, a, pairs, k + 1) <==>
      FromPairs2(grid, a, pairs, k) || (grid.HasXY(a) && OnLine(a, pairs[k].0, pairs[k].1))
  {
  }

  lemma NodeStep2(grid: Grid, n: nat, positions: seq<XY>, before: seq<XY>, after: seq<XY>)
    requires grid.Valid() && n < |NODES| && Found(grid, NODES[n], positions)
    requires forall a :: a in before <==> Antinode2(grid, a, n)
    requires forall a :: a in after <==> a in before || FromPairs2(grid, a, Pairs(positions), |Pairs(positions)|)
    ensures forall a :: a in after <==> Antinode2(grid, a, n + 1)
  {
    var r := Pairs(positions);
    forall a | a in after && a !in before
      ensures Antinode2(grid, a, n + 1)
    {
      var k :| 0 <= k < |r| && k < |r| && OnLine(a, r[k].0, r[k].1);
      PairsAreAntennas(grid, NODES[n], positions, r[k].0, r[k].1);
    }
    forall a | Antinode2(grid, a, n + 1) && !Antinode2(grid, a, n)
      ensures a in after
    {
      var i, p, q :| 0 <= i < n + 1 && Antennas(grid, NODES[i], p, q) && OnLine(a, p, q);
      assert i == n;
      PairsAreAntennas(grid, NODES[n], positions, p, q);
      if (p, q) in r {
        var k :| 0 <= k < |r| && r[k] == (p, q);
        assert OnLine(a, r[k].0, r[k].1);
      } else {
        var k :| 0 <= k < |r| && r[k] == (q, p);
        OnLineSymmetric(a, p, q);
        assert OnLine(a, r[k].0, r[k].1);
      }
    }
    forall a | Antinode2(grid, a, n)
      ensures Antinode2(grid, a, n + 1)
    {
      var i, p, q :| 0 <= i < n && Antennas(grid, NODES[i], p, q) && OnLine(a, p, q);
      assert 0 <= i < n + 1 && Antennas(grid, NODES[i], p, q) && OnLine(a, p, q);
    }
  }

  // The inner loop for one frequency: every pair's line points appended.
  method AddLines(grid: Grid, node: Byte, positions: seq<XY>, before: seq<XY>) returns (antinodes: seq<XY>)
    requires grid.Valid() && Found(grid, node, positions)
    ensures forall a :: a in antinodes <==> a in before || FromPairs2(grid, a, Pairs(positions), |Pairs(positions)|)
  {
    var pairs := Pairs(positions);
    antinodes := before;
    for k := 0 to |pairs|
      invariant forall a :: a in antinodes <==> a in before || FromPairs2(grid, a, pairs, k)
    {
      PairsAreAntennas(grid, node, positions, pairs[k].0, pairs[k].1);
      var pts := LinePoints(grid, pairs[k].0, pairs[k].1);
      antinodes := antinodes + pts;
      FromPairs2Step(grid, pairs, k);
    }
  }

  method Antinodes2(grid: Grid) returns (antinodes: seq<XY>)
    requires grid.Valid()
    ensures forall a :: a in antinodes <==> Antinode2(grid, a, |NODES|)
  {
    antinodes := [];
    for n := 0 to |NODES|
      invariant forall a :: a in antinodes <==> Antinode2(grid, a, n)
    {
      var positions := grid.Find(NODES[n]);
      var after := AddLines(grid, NODES[n], positions, antinodes);
      NodeStep2(grid, n, positions, antinodes, after);
      antinodes := after;
    }
  }

  // Part two: the distinct map points on some antenna pair's line.
  method PartTwo(grid: Grid) returns (count: nat, unique: seq<XY>)
    requires grid.Valid()
    ensures StrictlySorted(unique) && count == |unique|
    ensures forall a :: a in unique <==> Antinode2(grid, a, |NODES|)
  {
    var antinodes := Antinodes2(grid);
    unique := SortDedup(antinodes);
    count := |unique|;
  }

  // Part one's antinodes on the map are part two's too (k = -1 and k = 2).
  lemma PartOneInPartTwo(grid: Grid, a: XY)
    requires grid.Valid() && grid.HasXY(a) && Antinode1(grid, a, |NODES|)
    ensures Antinode2(grid, a, |NODES|)
  {
    var i, p, q :| 0 <= i < |NODES| && Antennas(grid, NODES[i], p, q) && a == Reflect(p, q);
    assert a == Add(p, Scale(-1, Sub(q, p)));
    assert OnLine(a, p, q);
    assert 0 <= i < |NODES| && Antennas(grid, NODES[i], p, q) && OnLine(a, p, q);
  }
}
