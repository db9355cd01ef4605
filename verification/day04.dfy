// src/day04.rs: a word search. Part one counts the four-letter windows,
// horizontal, vertical or diagonal, that read XMAS forwards or backwards;
// part two counts the A cells crossed by two diagonal M-A-S words.
//
// The grid arrives as its lines; it is rectangular, at least 3 by 3.
module Day04 {

  const XMAS: string := "XMAS"
  const SAMX: string := "SAMX"

  // Every line as long as the first, and the subtractions w - 3 and h - 3
  // of `day04` kept non-negative.
  predicate Grid(g: seq<string>)
  {
    |g| >= 3 && |g[0]| >= 3 && forall y :: 0 <= y < |g| ==> |g[y]| == |g[0]|
  }

  function Width(g: seq<string>): nat
    requires Grid(g)
  {
    |g[0]|
  }

  // ---------------------------------------------------------------------
  // Part one

  datatype Dir = Across | Down | DownRight | DownLeft

  // The window starting at (x, y) lies inside the grid.
  predicate Fits(g: seq<string>, y: nat, x: nat, d: Dir)
    requires Grid(g)
  {
    match d
    case Across => x + 3 < Width(g)
    case Down => y + 3 < |g|
    case DownRight => x + 3 < Width(g) && y + 3 < |g|
    case DownLeft => x >= 3 && y + 3 < |g|
  }

  // The four cells of a window, in reading order from (x, y).
  function Window(g: seq<string>, y: nat, x: nat, d: Dir): (w: string)
    requires Grid(g) && y < |g| && x < Width(g) && Fits(g, y, x, d)
    ensures |w| == 4 && w[0] == g[y][x]
  {
    match d
    case Across => [g[y][x], g[y][x + 1], g[y][x + 2], g[y][x + 3]]
    case Down => [g[y][x], g[y + 1][x], g[y + 2][x], g[y + 3][x]]
    case DownRight => [g[y][x], g[y + 1][x + 1], g[y + 2][x + 2], g[y + 3][x + 3]]
    case DownLeft => [g[y][x], g[y + 1][x - 1], g[y + 2][x - 2], g[y + 3][x - 3]]
  }

  function Reverse(s: string): (r: string)
    ensures |r| == |s| && forall i :: 0 <= i < |s| ==> r[i] == s[|s| - 1 - i]
  {
    if s == [] then [] else Reverse(s[1..]) + [s[0]]
  }

  // 1 when the window exists and reads XMAS one way or the other.
  function Found(g: seq<string>, y: nat, x: nat, d: Dir): nat
    requires Grid(g) && y < |g| && x < Width(g)
  {
    if Fits(g, y, x, d) && (Window(g, y, x, d) == XMAS || Reverse(Window(g, y, x, d)) == XMAS) then 1 else 0
  }

  function FoundAt(g: seq<string>, y: nat, x: nat): nat
    requires Grid(g) && y < |g| && x < Width(g)
  {
    Found(g, y, x, Across) + Found(g, y, x, Down) + Found(g, y, x, DownRight) + Found(g, y, x, DownLeft)
  }

  // Windows found starting in row y before column n, and in rows before m.
  function RowFound(g: seq<string>, y: nat, n: nat): nat
    requires Grid(g) && y < |g| && n <= Width(g)
  {
    if n == 0 then 0 else RowFound(g, y, n - 1) + FoundAt(g, y, n - 1)
  }

  function GridFound(g: seq<string>, m: nat): nat
    requires Grid(g) && m <= |g|
  {
    if m == 0 then 0 else GridFound(g, m - 1) + RowFound(g, m - 1, Width(g))
  }

  // `day04` adds one for a window equal to XMAS and one for a window
  // equal to SAMX; a window is at most one of the two, and SAMX is XMAS
  // backwards.
  lemma Tally(w: string)
    requires |w| == 4
    ensures (if w == XMAS then 1 else 0) + (if w == SAMX then 1 else 0) ==
            (if w == XMAS || Reverse(w) == XMAS then 1 else 0)
  {
    assert XMAS[0] != SAMX[0];
    if Reverse(w) == XMAS {
      assert w == SAMX by {
        forall i | 0 <= i < 4
          ensures w[i] == SAMX[i]
        {
          assert Reverse(w)[3 - i] == w[i];
        }
      }
    }
    if w == SAMX {
      assert Reverse(w) == XMAS;
    }
  }

  function Tallied(g: seq<string>, y: nat, x: nat, d: Dir): nat
    requires Grid(g) && y < |g| && x < Width(g) && Fits(g, y, x, d)
    ensures Tallied(g, y, x, d) == Found(g, y, x, d)
  {
    Tally(Window(g, y, x, d));
    (if Window(g, y, x, d) == XMAS then 1 else 0) + (if Window(g, y, x, d) == SAMX then 1 else 0)
  }

  method PartOne(g: seq<string>) returns (c: nat)
    requires Grid(g)
    ensures c == GridFound(g, |g|)
  {
    var h, w := |g|, Width(g);
    c := 0;
    for y := 0 to h
      invariant c == GridFound(g, y)
    {
      for x := 0 to w
        invariant c == GridFound(g, y) + RowFound(g, y, x)
      {
        c := CountAt(g, y, x, c);
      }
    }
  }

  // The body of the inner loop: the four windows from (x, y) that fit,
  // each tallied onto the count.
  method CountAt(g: seq<string>, y: nat, x: nat, c0: nat) returns (c: nat)
    requires Grid(g) && y < |g| && x < Width(g)
    ensures c == c0 + FoundAt(g, y, x)
  {
    var h, w := |g|, Width(g);
    c := c0;
    FoundGuarded(g, y, x);
    if x < w - 3 {
      c := c + Tallied(g, y, x, Across);
    }
    if y < h - 3 {
      c := c + Tallied(g, y, x, Down);
    }
    if x < w - 3 && y < h - 3 {
      c := c + Tallied(g, y, x, DownRight);
    }
    if x >= 3 && y < h - 3 {
      c := c + Tallied(g, y, x, DownLeft);
    }
  }

  // `day04`'s bounds tests are exactly the windows that fit.
  lemma FoundGuarded(g: seq<string>, y: nat, x: nat)
    requires Grid(g) && y < |g| && x < Width(g)
    ensures var w, h := Width(g), |g|;
      FoundAt(g, y, x) ==
        (if x < w - 3 then Found(g, y, x, Across) else 0) +
        (if y < h - 3 then Found(g, y, x, Down) else 0) +
        (if x < w - 3 && y < h - 3 then Found(g, y, x, DownRight) else 0) +
        (if x >= 3 && y < h - 3 then Found(g, y, x, DownLeft) else 0)
  {
  }

  // ---------------------------------------------------------------------
  // Part two

  predicate MasPair(a: char, b: char)
  {
    (a, b) == ('M', 'S') || (a, b) == ('S', 'M')
  }

  // An interior A whose two diagonals both read M-A-S one way or the other.
  predicate Cross(g: seq<string>, y: nat, x: nat)
    requires Grid(g) && 1 <= y < |g| - 1 && 1 <= x < Width(g) - 1
  {
    g[y][x] == 'A' && MasPair(g[y - 1][x - 1], g[y + 1][x + 1]) && MasPair(g[y - 1][x + 1], g[y + 1][x - 1])
  }

  function RowCrosses(g: seq<string>, y: nat, n: nat): nat
    requires Grid(g) && 1 <= y < |g| - 1 && n < Width(g)
  {
    if n <= 1 then 0 else RowCrosses(g, y, n - 1) + if Cross(g, y, n - 1) then 1 else 0
  }

  function GridCrosses(g: seq<string>, m: nat): nat
    requires Grid(g) && m < |g|
  {
    if m <= 1 then 0 else GridCrosses(g, m - 1) + RowCrosses(g, m - 1, Width(g) - 1)
  }

  method PartTwo(g: seq<string>) returns (c2: nat)
    requires Grid(g)
    ensures c2 == GridCrosses(g, |g| - 1)
  {
    var h, w := |g|, Width(g);
    c2 := 0;
    for y := 1 to h - 1
      invariant c2 == GridCrosses(g, y)
    {
      for x := 1 to w - 1
        invariant c2 == GridCrosses(g, y) + RowCrosses(g, y, x)
      {
        if g[y][x] == 'A' {
          var passCount := 0;
          passCount := passCount + if MasPair(g[y - 1][x - 1], g[y + 1][x + 1]) then 1 else 0;
          passCount := passCount + if MasPair(g[y - 1][x + 1], g[y + 1][x - 1]) then 1 else 0;
          c2 := c2 + if passCount == 2 then 1 else 0;
        }
      }
    }
  }
}
