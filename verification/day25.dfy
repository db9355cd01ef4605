// src/day25.rs: lock and key schematics. Each schematic is seven rows of
// five columns followed by a blank line; a lock's top row is filled. A
// column's height is the number of '#' in the five middle rows, and a key
// fits a lock when no column's heights add up to more than five.
//
// The input arrives split into lines.
module Day25 {

  const COLUMNS: nat := 5
  const ROWS: nat := 5
  const SPAN: nat := 8

  // ---------------------------------------------------------------------
  // Schematics

  // The schematics start at lines 0, 8, 16, ... and the loop takes one
  // while a line six further on exists.
  function BlockCount(lines: seq<string>): nat
  {
    if |lines| <= 6 then 0 else (|lines| - 7) / SPAN + 1
  }

  lemma BlockCountExact(lines: seq<string>, b: nat)
    ensures b < BlockCount(lines) <==> SPAN * b + 6 < |lines|
  {
  }

  // Every line the loop reads is long enough: the top row for its first
  // character, the five middle rows for five columns.
  predicate WellFormed(lines: seq<string>)
  {
    forall b :: 0 <= b < BlockCount(lines) ==> Block(lines, SPAN * b)
  }

  // The '#' in column x among the first n middle rows below line idx.
  function ColumnCount(lines: seq<string>, idx: nat, x: nat, n: nat): (c: nat)
    requires n <= ROWS && idx + n < |lines| && x < COLUMNS
    requires forall r :: idx < r <= idx + n ==> |lines[r]| >= COLUMNS
    ensures c <= n
  {
    if n == 0 then 0 else ColumnCount(lines, idx, x, n - 1) + if lines[idx + n][x] == '#' then 1 else 0
  }

  predicate Block(lines: seq<string>, idx: nat)
  {
    idx + 6 < |lines| && |lines[idx]| >= 1 && forall r :: idx < r <= idx + ROWS ==> |lines[r]| >= COLUMNS
  }

  // The heights of the five columns of the schematic at line idx.
  function Heights(lines: seq<string>, idx: nat): (r: seq<nat>)
    requires Block(lines, idx)
    ensures |r| == COLUMNS && forall x :: 0 <= x < COLUMNS ==> r[x] <= ROWS
  {
    seq(COLUMNS, x requires 0 <= x < COLUMNS => ColumnCount(lines, idx, x, ROWS))
  }

  predicate IsLock(lines: seq<string>, idx: nat)
    requires Block(lines, idx)
  {
    lines[idx][0] == '#'
  }

  // `deets`: counted row by row, column by column, in a five-slot array.
  method ColumnHeights(lines: seq<string>, idx: nat) returns (deets: seq<nat>)
    requires Block(lines, idx)
    ensures deets == Heights(lines, idx)
  {
    var d := new nat[COLUMNS](_ => 0);
    for i := 1 to ROWS + 1
      invariant forall x :: 0 <= x < COLUMNS ==> d[x] == ColumnCount(lines, idx, x, i - 1)
    {
      for x := 0 to COLUMNS
        invariant forall y :: 0 <= y < x ==> d[y] == ColumnCount(lines, idx, y, i)
        invariant forall y :: x <= y < COLUMNS ==> d[y] == ColumnCount(lines, idx, y, i - 1)
      {
        if lines[idx + i][x] == '#' {
          d[x] := d[x] + 1;
        }
      }
    }
    deets := d[..];
  }

  function Locks(lines: seq<string>, k: nat): seq<seq<nat>>
    requires WellFormed(lines) && k <= BlockCount(lines)
  {
    if k == 0 then []
    else
      var idx := SPAN * (k - 1);
      assert Block(lines, idx);
      Locks(lines, k - 1) + if IsLock(lines, idx) then [Heights(lines, idx)] else []
  }

  function Keys(lines: seq<string>, k: nat): seq<seq<nat>>
    requires WellFormed(lines) && k <= BlockCount(lines)
  {
    if k == 0 then []
    else
      var idx := SPAN * (k - 1);
      assert Block(lines, idx);
      Keys(lines, k - 1) + if IsLock(lines, idx) then [] else [Heights(lines, idx)]
  }

  // Every schematic becomes either a lock or a key.
  lemma {:induction false} EachOnce(lines: seq<string>, k: nat)
    requires WellFormed(lines) && k <= BlockCount(lines)
    ensures |Locks(lines, k)| + |Keys(lines, k)| == k
  {
    if k > 0 {
      EachOnce(lines, k - 1);
    }
  }

  method Schematics(lines: seq<string>) returns (keys: seq<seq<nat>>, locks: seq<seq<nat>>)
    requires WellFormed(lines)
    ensures keys == Keys(lines, BlockCount(lines)) && locks == Locks(lines, BlockCount(lines))
  {
    var idx := 0;
    keys, locks := [], [];
    ghost var b := 0;
    while idx + 6 < |lines|
      invariant idx == SPAN * b && b <= BlockCount(lines)
      invariant keys == Keys(lines, b) && locks == Locks(lines, b)
      decreases |lines| - idx
    {
      BlockCountExact(lines, b);
      var deets := ColumnHeights(lines, idx);
      if lines[idx][0] == '#' {
        locks := locks + [deets];
      } else {
        keys := keys + [deets];
      }
      idx := idx + SPAN;
      b := b + 1;
    }
    BlockCountExact(lines, b);
  }

  // ---------------------------------------------------------------------
  // Fitting

  predicate Fits(key: seq<nat>, lock: seq<nat>)
    requires |key| == COLUMNS && |lock| == COLUMNS
  {
    forall i :: 0 <= i < COLUMNS ==> key[i] + lock[i] <= ROWS
  }

  // The column sums go into `result` and any sum over five marks the pair
  // as failed.
  method FitsPair(key: seq<nat>, lock: seq<nat>) returns (fit: bool)
    requires |key| == COLUMNS && |lock| == COLUMNS
    ensures fit <==> Fits(key, lock)
  {
    var result := new nat[COLUMNS](_ => 0);
    var failed := false;
    for i := 0 to COLUMNS
      invariant failed <==> exists j :: 0 <= j < i && key[j] + lock[j] > ROWS
      invariant forall j :: 0 <= j < i ==> result[j] == lock[j] + key[j]
    {
      result[i] := lock[i] + key[i];
      if result[i] > ROWS {
        failed := true;
      }
    }
    fit := !failed;
  }

  // Fitting locks for one key.
  function FitRow(key: seq<nat>, locks: seq<seq<nat>>): nat
    requires |key| == COLUMNS && forall j :: 0 <= j < |locks| ==> |locks[j]| == COLUMNS
    decreases |locks|
  {
    if locks == [] then 0
    else
      var n := |locks| - 1;
      FitRow(key, locks[..n]) + if Fits(key, locks[n]) then 1 else 0
  }

  function FitCount(keys: seq<seq<nat>>, locks: seq<seq<nat>>): nat
    requires forall i :: 0 <= i < |keys| ==> |keys[i]| == COLUMNS
    requires forall j :: 0 <= j < |locks| ==> |locks[j]| == COLUMNS
    decreases |keys|
  {
    if keys == [] then 0
    else
      var n := |keys| - 1;
      FitCount(keys[..n], locks) + FitRow(keys[n], locks)
  }

  // The pairs that fit, as a set of (key index, lock index).
  function FitPairs(keys: seq<seq<nat>>, locks: seq<seq<nat>>): set<(nat, nat)>
    requires forall i :: 0 <= i < |keys| ==> |keys[i]| == COLUMNS
    requires forall j :: 0 <= j < |locks| ==> |locks[j]| == COLUMNS
  {
    set i: nat, j: nat | i < |keys| && j < |locks| && Fits(keys[i], locks[j]) :: (i, j)
  }

  // The fitting pairs whose key is key number n.
  function RowPairs(key: seq<nat>, n: nat, locks: seq<seq<nat>>): set<(nat, nat)>
    requires |key| == COLUMNS && forall j :: 0 <= j < |locks| ==> |locks[j]| == COLUMNS
  {
    set j: nat | j < |locks| && Fits(key, locks[j]) :: (n, j)
  }

  // The count is the number of fitting pairs.
  lemma {:induction false} FitCountIsPairs(keys: seq<seq<nat>>, locks: seq<seq<nat>>)
    requires forall i :: 0 <= i < |keys| ==> |keys[i]| == COLUMNS
    requires forall j :: 0 <= j < |locks| ==> |locks[j]| == COLUMNS
    ensures FitCount(keys, locks) == |FitPairs(keys, locks)|
    decreases |keys|
  {
    if keys != [] {
      var n := |keys| - 1;
      FitCountIsPairs(keys[..n], locks);
      PairsSplit(keys, locks);
      FitRowIsRow(keys[n], n, locks);
    } else {
      assert FitPairs(keys, locks) == {};
    }
  }

  lemma PairsSplit(keys: seq<seq<nat>>, locks: seq<seq<nat>>)
    requires |keys| > 0
    requires forall i :: 0 <= i < |keys| ==> |keys[i]| == COLUMNS
    requires forall j :: 0 <= j < |locks| ==> |locks[j]| == COLUMNS
    ensures var n := |keys| - 1;
      FitPairs(keys, locks) == FitPairs(keys[..n], locks) + RowPairs(keys[n], n, locks) &&
      FitPairs(keys[..n], locks) !! RowPairs(keys[n], n, locks)
  {
    var n := |keys| - 1;
    forall p | p in FitPairs(keys, locks)
      ensures p in FitPairs(keys[..n], locks) + RowPairs(keys[n], n, locks)
    {
      if p.0 < n {
        assert keys[..n][p.0] == keys[p.0];
      }
    }
  }

  lemma {:induction false} FitRowIsRow(key: seq<nat>, n: nat, locks: seq<seq<nat>>)
    requires |key| == COLUMNS && forall j :: 0 <= j < |locks| ==> |locks[j]| == COLUMNS
    ensures FitRow(key, locks) == |RowPairs(key, n, locks)|
    decreases |locks|
  {
    var row := RowPairs(key, n, locks);
    if locks != [] {
      var m := |locks| - 1;
      FitRowIsRow(key, n, locks[..m]);
      var before := RowPairs(key, n, locks[..m]);
      if Fits(key, locks[m]) {
        assert row == before + {(n, m)};
        assert (n, m) !in before;
      } else {
        assert row == before;
      }
    } else {
      assert row == {};
    }
  }

  method CountFits(keys: seq<seq<nat>>, locks: seq<seq<nat>>) returns (fits: nat)
    requires forall i :: 0 <= i < |keys| ==> |keys[i]| == COLUMNS
    requires forall j :: 0 <= j < |locks| ==> |locks[j]| == COLUMNS
    ensures fits == FitCount(keys, locks)
  {
    fits := 0;
    for a := 0 to |keys|
      invariant fits == FitCount(keys[..a], locks)
    {
      for b := 0 to |locks|
        invariant fits == FitCount(keys[..a], locks) + FitRow(keys[a], locks[..b])
      {
        var fit := FitsPair(keys[a], locks[b]);
        if fit {
          fits := fits + 1;
        }
        assert locks[..b + 1][..b] == locks[..b];
      }
      assert locks[..|locks|] == locks;
      assert keys[..a + 1][..a] == keys[..a];
    }
    assert keys[..|keys|] == keys;
  }

  // `day25`: the number of key and lock pairs that fit.
  method Solve(lines: seq<string>) returns (fits: nat)
    requires WellFormed(lines)
    ensures var keys, locks := Keys(lines, BlockCount(lines)), Locks(lines, BlockCount(lines));
      (forall i :: 0 <= i < |keys| ==> |keys[i]| == COLUMNS) && (forall j :: 0 <= j < |locks| ==> |locks[j]| == COLUMNS) &&
      fits == |FitPairs(keys, locks)|
  {
    var keys, locks := Schematics(lines);
    SchematicsShape(lines, BlockCount(lines));
    fits := CountFits(keys, locks);
    FitCountIsPairs(keys, locks);
  }

  lemma {:induction false} SchematicsShape(lines: seq<string>, k: nat)
    requires WellFormed(lines) && k <= BlockCount(lines)
    ensures forall i :: 0 <= i < |Keys(lines, k)| ==> |Keys(lines, k)[i]| == COLUMNS
    ensures forall j :: 0 <= j < |Locks(lines, k)| ==> |Locks(lines, k)[j]| == COLUMNS
  {
    if k > 0 {
      SchematicsShape(lines, k - 1);
    }
  }
}
