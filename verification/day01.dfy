// src/day01.rs: two columns of numbers. Part one pairs the columns after
// sorting each and sums the distances; part two weighs every left number by
// how often it occurs in the right column.
//
// The numbers arrive already parsed, in reading order.
module Day01 {

  // ---------------------------------------------------------------------
  // Columns

  // Reading order alternates left, right, left, ...: even positions form
  // the left column and odd positions the right one.
  method SplitColumns(input: seq<nat>) returns (a: seq<nat>, b: seq<nat>)
    ensures |a| == (|input| + 1) / 2 && |b| == |input| / 2
    ensures forall i :: 0 <= i < |a| ==> a[i] == input[2 * i]
    ensures forall i :: 0 <= i < |b| ==> b[i] == input[2 * i + 1]
  {
    a, b := [], [];
    var i := 0;
    while i < |input|
      invariant 0 <= i <= |input|
      invariant |a| == (i + 1) / 2 && |b| == i / 2
      invariant forall j :: 0 <= j < |a| ==> a[j] == input[2 * j]
      invariant forall j :: 0 <= j < |b| ==> b[j] == input[2 * j + 1]
    {
      if i % 2 == 0 {
        a := a + [input[i]];
      } else {
        b := b + [input[i]];
      }
      i := i + 1;
    }
  }

  // ---------------------------------------------------------------------
  // Sorting (the standard library's `sort`)

  predicate Sorted(s: seq<nat>)
  {
    forall i, j :: 0 <= i < j < |s| ==> s[i] <= s[j]
  }

  function Insert(s: seq<nat>, x: nat): (r: seq<nat>)
    requires Sorted(s)
    ensures Sorted(r) && multiset(r) == multiset(s) + multiset{x}
    ensures |r| == |s| + 1
  {
    if s == [] then [x]
    else if x <= s[0] then
      SortedHead(s);
      ConsSorted(x, s);
      [x] + s
    else
      var t := Insert(s[1..], x);
      InsertBehind(s, x, t);
      [s[0]] + t
  }

  // A number no larger than any of an ascending sequence can go in front.
  lemma ConsSorted(h: nat, t: seq<nat>)
    requires Sorted(t) && forall y :: y in multiset(t) ==> h <= y
    ensures Sorted([h] + t)
  {
    forall i, j | 0 <= i < j < |[h] + t|
      ensures ([h] + t)[i] <= ([h] + t)[j]
    {
      if i == 0 {
        assert t[j - 1] in multiset(t);
      }
    }
  }

  // Inserting behind the head keeps the head in front.
  lemma InsertBehind(s: seq<nat>, x: nat, t: seq<nat>)
    requires Sorted(s) && s != [] && s[0] < x
    requires Sorted(t) && multiset(t) == multiset(s[1..]) + multiset{x}
    ensures Sorted([s[0]] + t) && multiset([s[0]] + t) == multiset(s) + multiset{x}
  {
    assert s == [s[0]] + s[1..];
    SortedHead(s);
    forall y | y in multiset(t)
      ensures s[0] <= y
    {
      if y != x {
        assert y in multiset(s[1..]);
        assert y in multiset(s);
      }
    }
    ConsSorted(s[0], t);
  }

  // The column in ascending order, with every number kept.
  function Sort(s: seq<nat>): (r: seq<nat>)
    ensures Sorted(r) && multiset(r) == multiset(s)
    ensures |r| == |s|
  {
    if s == [] then []
    else
      assert s == s[..|s| - 1] + [s[|s| - 1]];
      Insert(Sort(s[..|s| - 1]), s[|s| - 1])
  }

  // Two ascending sequences holding the same numbers are equal: the sorted
  // column depends only on which numbers it holds.
  lemma {:induction false} SortedUnique(a: seq<nat>, b: seq<nat>)
    requires Sorted(a) && Sorted(b) && multiset(a) == multiset(b)
    ensures a == b
    decreases |a|
  {
    assert |a| == |multiset(a)| == |multiset(b)| == |b|;
    if a != [] {
      SameHead(a, b);
      Behind(a);
      Behind(b);
      SortedUnique(a[1..], b[1..]);
      assert a == [a[0]] + a[1..] && b == [b[0]] + b[1..];
    }
  }

  // Ascending sequences with the same numbers start alike.
  lemma SameHead(a: seq<nat>, b: seq<nat>)
    requires Sorted(a) && Sorted(b) && multiset(a) == multiset(b) && a != [] && b != []
    ensures a[0] == b[0]
  {
    SortedHead(a);
    SortedHead(b);
    assert a[0] in multiset(b) && b[0] in multiset(a);
  }

  // What follows the head holds the other numbers and is still ascending.
  lemma Behind(a: seq<nat>)
    requires Sorted(a) && a != []
    ensures Sorted(a[1..]) && multiset(a[1..]) == multiset(a) - multiset{a[0]}
  {
    assert a == [a[0]] + a[1..];
  }

  // The head of an ascending sequence is its least element.
  lemma SortedHead(a: seq<nat>)
    requires Sorted(a) && a != []
    ensures forall x :: x in multiset(a) ==> a[0] <= x
  {
    forall x | x in multiset(a)
      ensures a[0] <= x
    {
      assert x in a;
    }
  }

  // ---------------------------------------------------------------------
  // Part one

  function AbsDiff(x: nat, y: nat): nat
  {
    if x < y then y - x else x - y
  }

  // The sum of the distances of the pairs a[i], b[i].
  function DistanceSum(a: seq<nat>, b: seq<nat>): nat
    requires |a| <= |b|
    decreases |a|
  {
    if a == [] then 0 else DistanceSum(a[..|a| - 1], b) + AbsDiff(a[|a| - 1], b[|a| - 1])
  }

  // The distances vanish exactly when the paired sequences agree.
  lemma {:induction false} DistanceSumZero(a: seq<nat>, b: seq<nat>)
    requires |a| == |b|
    ensures DistanceSum(a, b) == 0 <==> a == b
    decreases |a|
  {
    if a != [] {
      var n := |a| - 1;
      DistanceSumZero(a[..n], b[..n]);
      DistanceSumPrefix(a[..n], b);
      assert a == a[..n] + [a[n]] && b == b[..n] + [b[n]];
    }
  }

  // Only the first |a| entries of b matter.
  lemma {:induction false} DistanceSumPrefix(a: seq<nat>, b: seq<nat>)
    requires |a| <= |b|
    ensures DistanceSum(a, b) == DistanceSum(a, b[..|a|])
    decreases |a|
  {
    if a != [] {
      var n := |a| - 1;
      DistanceSumPrefix(a[..n], b);
      DistanceSumPrefix(a[..n], b[..|a|]);
      assert b[..|a|][..n] == b[..n];
    }
  }

  // The sum over the sorted columns (`day01` indexes the right column
  // at every position of the left one, so it must be at least as long).
  method TotalDistance(a: seq<nat>, b: seq<nat>) returns (sum: nat)
    requires |a| <= |b|
    ensures sum == DistanceSum(a, b)
  {
    sum := 0;
    for i := 0 to |a|
      invariant sum == DistanceSum(a[..i], b)
    {
      assert a[..i + 1][..i] == a[..i];
      sum := sum + AbsDiff(a[i], b[i]);
    }
    assert a[..|a|] == a;
  }

  // Part one is zero exactly when the two columns hold the same numbers.
  lemma PartOneZero(a: seq<nat>, b: seq<nat>)
    requires |a| == |b|
    ensures DistanceSum(Sort(a), Sort(b)) == 0 <==> multiset(a) == multiset(b)
  {
    DistanceSumZero(Sort(a), Sort(b));
    if multiset(a) == multiset(b) {
      SortedUnique(Sort(a), Sort(b));
    }
  }

  // ---------------------------------------------------------------------
  // Part two

  // How often each number occurs in the right column; absent numbers have
  // no entry.
  method CountOccurrences(b: seq<nat>) returns (counts: map<nat, nat>)
    ensures forall n :: n in counts <==> n in multiset(b)
    ensures forall n :: n in counts ==> counts[n] == multiset(b)[n]
  {
    counts := map[];
    for i := 0 to |b|
      invariant forall n :: n in counts <==> n in multiset(b[..i])
      invariant forall n :: n in counts ==> counts[n] == multiset(b[..i])[n]
    {
      assert b[..i + 1] == b[..i] + [b[i]];
      var n := b[i];
      if n in counts {
        counts := counts[n := counts[n] + 1];
      } else {
        counts := counts[n := 1];
      }
    }
    assert b[..|b|] == b;
  }

  // The similarity score: every number of a times its count in b.
  function Similarity(a: seq<nat>, b: seq<nat>): nat
    decreases |a|
  {
    if a == [] then 0 else Similarity(a[..|a| - 1], b) + a[|a| - 1] * multiset(b)[a[|a| - 1]]
  }

  method SimilarityScore(a: seq<nat>, b: seq<nat>) returns (score: nat)
    ensures score == Similarity(a, b)
  {
    var counts := CountOccurrences(b);
    score := 0;
    for i := 0 to |a|
      invariant score == Similarity(a[..i], b)
    {
      assert a[..i + 1][..i] == a[..i];
      var n := a[i];
      if n in counts {
        score := score + n * counts[n];
      } else {
        score := score + 0;
      }
    }
    assert a[..|a|] == a;
  }

  // One more number on the right adds it once for every equal number on the left.
  lemma {:induction false} SimilarityAppendRight(a: seq<nat>, b: seq<nat>, y: nat)
    ensures Similarity(a, b + [y]) == Similarity(a, b) + y * multiset(a)[y]
    decreases |a|
  {
    if a != [] {
      var n := |a| - 1;
      var x: nat, p: seq<nat> := a[n], a[..n];
      SimilarityAppendRight(p, b, y);
      assert a == p + [x];
      var e: nat := if x == y then 1 else 0;
      var ka: nat, kb: nat := multiset(p)[y], multiset(b)[x];
      assert multiset(a)[y] == ka + e;
      assert multiset(b + [y])[x] == kb + e;
      Regroup(Similarity(p, b), x, y, ka, kb, e);
    }
  }

  lemma Regroup(s: nat, x: nat, y: nat, ka: nat, kb: nat, e: nat)
    requires e == if x == y then 1 else 0
    ensures s + y * ka + x * (kb + e) == s + x * kb + y * (ka + e)
  {
    if x == y {
      assert x * (kb + 1) == x * kb + x;
      assert y * (ka + 1) == y * ka + y;
    }
  }

  // The similarity score does not depend on which column is the left one:
  // both sides count every equal pair (a[i], b[j]) once, weighted by its value.
  lemma {:induction false} SimilaritySymmetric(a: seq<nat>, b: seq<nat>)
    ensures Similarity(a, b) == Similarity(b, a)
    decreases |b|
  {
    if b == [] {
      SimilarityEmptyRight(a);
    } else {
      var c: seq<nat>, z: nat := b[..|b| - 1], b[|b| - 1];
      SimilaritySymmetric(a, c);
      SimilarityAppendRight(a, c, z);
      assert b == c + [z];
    }
  }

  lemma {:induction false} SimilarityEmptyRight(a: seq<nat>)
    ensures Similarity(a, []) == 0
    decreases |a|
  {
    if a != [] {
      SimilarityEmptyRight(a[..|a| - 1]);
    }
  }

  // ---------------------------------------------------------------------
  // The whole day

  // Both answers from the parsed numbers. The right column is indexed at
  // every position of the left one, so the count of numbers must be even.
  method Solve(input: seq<nat>) returns (sum: nat, score: nat)
    requires |input| % 2 == 0
    ensures var a, b := Evens(input), Odds(input);
      sum == DistanceSum(Sort(a), Sort(b)) && score == Similarity(Sort(a), b)
  {
    var a, b := SplitColumns(input);
    assert a == Evens(input) && b == Odds(input);
    var sa, sb := Sort(a), Sort(b);
    sum := TotalDistance(sa, sb);
    score := SimilarityScore(sa, b);
  }

  // The left and right columns as values.
  function Evens(s: seq<nat>): (r: seq<nat>)
    ensures |r| == (|s| + 1) / 2 && forall i :: 0 <= i < |r| ==> r[i] == s[2 * i]
  {
    seq((|s| + 1) / 2, i requires 0 <= i < (|s| + 1) / 2 => s[2 * i])
  }

  function Odds(s: seq<nat>): (r: seq<nat>)
    ensures |r| == |s| / 2 && forall i :: 0 <= i < |r| ==> r[i] == s[2 * i + 1]
  {
    seq(|s| / 2, i requires 0 <= i < |s| / 2 => s[2 * i + 1])
  }
}
