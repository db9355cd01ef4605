// src/day19.rs: towel patterns. The first line lists the towels (runs of
// colour letters), the lines from the third on are the patterns. Part one
// counts the patterns that can be laid out as a row of towels; part two
// adds up, over all patterns, the number of ways to do so.
//
// Part one uses the plain recursive search. Part two uses the Solver, which
// packs each towel into a fixed eight-byte buffer, records for a pattern
// which of its first one to eight bytes form a towel as the bits of one
// byte, and caches both lookups.
//
// The towels and patterns arrive already split into byte strings.
module Day19 {

  type Byte = b: int | 0 <= b < 256

  const CAPACITY: nat := 8

  function Min(a: nat, b: nat): nat
  {
    if a <= b then a else b
  }

  // ---------------------------------------------------------------------
  // Array8: up to eight bytes in a fixed buffer

  datatype Array8 = Array8(data: seq<Byte>, len: nat)

  // The buffer holds eight bytes, the first `len` in use and the rest zero.
  predicate Packed(a: Array8)
  {
    |a.data| == CAPACITY && a.len <= CAPACITY &&
    forall k :: a.len <= k < CAPACITY ==> a.data[k] == 0
  }

  // The bytes in use.
  function Bytes(a: Array8): seq<Byte>
    requires Packed(a)
  {
    a.data[..a.len]
  }

  // The buffer `from_slice` builds: the first min(8, |p|) bytes of p,
  // zero-padded.
  function Pack(p: seq<Byte>): (a: Array8)
    ensures Packed(a) && a.len == Min(CAPACITY, |p|) && Bytes(a) == p[..a.len]
  {
    var n := Min(CAPACITY, |p|);
    Array8(seq(CAPACITY, k requires 0 <= k < CAPACITY => if k < n then p[k] else 0), n)
  }

  // Buffers of at most eight bytes are equal exactly when their bytes are.
  lemma PackInjective(x: seq<Byte>, y: seq<Byte>)
    requires |x| <= CAPACITY && |y| <= CAPACITY
    ensures Pack(x) == Pack(y) <==> x == y
  {
    if Pack(x) == Pack(y) {
      assert x == Bytes(Pack(x)) && y == Bytes(Pack(y));
    }
  }

  // `from_slice` (and `from_vec`, which does the same on a vector).
  method FromSlice(p: seq<Byte>) returns (a: Array8)
    ensures Packed(a) && a.len == Min(CAPACITY, |p|)
    ensures forall k :: 0 <= k < CAPACITY ==> a.data[k] == if k < a.len then p[k] else 0
  {
    var data := new Byte[CAPACITY](_ => 0);
    var len := Min(CAPACITY, |p|);
    for i := 0 to len
      invariant forall k :: 0 <= k < CAPACITY ==> data[k] == if k < i then p[k] else 0
    {
      data[i] := p[i];
    }
    a := Array8(data[..], len);
  }

  lemma FromSliceIsPack(p: seq<Byte>, a: Array8)
    requires Packed(a) && a.len == Min(CAPACITY, |p|)
    requires forall k :: 0 <= k < CAPACITY ==> a.data[k] == if k < a.len then p[k] else 0
    ensures a == Pack(p)
  {
  }

  // `trunc(s)`: a new buffer of min(8, s) bytes copied from a. For s beyond
  // a's length the copied bytes are a's zero padding.
  function Trunc(a: Array8, s: nat): (r: Array8)
    requires Packed(a)
    ensures Packed(r) && r.len == Min(CAPACITY, s)
    ensures s <= a.len ==> Bytes(r) == Bytes(a)[..s]
  {
    var n := Min(CAPACITY, s);
    Array8(seq(CAPACITY, k requires 0 <= k < CAPACITY => if k < n then a.data[k] else 0), n)
  }

  // Truncating a packed pattern packs its prefix.
  lemma TruncPack(p: seq<Byte>, i: nat)
    requires i <= Min(CAPACITY, |p|)
    ensures Trunc(Pack(p), i) == Pack(p[..i])
  {
  }

  // `trunc_self(s)`: shortens the buffer in place to min(len, s) and clears
  // the bytes past the new length.
  method TruncSelf(a: Array8, s: nat) returns (r: Array8)
    requires Packed(a)
    ensures Packed(r) && r.len == Min(a.len, s)
    ensures Bytes(r) == Bytes(a)[..r.len]
  {
    var data := new Byte[CAPACITY](k requires 0 <= k < CAPACITY => a.data[k]);
    var len := Min(a.len, s);
    for i := len to CAPACITY
      invariant forall k :: 0 <= k < CAPACITY ==> data[k] == if len <= k < i then 0 else a.data[k]
    {
      data[i] := 0;
    }
    r := Array8(data[..], len);
  }

  // ---------------------------------------------------------------------
  // The recursive search

  predicate IsPrefix(t: seq<Byte>, p: seq<Byte>)
  {
    |t| <= |p| && p[..|t|] == t
  }

  // The towel pattern in the input matches one or more letters, so no
  // towel is empty.
  predicate Towels(tps: seq<seq<Byte>>)
  {
    forall t :: t in tps ==> |t| > 0
  }

  // `find_tp`: the towels that start the pattern, in their listed order.
  function FindTp(p: seq<Byte>, tps: seq<seq<Byte>>): (r: seq<seq<Byte>>)
    ensures forall t :: t in r <==> t in tps && IsPrefix(t, p)
    ensures |r| <= |tps|
    decreases |tps|
  {
    if tps == [] then []
    else
      var rest := FindTp(p, tps[1..]);
      assert tps == [tps[0]] + tps[1..];
      if IsPrefix(tps[0], p) then [tps[0]] + rest else rest
  }

  // Every entry of vtp is a towel that starts p.
  predicate Starts(p: seq<Byte>, vtp: seq<seq<Byte>>, tps: seq<seq<Byte>>)
  {
    forall i :: 0 <= i < |vtp| ==> vtp[i] in tps && IsPrefix(vtp[i], p)
  }

  // `find_any_soln`: the pattern is empty, or some towel starting it leaves
  // a rest that can be laid out.
  function FindAnySoln(p: seq<Byte>, tps: seq<seq<Byte>>): bool
    requires Towels(tps)
    decreases |p|, 1
  {
    if p == [] then true else AnyRest(p, FindTp(p, tps), tps)
  }

  // The loop over the candidate towels, returning at the first success.
  function AnyRest(p: seq<Byte>, vtp: seq<seq<Byte>>, tps: seq<seq<Byte>>): bool
    requires Towels(tps) && p != [] && Starts(p, vtp, tps)
    decreases |p|, 0, |vtp|
  {
    if vtp == [] then false
    else FindAnySoln(p[|vtp[0]|..], tps) || AnyRest(p, vtp[1..], tps)
  }

  // `find_all_soln`: one way for the empty pattern, otherwise the ways left
  // by each towel that starts it, added up.
  function FindAllSoln(p: seq<Byte>, tps: seq<seq<Byte>>): (count: nat)
    requires Towels(tps)
    ensures p == [] ==> count == 1
    decreases |p|, 1
  {
    if p == [] then 1 else SumRest(p, FindTp(p, tps), tps)
  }

  function SumRest(p: seq<Byte>, vtp: seq<seq<Byte>>, tps: seq<seq<Byte>>): nat
    requires Towels(tps) && p != [] && Starts(p, vtp, tps)
    decreases |p|, 0, |vtp|
  {
    if vtp == [] then 0
    else FindAllSoln(p[|vtp[0]|..], tps) + SumRest(p, vtp[1..], tps)
  }

  // The search succeeds exactly when the count is positive.
  lemma {:induction false} AnyIffCount(p: seq<Byte>, tps: seq<seq<Byte>>)
    requires Towels(tps)
    ensures FindAnySoln(p, tps) <==> FindAllSoln(p, tps) > 0
    decreases |p|, 1
  {
    if p != [] {
      AnyRestIffSum(p, FindTp(p, tps), tps);
    }
  }

  lemma {:induction false} AnyRestIffSum(p: seq<Byte>, vtp: seq<seq<Byte>>, tps: seq<seq<Byte>>)
    requires Towels(tps) && p != [] && Starts(p, vtp, tps)
    ensures AnyRest(p, vtp, tps) <==> SumRest(p, vtp, tps) > 0
    decreases |p|, 0, |vtp|
  {
    if vtp != [] {
      AnyIffCount(p[|vtp[0]|..], tps);
      AnyRestIffSum(p, vtp[1..], tps);
    }
  }

  function Concat(ds: seq<seq<Byte>>): seq<Byte>
    decreases |ds|
  {
    if ds == [] then [] else ds[0] + Concat(ds[1..])
  }

  // ds lays out p as a row of towels.
  predicate LaysOut(ds: seq<seq<Byte>>, p: seq<Byte>, tps: seq<seq<Byte>>)
  {
    (forall i :: 0 <= i < |ds| ==> ds[i] in tps) && Concat(ds) == p
  }

  lemma {:induction false} SumRestCovers(p: seq<Byte>, vtp: seq<seq<Byte>>, tps: seq<seq<Byte>>, t: seq<Byte>)
    requires Towels(tps) && p != [] && Starts(p, vtp, tps) && t in vtp
    ensures SumRest(p, vtp, tps) >= FindAllSoln(p[|t|..], tps)
    decreases |vtp|
  {
    if vtp[0] != t {
      SumRestCovers(p, vtp[1..], tps, t);
    }
  }

  lemma {:induction false} SumRestPick(p: seq<Byte>, vtp: seq<seq<Byte>>, tps: seq<seq<Byte>>) returns (t: seq<Byte>)
    requires Towels(tps) && p != [] && Starts(p, vtp, tps) && SumRest(p, vtp, tps) > 0
    ensures t in vtp && FindAllSoln(p[|t|..], tps) > 0
    decreases |vtp|
  {
    if FindAllSoln(p[|vtp[0]|..], tps) > 0 {
      t := vtp[0];
    } else {
      t := SumRestPick(p, vtp[1..], tps);
    }
  }

  // A positive count yields a layout.
  lemma {:induction false} CountedLayout(p: seq<Byte>, tps: seq<seq<Byte>>) returns (ds: seq<seq<Byte>>)
    requires Towels(tps) && FindAllSoln(p, tps) > 0
    ensures LaysOut(ds, p, tps)
    decreases |p|
  {
    if p == [] {
      ds := [];
    } else {
      var t := SumRestPick(p, FindTp(p, tps), tps);
      var rest := CountedLayout(p[|t|..], tps);
      ds := [t] + rest;
      assert ds[1..] == rest;
      assert p == t + p[|t|..];
    }
  }

  // A layout makes the count positive.
  lemma {:induction false} LayoutCounted(p: seq<Byte>, tps: seq<seq<Byte>>, ds: seq<seq<Byte>>)
    requires Towels(tps) && LaysOut(ds, p, tps)
    ensures FindAllSoln(p, tps) > 0
    decreases |ds|
  {
    if p != [] {
      var t := ds[0];
      assert ds[0] in tps;
      assert p == t + Concat(ds[1..]);
      assert IsPrefix(t, p);
      assert p[|t|..] == Concat(ds[1..]);
      LayoutCounted(p[|t|..], tps, ds[1..]);
      SumRestCovers(p, FindTp(p, tps), tps, t);
    }
  }

  // Part one's test: a pattern is counted exactly when it has a layout.
  lemma Possible(p: seq<Byte>, tps: seq<seq<Byte>>)
    requires Towels(tps)
    ensures FindAnySoln(p, tps) <==> exists ds :: LaysOut(ds, p, tps)
  {
    AnyIffCount(p, tps);
    if FindAnySoln(p, tps) {
      var ds := CountedLayout(p, tps);
    } else {
      forall ds | LaysOut(ds, p, tps)
        ensures false
      {
        LayoutCounted(p, tps, ds);
      }
    }
  }

  // ---------------------------------------------------------------------
  // Counting by length

  // The ways left after the first `len` bytes, when they form a towel of
  // the list L.
  function Term(p: seq<Byte>, L: seq<seq<Byte>>, tps: seq<seq<Byte>>, len: nat): nat
    requires Towels(tps)
  {
    if 1 <= len <= |p| && p[..len] in L then FindAllSoln(p[len..], tps) else 0
  }

  // The terms for lengths 8, 7, ..., 8 - j + 1: what the loop of
  // `get_num_combos` has added after j rounds.
  function LenSum(p: seq<Byte>, L: seq<seq<Byte>>, tps: seq<seq<Byte>>, j: nat): nat
    requires Towels(tps) && j <= CAPACITY
  {
    if j == 0 then 0 else LenSum(p, L, tps, j - 1) + Term(p, L, tps, CAPACITY - (j - 1))
  }

  // The terms the single towel t contributes.
  function OneLen(p: seq<Byte>, t: seq<Byte>, tps: seq<seq<Byte>>, j: nat): nat
    requires Towels(tps) && j <= CAPACITY
  {
    if j == 0 then 0
    else
      var here := if CAPACITY - (j - 1) == |t| && IsPrefix(t, p) then FindAllSoln(p[|t|..], tps) else 0;
      OneLen(p, t, tps, j - 1) + here
  }

  lemma {:induction false} OneLenValue(p: seq<Byte>, t: seq<Byte>, tps: seq<seq<Byte>>, j: nat)
    requires Towels(tps) && j <= CAPACITY && 1 <= |t| <= CAPACITY
    ensures OneLen(p, t, tps, j) ==
      if CAPACITY - j < |t| && IsPrefix(t, p) then FindAllSoln(p[|t|..], tps) else 0
  {
    if j > 0 {
      OneLenValue(p, t, tps, j - 1);
    }
  }

  lemma {:induction false} LenSumEmpty(p: seq<Byte>, tps: seq<seq<Byte>>, j: nat)
    requires Towels(tps) && j <= CAPACITY
    ensures LenSum(p, [], tps, j) == 0
  {
    if j > 0 {
      LenSumEmpty(p, tps, j - 1);
    }
  }

  lemma {:induction false} LenSumSplit(p: seq<Byte>, t: seq<Byte>, L: seq<seq<Byte>>, tps: seq<seq<Byte>>, j: nat)
    requires Towels(tps) && j <= CAPACITY && t !in L
    ensures LenSum(p, [t] + L, tps, j) == LenSum(p, L, tps, j) + OneLen(p, t, tps, j)
  {
    if j > 0 {
      LenSumSplit(p, t, L, tps, j - 1);
      var len := CAPACITY - (j - 1);
      if 1 <= len <= |p| {
        assert p[..len] in [t] + L <==> p[..len] == t || p[..len] in L;
        assert p[..len] == t <==> len == |t| && IsPrefix(t, p);
      }
    }
  }

  // The towels' own terms, in listed order.
  function SumOver(p: seq<Byte>, L: seq<seq<Byte>>, tps: seq<seq<Byte>>): nat
    requires Towels(tps)
    decreases |L|
  {
    if L == [] then 0
    else (if IsPrefix(L[0], p) then FindAllSoln(p[|L[0]|..], tps) else 0) + SumOver(p, L[1..], tps)
  }

  lemma {:induction false} SumRestOver(p: seq<Byte>, L: seq<seq<Byte>>, tps: seq<seq<Byte>>)
    requires Towels(tps) && p != [] && (forall t :: t in L ==> t in tps)
    ensures SumRest(p, FindTp(p, L), tps) == SumOver(p, L, tps)
    decreases |L|
  {
    if L != [] {
      SumRestOver(p, L[1..], tps);
      if IsPrefix(L[0], p) {
        assert FindTp(p, L)[1..] == FindTp(p, L[1..]);
      }
    }
  }

  predicate Distinct(L: seq<seq<Byte>>)
  {
    forall i, j :: 0 <= i < j < |L| ==> L[i] != L[j]
  }

  // No towel is longer than the buffer.
  predicate Short(L: seq<seq<Byte>>)
  {
    forall t :: t in L ==> 1 <= |t| <= CAPACITY
  }

  lemma {:induction false} SumOverByLength(p: seq<Byte>, L: seq<seq<Byte>>, tps: seq<seq<Byte>>)
    requires Towels(tps) && Distinct(L) && Short(L)
    ensures SumOver(p, L, tps) == LenSum(p, L, tps, CAPACITY)
    decreases |L|
  {
    if L == [] {
      LenSumEmpty(p, tps, CAPACITY);
    } else {
      assert L == [L[0]] + L[1..];
      assert L[0] !in L[1..];
      SumOverByLength(p, L[1..], tps);
      LenSumSplit(p, L[0], L[1..], tps, CAPACITY);
      OneLenValue(p, L[0], tps, CAPACITY);
    }
  }

  // Counting by length agrees with the recursive count when every towel
  // fits the buffer and none is listed twice.
  lemma CountByLength(p: seq<Byte>, tps: seq<seq<Byte>>)
    requires Distinct(tps) && Short(tps) && p != []
    ensures LenSum(p, tps, tps, CAPACITY) == FindAllSoln(p, tps)
  {
    SumRestOver(p, tps, tps);
    SumOverByLength(p, tps, tps);
  }

  // ---------------------------------------------------------------------
  // Length bits

  function Packs(tps: seq<seq<Byte>>): (r: seq<Array8>)
    ensures |r| == |tps| && forall i :: 0 <= i < |tps| ==> r[i] == Pack(tps[i])
  {
    seq(|tps|, i requires 0 <= i < |tps| => Pack(tps[i]))
  }

  // Bit k of r.
  function Bit(r: nat, k: nat): bool
  {
    if k == 0 then r % 2 == 1 else Bit(r / 2, k - 1)
  }

  // The first i bytes of a form a packed towel.
  predicate Fits(tps: seq<Array8>, a: Array8, i: nat)
    requires Packed(a)
  {
    i <= a.len && Trunc(a, i) in tps
  }

  // The byte `get_lengths` builds after i rounds: one bit per length,
  // shifted up each round.
  function LengthBits(tps: seq<Array8>, a: Array8, i: nat): (r: nat)
    requires Packed(a)
    ensures r < Pow2(i)
  {
    if i == 0 then 0 else 2 * LengthBits(tps, a, i - 1) + (if Fits(tps, a, i) then 1 else 0)
  }

  function Pow2(k: nat): (r: nat)
    ensures r >= 1
  {
    if k == 0 then 1 else 2 * Pow2(k - 1)
  }

  // Bit 8 - i of the lengths byte says whether the first i bytes form a
  // towel.
  lemma {:induction false} LengthBitsMeaning(tps: seq<Array8>, a: Array8, i: nat, j: nat)
    requires Packed(a) && j < i
    ensures Bit(LengthBits(tps, a, i), j) <==> Fits(tps, a, i - j)
  {
    var prev := LengthBits(tps, a, i - 1);
    var b := if Fits(tps, a, i) then 1 else 0;
    assert (2 * prev + b) / 2 == prev;
    if j > 0 {
      LengthBitsMeaning(tps, a, i - 1, j - 1);
    }
  }

  // ---------------------------------------------------------------------
  // The solver

  // Every cached answer is the one the lookup would give.
  ghost predicate CachesAgree(tps: seq<Array8>, tpsMap: map<Array8, bool>, lengthMap: map<Array8, nat>)
  {
    (forall a :: a in tpsMap ==> tpsMap[a] == (a in tps)) &&
    (forall a :: a in lengthMap ==> Packed(a) && lengthMap[a] == LengthBits(tps, a, CAPACITY))
  }

  class Solver {
    var tps: seq<Array8>
    var tpsMap: map<Array8, bool>
    var lengthMap: map<Array8, nat>
    // The towels the buffers were packed from.
    ghost var towels: seq<seq<Byte>>

    // The buffers are the packed towels and the caches agree with them.
    ghost predicate Valid()
      reads this
    {
      Towels(towels) && tps == Packs(towels) && CachesAgree(tps, tpsMap, lengthMap)
    }

    // `Solver::new`: the towels packed in order, both caches empty.
    constructor(ts: seq<seq<Byte>>)
      requires Towels(ts)
      ensures Valid() && towels == ts && tps == Packs(ts)
      ensures tpsMap == map[] && lengthMap == map[]
    {
      var nps: seq<Array8> := [];
      for i := 0 to |ts|
        invariant nps == Packs(ts[..i])
      {
        var a := FromSlice(ts[i]);
        FromSliceIsPack(ts[i], a);
        nps := nps + [a];
      }
      assert ts[..|ts|] == ts;
      tps, tpsMap, lengthMap := nps, map[], map[];
      towels := ts;
    }

    // `lookup`: whether a is one of the packed towels.
    method Lookup(a: Array8) returns (b: bool)
      ensures b <==> a in tps
    {
      b := a in tps;
    }

    // `cached_lookup`: the same answer, remembered in the map.
    method CachedLookup(a: Array8) returns (b: bool)
      requires Valid()
      modifies this
      ensures Valid() && (b <==> a in tps)
      ensures tps == old(tps) && towels == old(towels) && lengthMap == old(lengthMap)
      ensures tpsMap == old(tpsMap)[a := b]
    {
      if a in tpsMap {
        b := tpsMap[a];
      } else {
        b := a in tps;
        tpsMap := tpsMap[a := b];
      }
    }

    // `get_lengths`: for i = 1..8 shift the byte left and set its low bit
    // when the first i bytes form a towel.
    method GetLengths(a: Array8) returns (r: nat)
      requires Packed(a)
      ensures r == LengthBits(tps, a, CAPACITY) && r < 256
    {
      r := 0;
      for i := 1 to CAPACITY + 1
        invariant r == LengthBits(tps, a, i - 1)
      {
        r := r * 2;
        if i <= a.len {
          var x := Lookup(Trunc(a, i));
          if x {
            r := r + 1;
          }
        }
      }
    }

    // `cached_get_lengths`: the same byte, remembered in the map.
    method CachedGetLengths(a: Array8) returns (r: nat)
      requires Valid() && Packed(a)
      modifies this
      ensures Valid() && r == LengthBits(tps, a, CAPACITY)
      ensures tps == old(tps) && towels == old(towels) && tpsMap == old(tpsMap)
      ensures lengthMap == old(lengthMap)[a := r]
    {
      if a in lengthMap {
        r := lengthMap[a];
      } else {
        r := GetLengths(a);
        lengthMap := lengthMap[a := r];
      }
    }

    // `get_num_combos`: for lengths 8 down to 1 whose bit is set, one way
    // when the towel is the whole pattern, otherwise the ways to lay out
    // the rest.
    method GetNumCombos(p: seq<Byte>) returns (r: nat)
      requires Valid()
      modifies this
      ensures Valid() && tps == old(tps) && towels == old(towels)
      ensures r == Combos(tps, p)
      decreases |p|, 1
    {
      r := 0;
      var a := FromSlice(p);
      FromSliceIsPack(p, a);
      var lengths := CachedGetLengths(a);
      for j := 0 to CAPACITY
        invariant Valid() && tps == old(tps) && towels == old(towels)
        invariant lengths == LengthBits(tps, Pack(p), CAPACITY)
        invariant r == ComboSum(tps, p, j)
      {
        var add := CombosAt(p, lengths, j);
        r := r + add;
      }
    }

    // One round of the loop: the ways added for length 8 - j.
    method CombosAt(p: seq<Byte>, lengths: nat, j: nat) returns (add: nat)
      requires Valid() && j < CAPACITY && lengths == LengthBits(tps, Pack(p), CAPACITY)
      modifies this
      ensures Valid() && tps == old(tps) && towels == old(towels)
      ensures add == ComboTerm(tps, p, CAPACITY - j)
      decreases |p|, 0
    {
      var len := CAPACITY - j;
      LengthBitsMeaning(tps, Pack(p), CAPACITY, j);
      add := 0;
      if Bit(lengths, j) {
        if len == |p| {
          add := 1;
        } else if len <= |p| {
          add := GetNumCombos(p[len..]);
        }
      }
    }
  }

  // The count `get_num_combos` computes over the packed towels tps.
  function Combos(tps: seq<Array8>, p: seq<Byte>): nat
    decreases |p|, 1
  {
    ComboSum(tps, p, CAPACITY)
  }

  // The terms for lengths 8, 7, ..., 8 - j + 1.
  function ComboSum(tps: seq<Array8>, p: seq<Byte>, j: nat): nat
    requires j <= CAPACITY
    decreases |p|, 0, j
  {
    if j == 0 then 0 else ComboSum(tps, p, j - 1) + ComboTerm(tps, p, CAPACITY - (j - 1))
  }

  // The ways left after a packed towel of `len` bytes, when there is one.
  function ComboTerm(tps: seq<Array8>, p: seq<Byte>, len: nat): nat
    requires 1 <= len <= CAPACITY
    decreases |p|, 0, 0
  {
    if !Fits(tps, Pack(p), len) then 0
    else if len == |p| then 1
    else if len < |p| then Combos(tps, p[len..])
    else 0
  }

  // The bit for `len` is set exactly when the pattern's first `len`
  // bytes form a towel.
  lemma PrefixShortLookup(p: seq<Byte>, towels: seq<seq<Byte>>, tps: seq<Array8>, len: nat)
    requires Short(towels) && tps == Packs(towels) && 1 <= len <= CAPACITY
    ensures Fits(tps, Pack(p), len) <==> len <= |p| && p[..len] in towels
  {
    if len <= |p| {
      TruncPack(p, len);
      if p[..len] in towels {
        var k :| 0 <= k < |towels| && towels[k] == p[..len];
        assert tps[k] == Pack(p[..len]);
      }
      if Pack(p[..len]) in tps {
        var k :| 0 <= k < |tps| && tps[k] == Pack(p[..len]);
        PackInjective(towels[k], p[..len]);
      }
    }
  }

  // With towels of at most eight bytes, each listed once, the solver's
  // count is the recursive count for every non-empty pattern (and 0 for
  // the empty one, where no length bit is set).
  lemma {:induction false} CombosCount(p: seq<Byte>, towels: seq<seq<Byte>>)
    requires Short(towels) && Distinct(towels)
    ensures Combos(Packs(towels), p) == if p == [] then 0 else FindAllSoln(p, towels)
    decreases |p|, 1
  {
    ComboSumCount(p, towels, CAPACITY);
    if p == [] {
      LenSumEmptyPattern(towels, CAPACITY);
    } else {
      CountByLength(p, towels);
    }
  }

  lemma {:induction false} ComboSumCount(p: seq<Byte>, towels: seq<seq<Byte>>, j: nat)
    requires Short(towels) && Distinct(towels) && j <= CAPACITY
    ensures ComboSum(Packs(towels), p, j) == LenSum(p, towels, towels, j)
    decreases |p|, 0, j
  {
    if j > 0 {
      ComboSumCount(p, towels, j - 1);
      ComboTermCount(p, towels, CAPACITY - (j - 1));
    }
  }

  lemma {:induction false} ComboTermCount(p: seq<Byte>, towels: seq<seq<Byte>>, len: nat)
    requires Short(towels) && Distinct(towels) && 1 <= len <= CAPACITY
    ensures ComboTerm(Packs(towels), p, len) == Term(p, towels, towels, len)
    decreases |p|, 0, 0
  {
    PrefixShortLookup(p, towels, Packs(towels), len);
    if len < |p| && p[..len] in towels {
      CombosCount(p[len..], towels);
    }
  }

  lemma {:induction false} LenSumEmptyPattern(tps: seq<seq<Byte>>, j: nat)
    requires Towels(tps) && j <= CAPACITY
    ensures LenSum([], tps, tps, j) == 0
  {
    if j > 0 {
      LenSumEmptyPattern(tps, j - 1);
    }
  }

  // ---------------------------------------------------------------------
  // `day19`

  // Part one: the patterns the recursive search can lay out.
  function CountPossible(patterns: seq<seq<Byte>>, tps: seq<seq<Byte>>): (n: nat)
    requires Towels(tps)
    ensures n <= |patterns|
    decreases |patterns|
  {
    if patterns == [] then 0
    else
      var here := if FindAnySoln(patterns[|patterns| - 1], tps) then 1 else 0;
      CountPossible(patterns[..|patterns| - 1], tps) + here
  }

  // Part two: the ways to lay out each non-empty pattern, added up.
  function TotalWays(patterns: seq<seq<Byte>>, tps: seq<seq<Byte>>): nat
    requires Towels(tps)
    decreases |patterns|
  {
    if patterns == [] then 0
    else
      var p := patterns[|patterns| - 1];
      TotalWays(patterns[..|patterns| - 1], tps) + (if p == [] then 0 else FindAllSoln(p, tps))
  }

  // The solver's counts added up.
  function SolverTotal(tps: seq<Array8>, patterns: seq<seq<Byte>>): nat
    decreases |patterns|
  {
    if patterns == [] then 0
    else SolverTotal(tps, patterns[..|patterns| - 1]) + Combos(tps, patterns[|patterns| - 1])
  }

  lemma {:induction false} SolverTotalWays(towels: seq<seq<Byte>>, patterns: seq<seq<Byte>>)
    requires Short(towels) && Distinct(towels)
    ensures SolverTotal(Packs(towels), patterns) == TotalWays(patterns, towels)
    decreases |patterns|
  {
    if patterns != [] {
      SolverTotalWays(towels, patterns[..|patterns| - 1]);
      CombosCount(patterns[|patterns| - 1], towels);
    }
  }

  method PartOne(tps: seq<seq<Byte>>, patterns: seq<seq<Byte>>) returns (p1: nat)
    requires Towels(tps)
    ensures p1 == CountPossible(patterns, tps)
  {
    p1 := 0;
    for i := 0 to |patterns|
      invariant p1 == CountPossible(patterns[..i], tps)
    {
      assert patterns[..i + 1][..i] == patterns[..i];
      if FindAnySoln(patterns[i], tps) {
        p1 := p1 + 1;
      }
    }
    assert patterns[..|patterns|] == patterns;
  }

  method PartTwo(tps: seq<seq<Byte>>, patterns: seq<seq<Byte>>) returns (p2: nat)
    requires Towels(tps)
    ensures p2 == SolverTotal(Packs(tps), patterns)
  {
    p2 := 0;
    var solver := new Solver(tps);
    for i := 0 to |patterns|
      invariant solver.Valid() && solver.tps == Packs(tps)
      invariant p2 == SolverTotal(Packs(tps), patterns[..i])
    {
      assert patterns[..i + 1][..i] == patterns[..i];
      var count := solver.GetNumCombos(patterns[i]);
      p2 := p2 + count;
    }
    assert patterns[..|patterns|] == patterns;
  }

  method Solve(tps: seq<seq<Byte>>, patterns: seq<seq<Byte>>) returns (p1: nat, p2: nat)
    requires Towels(tps)
    ensures p1 == CountPossible(patterns, tps)
    ensures Short(tps) && Distinct(tps) ==> p2 == TotalWays(patterns, tps)
  {
    p1 := PartOne(tps, patterns);
    p2 := PartTwo(tps, patterns);
    if Short(tps) && Distinct(tps) {
      SolverTotalWays(tps, patterns);
    }
  }
}
