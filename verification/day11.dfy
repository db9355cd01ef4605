// src/day11.rs: stones that change on every blink. A 0 becomes a 1, a
// stone with an even number of digits splits into its two halves, any
// other stone is multiplied by 2024. The stones are kept as a tree that
// grows one level per split and is flattened every fifth blink; the
// answers are the stone counts after 25 and 75 blinks.
//
// Stones are u32: the multiplication by 2024 wraps modulo 2^32.
module Day11 {

  const U32: nat := 0x1_0000_0000

  // The blinks after which the two answers are taken.
  const PART_ONE: nat := 25
  const PART_TWO: nat := 75

  datatype Space = Stone(n: nat) | Stones(v: seq<Space>)

  // ---------------------------------------------------------------------
  // Decimal digits

  function Pow10(k: nat): (p: nat)
    ensures p >= 1
  {
    if k == 0 then 1 else 10 * Pow10(k - 1)
  }

  // `to_string`: the decimal digits, most significant first.
  function Digits(n: nat): (ds: seq<nat>)
    ensures |ds| >= 1
    ensures forall i :: 0 <= i < |ds| ==> ds[i] < 10
  {
    if n < 10 then [n] else Digits(n / 10) + [n % 10]
  }

  // `parse`: the number a digit string stands for.
  function Parse(ds: seq<nat>): nat
    decreases |ds|
  {
    if ds == [] then 0 else Parse(ds[..|ds| - 1]) * 10 + ds[|ds| - 1]
  }

  lemma {:induction false} ParseDigits(n: nat)
    ensures Parse(Digits(n)) == n
  {
    if n >= 10 {
      ParseDigits(n / 10);
      var ds := Digits(n);
      assert ds[..|ds| - 1] == Digits(n / 10);
    }
  }

  lemma {:induction false} ParseAppend(a: seq<nat>, b: seq<nat>)
    ensures Parse(a + b) == Parse(a) * Pow10(|b|) + Parse(b)
    decreases |b|
  {
    if b == [] {
      assert a + b == a;
    } else {
      var init := b[..|b| - 1];
      assert (a + b)[..|a + b| - 1] == a + init;
      ParseAppend(a, init);
      calc {
        Parse(a + b);
        Parse(a + init) * 10 + b[|b| - 1];
        (Parse(a) * Pow10(|init|) + Parse(init)) * 10 + b[|b| - 1];
        Parse(a) * (Pow10(|init|) * 10) + (Parse(init) * 10 + b[|b| - 1]);
      }
    }
  }

  // n has exactly k digits when it lies in [10^(k-1), 10^k).
  lemma {:induction false} DigitsLength(n: nat, k: nat)
    requires k >= 1 && (k == 1 || Pow10(k - 1) <= n) && n < Pow10(k)
    ensures |Digits(n)| == k
  {
    if k > 1 {
      assert n >= 10 by {
        Pow10Grows(k - 1);
      }
      var q := n / 10;
      assert n == 10 * q + n % 10;
      assert q < Pow10(k - 1);
      if k > 2 {
        assert Pow10(k - 2) <= q;
      }
      DigitsLength(q, k - 1);
    }
  }

  lemma {:induction false} Pow10Grows(k: nat)
    requires k >= 1
    ensures Pow10(k) >= 10
  {
    if k > 1 {
      Pow10Grows(k - 1);
    }
  }

  // ---------------------------------------------------------------------
  // `count_digits_odd`, for u32 values

  function CountDigitsOdd(n: nat): bool
  {
    if n < 10 then true
    else if n < 100 then false
    else if n < 1000 then true
    else if n < 10000 then false
    else if n < 100000 then true
    else if n < 1000000 then false
    else if n < 10000000 then true
    else if n < 100000000 then false
    else if n < 1000000000 then true
    else false
  }

  // Every u32 has at most ten digits, so the ladder is exact.
  lemma CountDigitsOddCorrect(n: nat)
    requires n < U32
    ensures CountDigitsOdd(n) <==> |Digits(n)| % 2 == 1
  {
    var k: nat :=
      if n < 10 then 1 else if n < 100 then 2 else if n < 1000 then 3 else if n < 10000 then 4
      else if n < 100000 then 5 else if n < 1000000 then 6 else if n < 10000000 then 7
      else if n < 100000000 then 8 else if n < 1000000000 then 9 else 10;
    assert Pow10(10) == 10000000000;
    DigitsLength(n, k);
  }

  // ---------------------------------------------------------------------
  // One blink

  // The two halves of the decimal text of n, parsed.
  function Halves(n: nat): (nat, nat)
  {
    var s := Digits(n);
    (Parse(s[..|s| / 2]), Parse(s[|s| / 2..]))
  }

  // For an even number d of digits the halves put back together give n:
  // the left half shifted by d/2 digits, plus the right half.
  lemma HalvesRejoin(n: nat)
    requires |Digits(n)| % 2 == 0
    ensures Halves(n).0 * Pow10(|Digits(n)| / 2) + Halves(n).1 == n
  {
    var s := Digits(n);
    HalvesJoin(s, |s| / 2);
    ParseDigits(n);
  }

  lemma HalvesJoin(s: seq<nat>, m: nat)
    requires m <= |s|
    ensures Parse(s) == Parse(s[..m]) * Pow10(|s| - m) + Parse(s[m..])
  {
    assert s == s[..m] + s[m..];
    ParseAppend(s[..m], s[m..]);
  }

  // The stones one stone becomes.
  function Blink(n: nat): (r: seq<nat>)
    ensures 1 <= |r| <= 2
  {
    if n == 0 then [1]
    else if !CountDigitsOdd(n) then [Halves(n).0, Halves(n).1]
    else [(n * 2024) % U32]
  }

  // A parse of a digit string is below 10 to the power of its length.
  lemma {:induction false} ParseBound(ds: seq<nat>)
    requires forall i :: 0 <= i < |ds| ==> ds[i] < 10
    ensures Parse(ds) < Pow10(|ds|)
    decreases |ds|
  {
    if ds != [] {
      ParseBound(ds[..|ds| - 1]);
    }
  }

  // Blinking keeps every stone a u32.
  lemma BlinkFits(n: nat)
    requires n < U32
    ensures forall i :: 0 <= i < |Blink(n)| ==> Blink(n)[i] < U32
  {
    if n != 0 && !CountDigitsOdd(n) {
      CountDigitsOddCorrect(n);
      HalvesRejoin(n);
      var h := Halves(n);
      var p := Pow10(|Digits(n)| / 2);
      assert h.0 * p + h.1 == n;
      assert h.0 <= h.0 * p by {
        MulAtLeast(h.0, p);
      }
    }
  }

  lemma MulAtLeast(a: nat, p: nat)
    requires p >= 1
    ensures a <= a * p
  {
  }

  // ---------------------------------------------------------------------
  // `flatten_v` and `count_stones`

  function FlattenV(sp: Space): seq<nat>
    decreases sp, 1
  {
    match sp
    case Stone(n) => [n]
    case Stones(v) => FlattenEach(v)
  }

  function FlattenEach(v: seq<Space>): seq<nat>
    decreases v, 0
  {
    if v == [] then [] else FlattenEach(v[..|v| - 1]) + FlattenV(v[|v| - 1])
  }

  function CountStones(sp: Space): nat
    decreases sp, 1
  {
    match sp
    case Stone(_) => 1
    case Stones(v) => CountEach(v)
  }

  function CountEach(v: seq<Space>): nat
    decreases v, 0
  {
    if v == [] then 0 else CountEach(v[..|v| - 1]) + CountStones(v[|v| - 1])
  }

  // The count is the length of the flattened list.
  lemma {:induction false} CountIsFlattenLength(sp: Space)
    ensures CountStones(sp) == |FlattenV(sp)|
    decreases sp, 1
  {
    match sp
    case Stone(_) =>
    case Stones(v) => CountEachIsFlattenLength(v);
  }

  lemma {:induction false} CountEachIsFlattenLength(v: seq<Space>)
    ensures CountEach(v) == |FlattenEach(v)|
    decreases v, 0
  {
    if v != [] {
      CountEachIsFlattenLength(v[..|v| - 1]);
      CountIsFlattenLength(v[|v| - 1]);
    }
  }

  // ---------------------------------------------------------------------
  // `apply_blink`, for any rule saying what a stone becomes

  // The rule is a parameter of the tree operations: they only move its
  // results around. `Solve` applies them to `Blink`.
  type Rule = nat -> seq<nat>

  // `apply_blink`: the tree keeps its shape, each leaf replaced by one
  // stone or by a node holding the stones it becomes.
  function ApplyBlink(rule: Rule, sp: Space): Space
    decreases sp, 1
  {
    match sp
    case Stone(n) =>
      var b := rule(n);
      if |b| == 1 then Stone(b[0]) else Stones(Leaves(b))
    case Stones(v) => Stones(BlinkEach(rule, v))
  }

  function BlinkEach(rule: Rule, v: seq<Space>): (r: seq<Space>)
    ensures |r| == |v|
    decreases v, 0
  {
    if v == [] then [] else BlinkEach(rule, v[..|v| - 1]) + [ApplyBlink(rule, v[|v| - 1])]
  }

  // The flattening step: a list made into a one-level tree.
  function Leaves(l: seq<nat>): (r: seq<Space>)
    ensures |r| == |l|
    decreases |l|
  {
    if l == [] then [] else Leaves(l[..|l| - 1]) + [Stone(l[|l| - 1])]
  }

  lemma {:induction false} FlattenLeaves(l: seq<nat>)
    ensures FlattenEach(Leaves(l)) == l
    decreases |l|
  {
    if l != [] {
      FlattenLeaves(l[..|l| - 1]);
      var lv := Leaves(l);
      assert lv[..|lv| - 1] == Leaves(l[..|l| - 1]);
    }
  }

  // ---------------------------------------------------------------------
  // Blinking the tree is blinking the list it stands for

  // Every stone of a list replaced by what it becomes, in order.
  function BlinkList(rule: Rule, l: seq<nat>): seq<nat>
    decreases |l|
  {
    if l == [] then [] else BlinkList(rule, l[..|l| - 1]) + rule(l[|l| - 1])
  }

  lemma {:induction false} BlinkListAppend(rule: Rule, a: seq<nat>, b: seq<nat>)
    ensures BlinkList(rule, a + b) == BlinkList(rule, a) + BlinkList(rule, b)
    decreases |b|
  {
    if b == [] {
      assert a + b == a;
    } else {
      InitOfAppend(a, b);
      BlinkListAppend(rule, a, b[..|b| - 1]);
    }
  }

  lemma InitOfAppend(a: seq<nat>, b: seq<nat>)
    requires b != []
    ensures (a + b)[..|a + b| - 1] == a + b[..|b| - 1]
  {
  }

  lemma {:induction false} FlattenBlink(rule: Rule, sp: Space)
    ensures FlattenV(ApplyBlink(rule, sp)) == BlinkList(rule, FlattenV(sp))
    decreases sp, 1
  {
    match sp
    case Stone(n) =>
      assert BlinkList(rule, [n]) == rule(n) by {
        assert [n][..0] == [];
      }
      var b := rule(n);
      if |b| != 1 {
        FlattenLeaves(b);
      }
    case Stones(v) => FlattenBlinkEach(rule, v);
  }

  lemma {:induction false} FlattenBlinkEach(rule: Rule, v: seq<Space>)
    ensures FlattenEach(BlinkEach(rule, v)) == BlinkList(rule, FlattenEach(v))
    decreases v, 0
  {
    if v != [] {
      var init, last := v[..|v| - 1], v[|v| - 1];
      FlattenBlinkEach(rule, init);
      FlattenBlink(rule, last);
      var bv := BlinkEach(rule, v);
      assert bv[..|bv| - 1] == BlinkEach(rule, init);
      BlinkListAppend(rule, FlattenEach(init), FlattenV(last));
    }
  }

  // Under the puzzle's rule a blink never loses a stone ...
  lemma {:induction false} BlinkListGrows(l: seq<nat>)
    ensures |BlinkList(Blink, l)| >= |l|
    decreases |l|
  {
    if l != [] {
      BlinkListGrows(l[..|l| - 1]);
      assert |Blink(l[|l| - 1])| >= 1;
    }
  }

  lemma CountNeverDecreases(sp: Space)
    ensures CountStones(ApplyBlink(Blink, sp)) >= CountStones(sp)
  {
    CountIsFlattenLength(sp);
    CountIsFlattenLength(ApplyBlink(Blink, sp));
    FlattenBlink(Blink, sp);
    BlinkListGrows(FlattenV(sp));
  }

  // ... and keeps every stone a u32.
  lemma {:induction false} BlinkListFits(l: seq<nat>)
    requires forall i :: 0 <= i < |l| ==> l[i] < U32
    ensures forall i :: 0 <= i < |BlinkList(Blink, l)| ==> BlinkList(Blink, l)[i] < U32
    decreases |l|
  {
    if l != [] {
      var init, last := l[..|l| - 1], l[|l| - 1];
      BlinkListFits(init);
      BlinkFits(last);
      var r := BlinkList(Blink, l);
      forall i | 0 <= i < |r|
        ensures r[i] < U32
      {
        var a := BlinkList(Blink, init);
        if i >= |a| {
          assert r[i] == Blink(last)[i - |a|];
        } else {
          assert r[i] == a[i];
        }
      }
    }
  }

  // ---------------------------------------------------------------------
  // 75 blinks

  // The stones after k blinks.
  function Blinks(rule: Rule, l: seq<nat>, k: nat): seq<nat>
    decreases k
  {
    if k == 0 then l else Blinks(rule, BlinkList(rule, l), k - 1)
  }

  // The last of k + 1 blinks is one more blink of the list after k.
  lemma {:induction false} BlinksStep(rule: Rule, l: seq<nat>, k: nat)
    ensures Blinks(rule, l, k + 1) == BlinkList(rule, Blinks(rule, l, k))
    decreases k
  {
    if k > 0 {
      BlinksStep(rule, BlinkList(rule, l), k - 1);
    }
  }

  // One blink of the tree, flattened on every fifth; the count is taken
  // before the flattening.
  method BlinkOnce(rule: Rule, stones0: Space, b: nat, ghost input: seq<nat>) returns (stones: Space, stoneCount: nat)
    requires b >= 1 && FlattenV(stones0) == Blinks(rule, input, b - 1)
    ensures FlattenV(stones) == Blinks(rule, input, b) && stoneCount == |Blinks(rule, input, b)|
  {
    stones := ApplyBlink(rule, stones0);
    assert FlattenV(stones) == Blinks(rule, input, b) by {
      FlattenBlink(rule, stones0);
      BlinksStep(rule, input, b - 1);
    }
    stoneCount := CountStones(stones);
    assert stoneCount == |FlattenV(stones)| by {
      CountIsFlattenLength(stones);
    }
    if b % 5 == 0 {
      var v := FlattenV(stones);
      stones := Stones(Leaves(v));
      assert FlattenV(stones) == v by {
        FlattenLeaves(v);
      }
    }
  }

  // The stones as read: one level of leaves.
  method Plant(input: seq<nat>) returns (stones: Space)
    ensures FlattenV(stones) == input
  {
    FlattenLeaves(input);
    stones := Stones(Leaves(input));
  }

  // The main loop, blinking up to `last` times and taking the counts
  // after `first` and after `last` blinks.
  method CountBlinks(rule: Rule, input: seq<nat>, first: nat, last: nat) returns (part1: nat, part2: nat)
    requires 1 <= first <= last
    ensures part1 == |Blinks(rule, input, first)| && part2 == |Blinks(rule, input, last)|
  {
    var stones := Plant(input);
    part1, part2 := 0, 0;
    for b := 1 to last + 1
      invariant FlattenV(stones) == Blinks(rule, input, b - 1)
      invariant b > first ==> part1 == |Blinks(rule, input, first)|
      invariant b > last ==> part2 == |Blinks(rule, input, last)|
    {
      var stoneCount;
      stones, stoneCount := BlinkOnce(rule, stones, b, input);
      if b == first {
        part1 := stoneCount;
      }
      if b == last {
        part2 := stoneCount;
      }
    }
  }

  method Solve(input: seq<nat>) returns (part1: nat, part2: nat)
    ensures part1 == |Blinks(Blink, input, PART_ONE)| && part2 == |Blinks(Blink, input, PART_TWO)|
  {
    part1, part2 := CountBlinks(Blink, input, PART_ONE, PART_TWO);
  }
}
