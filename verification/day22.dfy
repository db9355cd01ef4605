// src/day22.rs: each buyer's secret number evolves by a fixed
// mix-and-prune step. Part one sums every buyer's 2000th secret number;
// part two looks for the run of four price changes that earns the most
// bananas when every buyer sells at the first place that run occurs.
//
// The initial numbers arrive already parsed.
module Day22 {
  import opened Wrappers

  const COUNT: nat := 2000
  // Windows of four changes that start below 2000 - 4.
  const WINDOWS: nat := COUNT - 4
  const MASK: bv64 := 0xFFFFFF
  // Below this bound, multiplying by 64 fits in 64 bits.
  const FITS: bv64 := 0x400_0000_0000_0000

  // ---------------------------------------------------------------------
  // Secret numbers

  // Mix `value` into the secret, then prune it to 24 bits.
  function MixPrune(secret: bv64, value: bv64): (r: bv64)
    ensures r <= MASK
  {
    (secret ^ value) & MASK
  }

  // The three rounds: multiply by 64, divide by 32, multiply by 2048.
  function Round64(x: bv64): bv64 { MixPrune(x, x * 64) }
  function Round32(x: bv64): bv64 { MixPrune(x, x / 32) }
  function Round2048(x: bv64): (r: bv64)
    ensures r <= MASK
  {
    MixPrune(x, x * 2048)
  }

  // `secret_number_step`; the input must be small enough for its first
  // multiplication not to overflow.
  function SecretNumberStep(input: bv64): (r: bv64)
    requires input < FITS
    ensures r <= MASK
  {
    Round2048(Round32(Round64(input)))
  }

  lemma Round64Low(x: bv64)
    ensures Round64(x) == Round64(x & MASK)
  {
  }

  // Only the low 24 bits of a secret matter for the next one.
  lemma StepLow(x: bv64)
    requires x < FITS
    ensures SecretNumberStep(x) == SecretNumberStep(x & MASK)
  {
    Round64Low(x);
  }

  // The k-th secret number after n.
  function Iterate(n: bv64, k: nat): (r: bv64)
    requires n < FITS
    ensures k == 0 ==> r == n
    ensures k > 0 ==> r <= MASK
  {
    if k == 0 then n else SecretNumberStep(Iterate(n, k - 1))
  }

  function Price(x: bv64): (r: int)
    ensures 0 <= r <= 9
  {
    x as int % 10
  }

  // The first k secret numbers after n.
  function Secrets(n: bv64, k: nat): (r: seq<bv64>)
    requires n < FITS
    ensures |r| == k
  {
    if k == 0 then [] else Secrets(n, k - 1) + [Iterate(n, k)]
  }

  function Prices(numbers: seq<bv64>): (r: seq<int>)
    ensures |r| == |numbers|
  {
    if numbers == [] then [] else Prices(numbers[..|numbers| - 1]) + [Price(numbers[|numbers| - 1])]
  }

  lemma {:induction false} PricesAt(numbers: seq<bv64>, i: nat)
    requires i < |numbers|
    ensures Prices(numbers)[i] == Price(numbers[i])
    decreases |numbers|
  {
    var n := |numbers| - 1;
    if i < n {
      PricesAt(numbers[..n], i);
    }
  }

  // The price before the next one: the last so far, or `first`.
  function Last(first: int, prices: seq<int>): int
  {
    if prices == [] then first else prices[|prices| - 1]
  }

  // Each price's change from the one before it, the first from `first`.
  function Changes(first: int, prices: seq<int>): (r: seq<int>)
    ensures |r| == |prices|
  {
    if prices == [] then []
    else
      var n := |prices| - 1;
      Changes(first, prices[..n]) + [prices[n] - Last(first, prices[..n])]
  }

  lemma {:induction false} SecretsAt(n: bv64, k: nat, i: nat)
    requires n < FITS && i < k
    ensures Secrets(n, k)[i] == Iterate(n, i + 1)
  {
    if i < k - 1 {
      SecretsAt(n, k - 1, i);
    }
  }

  lemma {:induction false} ChangesAt(first: int, prices: seq<int>, i: nat)
    requires i < |prices|
    ensures Changes(first, prices)[i] == prices[i] - if i == 0 then first else prices[i - 1]
    decreases |prices|
  {
    var n := |prices| - 1;
    if i < n {
      ChangesAt(first, prices[..n], i);
    } else if i > 0 {
      assert prices[..n][n - 1] == prices[i - 1];
    }
  }

  // With every price a digit, every change is between -9 and 9.
  lemma ChangesBound(first: int, prices: seq<int>, i: nat)
    requires 0 <= first <= 9 && forall j :: 0 <= j < |prices| ==> 0 <= prices[j] <= 9
    requires i < |prices|
    ensures -9 <= Changes(first, prices)[i] <= 9
  {
    ChangesAt(first, prices, i);
  }

  lemma PricesDigits(numbers: seq<bv64>)
    ensures forall j :: 0 <= j < |numbers| ==> 0 <= Prices(numbers)[j] <= 9
  {
    forall j | 0 <= j < |numbers|
      ensures 0 <= Prices(numbers)[j] <= 9
    {
      PricesAt(numbers, j);
    }
  }

  lemma PricesSnoc(numbers: seq<bv64>, r: bv64)
    ensures Prices(numbers + [r]) == Prices(numbers) + [Price(r)]
  {
    var q := numbers + [r];
    assert q[..|numbers|] == numbers;
    assert q[|numbers|] == r;
  }

  lemma ChangesSnoc(first: int, prices: seq<int>, price: int)
    ensures Changes(first, prices + [price]) == Changes(first, prices) + [price - Last(first, prices)]
  {
    var q := prices + [price];
    assert q[..|prices|] == prices;
    assert q[|prices|] == price;
  }

  // One buyer: 2000 numbers, their prices, and the change of each price
  // from the one before (the first from the initial number's price).
  method Buyer(n: bv64) returns (numbers: seq<bv64>, prices: seq<int>, diffs: seq<int>)
    requires n < FITS
    ensures numbers == Secrets(n, COUNT) && prices == Prices(numbers) && diffs == Changes(Price(n), prices)
  {
    numbers, prices, diffs := [], [], [];
    var result := n;
    var pprice := Price(result);
    for i := 0 to COUNT
      invariant numbers == Secrets(n, i) && prices == Prices(numbers) && diffs == Changes(Price(n), prices)
      invariant result == Iterate(n, i) && pprice == Last(Price(n), prices)
    {
      result := SecretNumberStep(result);
      var price := Price(result);
      PricesSnoc(numbers, result);
      ChangesSnoc(Price(n), prices, price);
      numbers := numbers + [result];
      prices := prices + [price];
      diffs := diffs + [price - pprice];
      pprice := price;
    }
  }

  function Nat(x: bv64): nat
  {
    x as nat
  }

  // The sum of the first k buyers' 2000th numbers.
  function SumLast(initial: seq<bv64>, k: nat): nat
    requires k <= |initial| && forall i :: 0 <= i < |initial| ==> initial[i] < FITS
  {
    if k == 0 then 0 else SumLast(initial, k - 1) + Nat(Iterate(initial[k - 1], COUNT))
  }

  lemma SumLastSnoc(initial: seq<bv64>, k: nat, numbers: seq<bv64>)
    requires k < |initial| && forall i :: 0 <= i < |initial| ==> initial[i] < FITS
    requires numbers == Secrets(initial[k], COUNT)
    ensures SumLast(initial, k + 1) == SumLast(initial, k) + Nat(numbers[COUNT - 1])
  {
    SecretsAt(initial[k], COUNT, COUNT - 1);
  }

  // A buyer's 2000 prices and their changes.
  function BuyerPricesOf(n: bv64): seq<int>
    requires n < FITS
  {
    Prices(Secrets(n, COUNT))
  }

  function BuyerChangesOf(n: bv64): seq<int>
    requires n < FITS
  {
    Changes(Price(n), BuyerPricesOf(n))
  }

  // The first k buyers' prices and changes, as part one keeps them.
  predicate BuyersOf(initial: seq<bv64>, k: nat, allPrices: seq<seq<int>>, allDiffs: seq<seq<int>>)
    requires k <= |initial| && forall i :: 0 <= i < |initial| ==> initial[i] < FITS
  {
    Buyers(allDiffs, allPrices) && |allPrices| == k &&
    forall b :: 0 <= b < k ==> allPrices[b] == BuyerPricesOf(initial[b]) && allDiffs[b] == BuyerChangesOf(initial[b])
  }

  lemma BuyersOfSnoc(initial: seq<bv64>, k: nat, allPrices: seq<seq<int>>, allDiffs: seq<seq<int>>, prices: seq<int>, diffs: seq<int>)
    requires k < |initial| && forall i :: 0 <= i < |initial| ==> initial[i] < FITS
    requires BuyersOf(initial, k, allPrices, allDiffs)
    requires prices == BuyerPricesOf(initial[k]) && diffs == BuyerChangesOf(initial[k])
    ensures BuyersOf(initial, k + 1, allPrices + [prices], allDiffs + [diffs])
  {
    PricesDigits(Secrets(initial[k], COUNT));
    BuyersSnoc(allDiffs, allPrices, diffs, prices);
  }

  // Part one: sums each buyer's 2000th number, keeping every buyer's
  // prices and changes for part two.
  method Part1(initial: seq<bv64>) returns (p1result: nat, allPrices: seq<seq<int>>, allDiffs: seq<seq<int>>)
    requires forall i :: 0 <= i < |initial| ==> initial[i] < FITS
    ensures p1result == SumLast(initial, |initial|)
    ensures BuyersOf(initial, |initial|, allPrices, allDiffs)
  {
    p1result, allPrices, allDiffs := 0, [], [];
    for i := 0 to |initial|
      invariant p1result == SumLast(initial, i)
      invariant BuyersOf(initial, i, allPrices, allDiffs)
    {
      var numbers, prices, diffs := Buyer(initial[i]);
      SumLastSnoc(initial, i, numbers);
      BuyersOfSnoc(initial, i, allPrices, allDiffs, prices, diffs);
      allPrices := allPrices + [prices];
      allDiffs := allDiffs + [diffs];
      p1result := p1result + Nat(numbers[COUNT - 1]);
    }
  }

  // ---------------------------------------------------------------------
  // Patterns of four changes

  // A buyer's changes and prices: 2000 of each, every price a digit.
  predicate Shaped(d: seq<int>, prices: seq<int>)
  {
    |d| == COUNT && |prices| == COUNT && forall j :: 0 <= j < COUNT ==> 0 <= prices[j] <= 9
  }

  predicate Buyers(ds: seq<seq<int>>, ps: seq<seq<int>>)
  {
    |ds| == |ps| && forall b :: 0 <= b < |ds| ==> Shaped(ds[b], ps[b])
  }

  lemma BuyersSnoc(ds: seq<seq<int>>, ps: seq<seq<int>>, d: seq<int>, prices: seq<int>)
    requires Buyers(ds, ps) && |d| == COUNT && |prices| == COUNT
    requires forall j :: 0 <= j < COUNT ==> 0 <= prices[j] <= 9
    ensures Buyers(ds + [d], ps + [prices])
  {
  }

  predicate MatchAt(p: seq<int>, d: seq<int>, j: nat)
    requires |d| == COUNT && j < WINDOWS
  {
    d[j..j + 4] == p
  }

  // The first window at or after j where the buyer's changes are p.
  function FirstMatch(p: seq<int>, d: seq<int>, j: nat): (r: Option<nat>)
    requires |d| == COUNT
    ensures r.Some? ==> j <= r.value < WINDOWS
    decreases WINDOWS - j
  {
    if j >= WINDOWS then None
    else if MatchAt(p, d, j) then Some(j)
    else FirstMatch(p, d, j + 1)
  }

  // FirstMatch finds a match with none before it, or reports that there is
  // none.
  lemma {:induction false} FirstMatchIsFirst(p: seq<int>, d: seq<int>, j: nat)
    requires |d| == COUNT
    ensures var r := FirstMatch(p, d, j);
      (r.Some? ==> MatchAt(p, d, r.value) && forall k :: j <= k < r.value ==> !MatchAt(p, d, k)) &&
      (r.None? ==> forall k :: j <= k < WINDOWS ==> !MatchAt(p, d, k))
    decreases WINDOWS - j
  {
    if j < WINDOWS && !MatchAt(p, d, j) {
      FirstMatchIsFirst(p, d, j + 1);
    }
  }

  // What one buyer pays for p: the price at the end of its first
  // occurrence, or nothing.
  function BuyerPrice(p: seq<int>, d: seq<int>, prices: seq<int>): int
    requires |d| == COUNT && |prices| == COUNT
  {
    match FirstMatch(p, d, 0)
    case Some(j) => prices[j + 3]
    case None => 0
  }

  lemma BuyerPriceNonNegative(p: seq<int>, d: seq<int>, prices: seq<int>)
    requires |d| == COUNT && |prices| == COUNT && forall j :: 0 <= j < COUNT ==> 0 <= prices[j] <= 9
    ensures BuyerPrice(p, d, prices) >= 0
  {
    match FirstMatch(p, d, 0)
    case Some(j) => assert 0 <= prices[j + 3];
    case None =>
  }

  // What each buyer pays for p.
  function BuyerPrices(p: seq<int>, ds: seq<seq<int>>, ps: seq<seq<int>>): (r: seq<int>)
    requires Buyers(ds, ps)
    ensures |r| == |ds|
  {
    seq(|ds|, b requires 0 <= b < |ds| => BuyerPrice(p, ds[b], ps[b]))
  }

  function SumRange(s: seq<int>, lo: nat, hi: nat): int
    requires lo <= hi <= |s|
    decreases hi
  {
    if hi == lo then 0 else SumRange(s, lo, hi - 1) + s[hi - 1]
  }

  // What buyers lo..hi pay for p.
  function PriceBetween(p: seq<int>, ds: seq<seq<int>>, ps: seq<seq<int>>, lo: nat, hi: nat): int
    requires Buyers(ds, ps) && lo <= hi <= |ds|
  {
    SumRange(BuyerPrices(p, ds, ps), lo, hi)
  }

  // `for j in 0..2000 - 4 { if pattern matches { ...; break } }`
  method FirstPrice(pattern: seq<int>, d: seq<int>, prices: seq<int>) returns (price: int)
    requires |d| == COUNT && |prices| == COUNT
    ensures price == BuyerPrice(pattern, d, prices)
  {
    for j := 0 to WINDOWS
      invariant forall k :: 0 <= k < j ==> !MatchAt(pattern, d, k)
    {
      if pattern == d[j..j + 4] {
        assert MatchAt(pattern, d, j);
        FirstMatchIsFirst(pattern, d, 0);
        return prices[j + 3];
      }
    }
    FirstMatchIsFirst(pattern, d, 0);
    price := 0;
  }

  // The price of p over the buyers from `from` on.
  method PatternPrice(pattern: seq<int>, ds: seq<seq<int>>, ps: seq<seq<int>>, from: nat) returns (price: int)
    requires Buyers(ds, ps) && from <= |ds|
    ensures price == PriceBetween(pattern, ds, ps, from, |ds|)
  {
    price := 0;
    ghost var s := BuyerPrices(pattern, ds, ps);
    for b := from to |ds|
      invariant price == SumRange(s, from, b)
    {
      var add := FirstPrice(pattern, ds[b], ps[b]);
      price := price + add;
    }
  }

  // The candidate patterns are the windows of every buyer, in order, each
  // priced over its own buyer and the ones after.
  function Pattern(ds: seq<seq<int>>, b: nat, i: nat): (p: seq<int>)
    requires b < |ds| && |ds[b]| == COUNT && i < WINDOWS
    ensures |p| == 4
  {
    ds[b][i..i + 4]
  }

  function Value(ds: seq<seq<int>>, ps: seq<seq<int>>, b: nat, i: nat): int
    requires Buyers(ds, ps) && b < |ds| && i < WINDOWS
  {
    PriceBetween(Pattern(ds, b, i), ds, ps, b, |ds|)
  }

  predicate Before(b': nat, i': nat, b: nat, i: nat)
  {
    b' < b || (b' == b && i' < i)
  }

  // After the candidates before (b, i): best is at least every value seen,
  // and the pattern is the first candidate that reached it (or the
  // starting pattern while nothing beat zero).
  ghost predicate BestSoFar(ds: seq<seq<int>>, ps: seq<seq<int>>, b: nat, i: nat, pattern: seq<int>, best: int)
    requires Buyers(ds, ps) && |ds| >= 1
  {
    best >= 0 &&
    (forall b': nat, i': nat :: b' < |ds| && i' < WINDOWS && Before(b', i', b, i) ==> Value(ds, ps, b', i') <= best) &&
    ((best == 0 && pattern == Pattern(ds, 0, 0)) ||
     exists b': nat, i': nat :: b' < |ds| && i' < WINDOWS && Before(b', i', b, i) &&
       pattern == Pattern(ds, b', i') && Value(ds, ps, b', i') == best &&
       forall b'': nat, i'': nat :: b'' < |ds| && i'' < WINDOWS && Before(b'', i'', b', i') ==> Value(ds, ps, b'', i'') < best)
  }

  method Consider(ds: seq<seq<int>>, ps: seq<seq<int>>, b: nat, i: nat, pattern0: seq<int>, best0: int)
    returns (pattern: seq<int>, best: int)
    requires Buyers(ds, ps) && |ds| >= 1 && b < |ds| && i < WINDOWS
    requires BestSoFar(ds, ps, b, i, pattern0, best0)
    ensures BestSoFar(ds, ps, b, i + 1, pattern, best)
  {
    var candidate := ds[b][i..i + 4];
    var price := PatternPrice(candidate, ds, ps, b);
    if price > best0 {
      NewBest(ds, ps, b, i, pattern0, best0);
      pattern, best := candidate, price;
    } else {
      KeepBest(ds, ps, b, i, pattern0, best0);
      pattern, best := pattern0, best0;
    }
  }

  lemma KeepBest(ds: seq<seq<int>>, ps: seq<seq<int>>, b: nat, i: nat, pattern: seq<int>, best: int)
    requires Buyers(ds, ps) && |ds| >= 1 && b < |ds| && i < WINDOWS
    requires BestSoFar(ds, ps, b, i, pattern, best) && Value(ds, ps, b, i) <= best
    ensures BestSoFar(ds, ps, b, i + 1, pattern, best)
  {
  }

  lemma NewBest(ds: seq<seq<int>>, ps: seq<seq<int>>, b: nat, i: nat, pattern: seq<int>, best: int)
    requires Buyers(ds, ps) && |ds| >= 1 && b < |ds| && i < WINDOWS
    requires BestSoFar(ds, ps, b, i, pattern, best) && Value(ds, ps, b, i) > best
    ensures BestSoFar(ds, ps, b, i + 1, Pattern(ds, b, i), Value(ds, ps, b, i))
  {
    assert forall b': nat, i': nat :: Before(b', i', b, i + 1) <==> Before(b', i', b, i) || (b' == b && i' == i);
    assert Before(b, i, b, i + 1);
  }

  // Part two: the best price and its pattern. The buyers come from part
  // one; the running best changes only when a candidate is strictly better.
  method Part2(ds: seq<seq<int>>, ps: seq<seq<int>>) returns (bestPattern: seq<int>, bestPrice: int)
    requires Buyers(ds, ps) && |ds| >= 1
    ensures BestSoFar(ds, ps, |ds|, 0, bestPattern, bestPrice)
  {
    bestPattern := ds[0][0..4];
    bestPrice := 0;
    for b := 0 to |ps|
      invariant BestSoFar(ds, ps, b, 0, bestPattern, bestPrice)
    {
      for i := 0 to WINDOWS
        invariant BestSoFar(ds, ps, b, i, bestPattern, bestPrice)
      {
        bestPattern, bestPrice := Consider(ds, ps, b, i, bestPattern, bestPrice);
      }
      NextBuyer(ds, ps, b, bestPattern, bestPrice);
    }
  }

  lemma NextBuyer(ds: seq<seq<int>>, ps: seq<seq<int>>, b: nat, pattern: seq<int>, best: int)
    requires Buyers(ds, ps) && |ds| >= 1
    requires BestSoFar(ds, ps, b, WINDOWS, pattern, best)
    ensures BestSoFar(ds, ps, b + 1, 0, pattern, best)
  {
    assert forall b': nat, i': nat :: i' < WINDOWS ==> (Before(b', i', b, WINDOWS) <==> Before(b', i', b + 1, 0));
  }

  // ---------------------------------------------------------------------
  // Pricing from a later buyer

  function Total(p: seq<int>, ds: seq<seq<int>>, ps: seq<seq<int>>): int
    requires Buyers(ds, ps)
  {
    PriceBetween(p, ds, ps, 0, |ds|)
  }

  lemma {:induction false} SumSplit(s: seq<int>, lo: nat, mid: nat, hi: nat)
    requires lo <= mid <= hi <= |s|
    ensures SumRange(s, lo, hi) == SumRange(s, lo, mid) + SumRange(s, mid, hi)
    decreases hi
  {
    if hi > mid {
      SumSplit(s, lo, mid, hi - 1);
    }
  }

  lemma {:induction false} SumNonNegative(s: seq<int>, lo: nat, hi: nat)
    requires lo <= hi <= |s| && forall k :: lo <= k < hi ==> s[k] >= 0
    ensures SumRange(s, lo, hi) >= 0
    decreases hi
  {
    if hi > lo {
      SumNonNegative(s, lo, hi - 1);
    }
  }

  lemma {:induction false} SumZero(s: seq<int>, hi: nat)
    requires hi <= |s| && forall k :: 0 <= k < hi ==> s[k] == 0
    ensures SumRange(s, 0, hi) == 0
    decreases hi
  {
    if hi > 0 {
      SumZero(s, hi - 1);
    }
  }

  // A candidate never earns more than its pattern does over all buyers.
  lemma ValueAtMostTotal(ds: seq<seq<int>>, ps: seq<seq<int>>, b: nat, i: nat)
    requires Buyers(ds, ps) && b < |ds| && i < WINDOWS
    ensures Value(ds, ps, b, i) <= Total(Pattern(ds, b, i), ds, ps)
  {
    var p := Pattern(ds, b, i);
    var s := BuyerPrices(p, ds, ps);
    SumSplit(s, 0, b, |ds|);
    forall k | 0 <= k < b
      ensures s[k] >= 0
    {
      BuyerPriceNonNegative(p, ds[k], ps[k]);
    }
    SumNonNegative(s, 0, b);
  }

  // The first buyer whose changes contain p, given that buyer b's do.
  lemma EarliestBuyer(p: seq<int>, ds: seq<seq<int>>, b: nat) returns (b0: nat)
    requires b < |ds| && forall k :: 0 <= k < |ds| ==> |ds[k]| == COUNT
    requires FirstMatch(p, ds[b], 0).Some?
    ensures b0 <= b && FirstMatch(p, ds[b0], 0).Some?
    ensures forall k :: 0 <= k < b0 ==> FirstMatch(p, ds[k], 0).None?
  {
    b0 := 0;
    while FirstMatch(p, ds[b0], 0).None?
      invariant b0 <= b && forall k :: 0 <= k < b0 ==> FirstMatch(p, ds[k], 0).None?
      decreases b - b0
    {
      b0 := b0 + 1;
    }
  }

  // Buyers without p pay nothing for it.
  lemma PricesBeforeZero(p: seq<int>, ds: seq<seq<int>>, ps: seq<seq<int>>, b0: nat)
    requires Buyers(ds, ps) && b0 <= |ds|
    requires forall k :: 0 <= k < b0 ==> FirstMatch(p, ds[k], 0).None?
    ensures PriceBetween(p, ds, ps, 0, b0) == 0
  {
    var s := BuyerPrices(p, ds, ps);
    forall k | 0 <= k < b0
      ensures s[k] == 0
    {
    }
    SumZero(s, b0);
  }

  // The first occurrence of a pattern, at its first buyer, is priced over
  // every buyer that has it.
  lemma TotalAttained(ds: seq<seq<int>>, ps: seq<seq<int>>, b: nat, i: nat) returns (b0: nat, i0: nat)
    requires Buyers(ds, ps) && b < |ds| && i < WINDOWS
    ensures b0 < |ds| && i0 < WINDOWS && Pattern(ds, b0, i0) == Pattern(ds, b, i)
    ensures Value(ds, ps, b0, i0) == Total(Pattern(ds, b, i), ds, ps)
  {
    var p := Pattern(ds, b, i);
    assert MatchAt(p, ds[b], i);
    FirstMatchIsFirst(p, ds[b], 0);
    b0 := EarliestBuyer(p, ds, b);
    i0 := FirstMatch(p, ds[b0], 0).value;
    FirstMatchIsFirst(p, ds[b0], 0);
    assert Pattern(ds, b0, i0) == p;
    SumSplit(BuyerPrices(p, ds, ps), 0, b0, |ds|);
    PricesBeforeZero(p, ds, ps, b0);
  }

  // The best price part two finds is the most any pattern that occurs
  // earns over all buyers, and its pattern earns exactly that.
  lemma BestIsBestTotal(ds: seq<seq<int>>, ps: seq<seq<int>>, pattern: seq<int>, best: int)
    requires Buyers(ds, ps) && |ds| >= 1
    requires BestSoFar(ds, ps, |ds|, 0, pattern, best)
    ensures forall b, i :: 0 <= b < |ds| && 0 <= i < WINDOWS ==> Total(Pattern(ds, b, i), ds, ps) <= best
    ensures best > 0 ==> Total(pattern, ds, ps) == best
  {
    forall b, i | 0 <= b < |ds| && 0 <= i < WINDOWS
      ensures Total(Pattern(ds, b, i), ds, ps) <= best
    {
      var b0, i0 := TotalAttained(ds, ps, b, i);
      assert Before(b0, i0, |ds|, 0);
    }
    if best > 0 {
      var b': nat, i': nat :| b' < |ds| && i' < WINDOWS && pattern == Pattern(ds, b', i') && Value(ds, ps, b', i') == best;
      ValueAtMostTotal(ds, ps, b', i');
      var b0, i0 := TotalAttained(ds, ps, b', i');
      assert Before(b0, i0, |ds|, 0);
    }
  }

  // ---------------------------------------------------------------------
  // `day22`

  method Solve(initial: seq<bv64>) returns (p1result: nat, bestPattern: seq<int>, bestPrice: int)
    requires |initial| >= 1 && forall i :: 0 <= i < |initial| ==> initial[i] < FITS
    ensures p1result == SumLast(initial, |initial|)
    ensures exists ds, ps :: (BuyersOf(initial, |initial|, ps, ds) &&
      (forall b, i :: 0 <= b < |ds| && 0 <= i < WINDOWS ==> Total(Pattern(ds, b, i), ds, ps) <= bestPrice) &&
      (bestPrice > 0 ==> Total(bestPattern, ds, ps) == bestPrice))
  {
    var allPrices, allDiffs;
    p1result, allPrices, allDiffs := Part1(initial);
    bestPattern, bestPrice := Part2(allDiffs, allPrices);
    BestIsBestTotal(allDiffs, allPrices, bestPattern, bestPrice);
  }
}
