// src/day05.rs: page-ordering rules "a|b" (a must come before b) and
// updates. Part one sums the middle page of every update that breaks no
// rule between neighbours; part two reorders the others with the rules as
// comparator and sums their middle pages.
//
// Rules and updates arrive already parsed.
module Day05 {

  type Rule = (nat, nat)

  // ---------------------------------------------------------------------
  // invalid_pair

  // `invalid_pair` keeps the rules naming both a and b, in either order, and
  // reports a failure if any of them is not the rule a|b.
  predicate InvalidPair(a: nat, b: nat, rules: seq<Rule>)
  {
    exists i :: 0 <= i < |rules| && (rules[i] == (a, b) || rules[i] == (b, a)) && rules[i] != (a, b)
  }

  // So the pair a, b is invalid exactly when the rule b|a exists and the
  // two pages differ.
  lemma InvalidPairIsReversedRule(a: nat, b: nat, rules: seq<Rule>)
    ensures InvalidPair(a, b, rules) <==> (b, a) in rules && a != b
  {
    if (b, a) in rules && a != b {
      var i :| 0 <= i < |rules| && rules[i] == (b, a);
      assert (rules[i] == (a, b) || rules[i] == (b, a)) && rules[i] != (a, b);
    }
  }

  // ---------------------------------------------------------------------
  // Part one

  // No neighbouring pages in the wrong order.
  predicate Ordered(u: seq<nat>, rules: seq<Rule>)
  {
    forall j :: 0 <= j < |u| - 1 ==> !InvalidPair(u[j], u[j + 1], rules)
  }

  // The `f |= invalid_pair(..)` scan; `day05` computes u.len() - 1, so
  // an update has at least one page.
  method IsOrdered(u: seq<nat>, rules: seq<Rule>) returns (ok: bool)
    requires |u| >= 1
    ensures ok <==> Ordered(u, rules)
  {
    var f := false;
    for j := 0 to |u| - 1
      invariant f <==> exists k :: 0 <= k < j && InvalidPair(u[k], u[k + 1], rules)
    {
      f := f || InvalidPair(u[j], u[j + 1], rules);
    }
    ok := !f;
  }

  function Middle(u: seq<nat>): nat
    requires |u| >= 1
  {
    u[|u| / 2]
  }

  function SumOrdered(updates: seq<seq<nat>>, rules: seq<Rule>): nat
    requires forall u :: u in updates ==> |u| >= 1
    decreases |updates|
  {
    if updates == [] then 0
    else
      var u := updates[|updates| - 1];
      SumOrdered(updates[..|updates| - 1], rules) + if Ordered(u, rules) then Middle(u) else 0
  }

  function Failed(updates: seq<seq<nat>>, rules: seq<Rule>): (r: seq<seq<nat>>)
    ensures forall u :: u in r ==> u in updates && !Ordered(u, rules)
    decreases |updates|
  {
    if updates == [] then []
    else
      var u := updates[|updates| - 1];
      Failed(updates[..|updates| - 1], rules) + if Ordered(u, rules) then [] else [u]
  }

  // Every update lands in exactly one of the two parts: it adds its middle
  // page to part one, or it is kept for part two.
  method PartOne(updates: seq<seq<nat>>, rules: seq<Rule>) returns (sum: nat, failed: seq<seq<nat>>)
    requires forall u :: u in updates ==> |u| >= 1
    ensures sum == SumOrdered(updates, rules) && failed == Failed(updates, rules)
  {
    sum, failed := 0, [];
    for i := 0 to |updates|
      invariant sum == SumOrdered(updates[..i], rules) && failed == Failed(updates[..i], rules)
    {
      assert updates[..i + 1][..i] == updates[..i];
      var u := updates[i];
      var ok := IsOrdered(u, rules);
      if !ok {
        failed := failed + [u];
      } else {
        sum := sum + u[|u| / 2];
      }
    }
    assert updates[..|updates|] == updates;
  }

  // ---------------------------------------------------------------------
  // Part two: `sort_by` with the rules as comparator

  // The comparator answers Less for a before b unless the pair is invalid.
  predicate Less(a: nat, b: nat, rules: seq<Rule>)
  {
    !InvalidPair(a, b, rules)
  }

  // `sort_by` on a slice of at most 20 elements is an insertion sort that
  // inserts each element into the sorted prefix before it, moving it left
  // past every element it is Less than and stopping at the first it is
  // not (`insert_tail`).
  function InsertTail(s: seq<nat>, x: nat, rules: seq<Rule>): (r: seq<nat>)
    ensures multiset(r) == multiset(s) + multiset{x}
    ensures |r| == |s| + 1
    decreases |s|
  {
    if s == [] then [x]
    else
      var last := s[|s| - 1];
      assert s == s[..|s| - 1] + [last];
      if Less(x, last, rules) then InsertTail(s[..|s| - 1], x, rules) + [last]
      else s + [x]
  }

  function SortPages(u: seq<nat>, rules: seq<Rule>): (r: seq<nat>)
    ensures multiset(r) == multiset(u) && |r| == |u|
    decreases |u|
  {
    if u == [] then []
    else
      assert u == u[..|u| - 1] + [u[|u| - 1]];
      InsertTail(SortPages(u[..|u| - 1], rules), u[|u| - 1], rules)
  }

  // No two rules contradict each other.
  ghost predicate Consistent(rules: seq<Rule>)
  {
    forall a: nat, b: nat :: (a, b) in rules && a != b ==> (b, a) !in rules
  }

  lemma {:induction false} InsertTailOrdered(s: seq<nat>, x: nat, rules: seq<Rule>)
    requires Consistent(rules) && Ordered(s, rules)
    ensures Ordered(InsertTail(s, x, rules), rules)
    ensures s != [] ==> InsertTail(s, x, rules)[|s|] in {x, s[|s| - 1]}
    decreases |s|
  {
    if s != [] {
      var last := s[|s| - 1];
      var t := s[..|s| - 1];
      var r := InsertTail(s, x, rules);
      if Less(x, last, rules) {
        assert Ordered(t, rules);
        InsertTailOrdered(t, x, rules);
        var rt := InsertTail(t, x, rules);
        assert r == rt + [last];
        if t != [] {
          assert !InvalidPair(t[|t| - 1], last, rules);
        }
        assert !InvalidPair(rt[|t|], last, rules);
        forall j | 0 <= j < |r| - 1
          ensures !InvalidPair(r[j], r[j + 1], rules)
        {
          if j < |r| - 2 {
            assert r[j] == rt[j] && r[j + 1] == rt[j + 1];
          }
        }
      } else {
        InvalidPairIsReversedRule(x, last, rules);
        InvalidPairIsReversedRule(last, x, rules);
        assert r == s + [x];
        forall j | 0 <= j < |r| - 1
          ensures !InvalidPair(r[j], r[j + 1], rules)
        {
          if j < |r| - 2 {
            assert r[j] == s[j] && r[j + 1] == s[j + 1];
          }
        }
      }
    }
  }

  // With consistent rules, every reordered update breaks no rule.
  lemma {:induction false} SortPagesOrdered(u: seq<nat>, rules: seq<Rule>)
    requires Consistent(rules)
    ensures Ordered(SortPages(u, rules), rules)
    decreases |u|
  {
    if u != [] {
      SortPagesOrdered(u[..|u| - 1], rules);
      InsertTailOrdered(SortPages(u[..|u| - 1], rules), u[|u| - 1], rules);
    }
  }

  // Rules that order only some pairs leave the result to the algorithm:
  // 2|1 and 1|3 say nothing about 2 and 3, and `insert_tail` stops 3 at
  // the 1 it may not precede, leaving 1 in the middle.
  lemma PartialRulesExample(u: seq<nat>, rules: seq<Rule>)
    requires u == [1, 2, 3] && rules == [(2, 1), (1, 3)]
    ensures SortPages(u, rules) == [2, 1, 3]
  {
    assert u[..2] == [1, 2];
    PartialRulesPrefix(u[..2], rules);
    assert rules[1] == (1, 3) && !Less(3, 1, rules);
  }

  lemma PartialRulesPrefix(u: seq<nat>, rules: seq<Rule>)
    requires u == [1, 2] && rules == [(2, 1), (1, 3)]
    ensures SortPages(u, rules) == [2, 1]
  {
    assert u[..1] == [1];
    assert SortPages(u[..1], rules) == [1];
    assert rules[0] == (2, 1) && Less(2, 1, rules);
  }

  function SumSorted(failed: seq<seq<nat>>, rules: seq<Rule>): nat
    requires forall u :: u in failed ==> |u| >= 1
    decreases |failed|
  {
    if failed == [] then 0
    else
      var u := failed[|failed| - 1];
      SumSorted(failed[..|failed| - 1], rules) + Middle(SortPages(u, rules))
  }

  method PartTwo(failed: seq<seq<nat>>, rules: seq<Rule>) returns (sum2: nat)
    requires forall u :: u in failed ==> |u| >= 1
    ensures sum2 == SumSorted(failed, rules)
  {
    sum2 := 0;
    for i := 0 to |failed|
      invariant sum2 == SumSorted(failed[..i], rules)
    {
      assert failed[..i + 1][..i] == failed[..i];
      var u := SortPages(failed[i], rules);
      sum2 := sum2 + u[|u| / 2];
    }
    assert failed[..|failed|] == failed;
  }

  method Solve(updates: seq<seq<nat>>, rules: seq<Rule>) returns (sum: nat, sum2: nat)
    requires forall u :: u in updates ==> |u| >= 1
    ensures sum == SumOrdered(updates, rules)
    ensures sum2 == SumSorted(Failed(updates, rules), rules)
  {
    var failed;
    sum, failed := PartOne(updates, rules);
    sum2 := PartTwo(failed, rules);
  }
}
