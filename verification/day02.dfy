// src/day02.rs: reports of levels. A report is safe when it moves steadily
// up or steadily down by 1 to 3 each step; part two also accepts a report
// that becomes safe once a single level is removed.
//
// The reports arrive already parsed, one sequence of numbers per line.
module Day02 {

  // ---------------------------------------------------------------------
  // is_safe

  // One step checked the way `day02` checks it: the direction is fixed
  // by the first pair, and each step must go that way by at most 3.
  predicate StepOk(up: bool, x: nat, y: nat)
  {
    x != y && if up then x < y && y - x <= 3 else y < x && x - y <= 3
  }

  predicate Safe(r: seq<nat>)
    requires |r| >= 2
  {
    forall i :: 0 <= i < |r| - 1 ==> StepOk(r[0] < r[1], r[i], r[i + 1])
  }

  // The scan with early exits; `day02` reads r[0] and r[1] first, so a
  // report needs two levels.
  method IsSafe(r: seq<nat>) returns (safe: bool)
    requires |r| >= 2
    ensures safe <==> Safe(r)
  {
    var up := r[0] < r[1];
    for i := 0 to |r| - 1
      invariant forall j :: 0 <= j < i ==> StepOk(up, r[j], r[j + 1])
    {
      if r[i] == r[i + 1] {
        return false;
      }
      if up {
        if r[i] > r[i + 1] {
          return false;
        }
        var d := r[i + 1] - r[i];
        if d > 3 {
          return false;
        }
      } else {
        if r[i] < r[i + 1] {
          return false;
        }
        var d := r[i] - r[i + 1];
        if d > 3 {
          return false;
        }
      }
    }
    return true;
  }

  // An independent reading of the rule: every step rises by 1 to 3, or
  // every step falls by 1 to 3.
  predicate Rising(r: seq<nat>)
  {
    forall i :: 0 <= i < |r| - 1 ==> r[i] < r[i + 1] <= r[i] + 3
  }

  predicate Falling(r: seq<nat>)
  {
    forall i :: 0 <= i < |r| - 1 ==> r[i + 1] < r[i] <= r[i + 1] + 3
  }

  lemma SafeIsMonotone(r: seq<nat>)
    requires |r| >= 2
    ensures Safe(r) <==> Rising(r) || Falling(r)
  {
    if Safe(r) {
      if r[0] < r[1] {
        assert Rising(r) by {
          forall i | 0 <= i < |r| - 1
            ensures r[i] < r[i + 1] <= r[i] + 3
          {
            assert StepOk(true, r[i], r[i + 1]);
          }
        }
      } else {
        assert Falling(r) by {
          forall i | 0 <= i < |r| - 1
            ensures r[i + 1] < r[i] <= r[i + 1] + 3
          {
            assert StepOk(false, r[i], r[i + 1]);
          }
        }
      }
    }
  }

  // ---------------------------------------------------------------------
  // create_variants

  function Without(r: seq<nat>, i: nat): (v: seq<nat>)
    requires i < |r|
    ensures |v| == |r| - 1
    ensures forall j :: 0 <= j < i ==> v[j] == r[j]
    ensures forall j :: i <= j < |v| ==> v[j] == r[j + 1]
  {
    r[..i] + r[i + 1..]
  }

  // One copy of the report per level, with that level removed.
  method CreateVariants(r: seq<nat>) returns (vs: seq<seq<nat>>)
    ensures |vs| == |r|
    ensures forall i :: 0 <= i < |r| ==> vs[i] == Without(r, i)
  {
    vs := [];
    for i := 0 to |r|
      invariant |vs| == i
      invariant forall j :: 0 <= j < i ==> vs[j] == Without(r, j)
    {
      var v := r[..i] + r[i + 1..];
      vs := vs + [v];
    }
  }

  // ---------------------------------------------------------------------
  // Part two

  // Safe as it is, or safe with one level removed.
  predicate Tolerated(r: seq<nat>)
    requires Checkable(r)
  {
    Safe(r) || exists i :: 0 <= i < |r| && Safe(Without(r, i))
  }

  // What the part two loop reads without panicking: two levels at least,
  // and three when the report itself is not safe (its variants are checked
  // too, and each must keep two levels).
  predicate Checkable(r: seq<nat>)
  {
    |r| >= 2 && (|r| >= 3 || Safe(r))
  }

  method IsTolerated(r: seq<nat>) returns (ok: bool)
    requires Checkable(r)
    ensures ok <==> Tolerated(r)
  {
    ok := IsSafe(r);
    if ok {
      return;
    }
    var vs := CreateVariants(r);
    for i := 0 to |vs|
      invariant forall j :: 0 <= j < i ==> !Safe(Without(r, j))
    {
      ok := IsSafe(vs[i]);
      if ok {
        return;
      }
    }
  }

  // ---------------------------------------------------------------------
  // Counting

  function CountSafe(reports: seq<seq<nat>>): nat
    requires forall r :: r in reports ==> |r| >= 2
    decreases |reports|
  {
    if reports == [] then 0
    else
      var last := reports[|reports| - 1];
      CountSafe(reports[..|reports| - 1]) + if Safe(last) then 1 else 0
  }

  function CountTolerated(reports: seq<seq<nat>>): nat
    requires forall r :: r in reports ==> Checkable(r)
    decreases |reports|
  {
    if reports == [] then 0
    else
      var last := reports[|reports| - 1];
      CountTolerated(reports[..|reports| - 1]) + if Tolerated(last) then 1 else 0
  }

  // Every safe report is tolerated, so part two never counts fewer.
  lemma {:induction false} SafeAtMostTolerated(reports: seq<seq<nat>>)
    requires forall r :: r in reports ==> |r| >= 2
    requires forall r :: r in reports ==> Checkable(r)
    ensures CountSafe(reports) <= CountTolerated(reports)
    decreases |reports|
  {
    if reports != [] {
      var n := |reports| - 1;
      assert forall r :: r in reports[..n] ==> r in reports;
      SafeAtMostTolerated(reports[..n]);
    }
  }

  method Solve(reports: seq<seq<nat>>) returns (safe: nat, safe2: nat)
    requires forall r :: r in reports ==> |r| >= 2
    requires forall r :: r in reports ==> Checkable(r)
    ensures safe == CountSafe(reports) && safe2 == CountTolerated(reports)
    ensures safe <= safe2
  {
    safe := 0;
    for i := 0 to |reports|
      invariant safe == CountSafe(reports[..i])
    {
      assert reports[..i + 1][..i] == reports[..i];
      var ok := IsSafe(reports[i]);
      if ok {
        safe := safe + 1;
      }
    }
    assert reports[..|reports|] == reports;
    safe2 := 0;
    for i := 0 to |reports|
      invariant safe2 == CountTolerated(reports[..i])
    {
      assert reports[..i + 1][..i] == reports[..i];
      var ok := IsTolerated(reports[i]);
      if ok {
        safe2 := safe2 + 1;
      }
    }
    assert reports[..|reports|] == reports;
    SafeAtMostTolerated(reports);
  }
}
