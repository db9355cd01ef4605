// src/day07.rs: calibration equations "target: n1 n2 ... nk". An equation
// holds when some choice of operators between the numbers, applied left to
// right, gives the target. Part one allows + and *; part two also allows
// decimal concatenation. Each answer sums the targets of the equations
// that hold.
//
// Each line arrives parsed: r[0] is the target, r[1..] the numbers.
module Day07 {

  // ---------------------------------------------------------------------
  // Operators and left-to-right evaluation

  const OP_ADD: nat := 0
  const OP_MUL: nat := 1
  const OP_JOIN: nat := 2
  const OP_OVERFLOW: nat := 3

  function Pow(b: nat, e: nat): (p: nat)
    requires b >= 1
    ensures p >= 1
  {
    if e == 0 then 1 else b * Pow(b, e - 1)
  }

  // The number of decimal digits of n (written without leading zeros; 0
  // is the single digit "0").
  function DecimalDigits(n: nat): (d: nat)
    ensures d >= 1
  {
    if n < 10 then 1 else 1 + DecimalDigits(n / 10)
  }

  // Concatenating the decimal texts of a and b and parsing the result.
  function Join(a: nat, b: nat): nat
  {
    a * Pow(10, DecimalDigits(b)) + b
  }

  // n has fewer digits than the power of ten the join shifts by.
  lemma {:induction false} DigitsBound(n: nat)
    ensures n < Pow(10, DecimalDigits(n))
    decreases n
  {
    if n >= 10 {
      DigitsBound(n / 10);
      assert Pow(10, DecimalDigits(n)) == 10 * Pow(10, DecimalDigits(n / 10));
    }
  }

  // The joined number splits back into a (the leading digits) and b (the
  // trailing DecimalDigits(b) digits).
  lemma JoinSplits(a: nat, b: nat)
    ensures var p := Pow(10, DecimalDigits(b)); Join(a, b) / p == a && Join(a, b) % p == b
  {
    var p := Pow(10, DecimalDigits(b));
    DigitsBound(b);
    DivModUnique(a * p + b, p, a, b);
  }

  lemma DivModUnique(n: nat, p: nat, q: nat, r: nat)
    requires p > 0 && r < p && n == q * p + r
    ensures n / p == q && n % p == r
  {
    var d := q - n / p;
    assert d * p == n % p - r;
    assert -(p as int) < d * p < p;
  }

  function Apply(op: nat, acc: nat, x: nat): nat
  {
    if op == OP_ADD then acc + x else if op == OP_MUL then acc * x else Join(acc, x)
  }

  // A line has a target and at least one number (`day07` computes
  // r.len() - 2 operator slots).
  predicate Line(r: seq<nat>)
  {
    |r| >= 2
  }

  function Slots(r: seq<nat>): nat
    requires Line(r)
  {
    |r| - 2
  }

  // The accumulator after the numbers r[1..k], the operator ops[i - 2]
  // applied with r[i].
  function Eval(r: seq<nat>, ops: seq<nat>, k: nat): nat
    requires 2 <= k <= |r| && |ops| >= k - 2
  {
    if k == 2 then r[1] else Apply(ops[k - 3], Eval(r, ops, k - 1), r[k - 1])
  }

  // A choice of operator codes below `base` for each slot.
  predicate Codes(ops: seq<nat>, n: nat, base: nat)
  {
    |ops| == n && forall i :: 0 <= i < n ==> ops[i] < base
  }

  // What each part accepts: some choice of operators gives the target.
  ghost predicate Holds(r: seq<nat>, base: nat)
    requires Line(r)
  {
    exists ops :: Codes(ops, Slots(r), base) && Eval(r, ops, |r|) == r[0]
  }

  // ---------------------------------------------------------------------
  // Part one: a bitmap of operators

  // Bit k of m, as (m >> k) & 1.
  function Bit(m: nat, k: nat): (b: nat)
    ensures b < 2
  {
    if k == 0 then m % 2 else Bit(m / 2, k - 1)
  }

  function BitsOf(m: nat, n: nat): (ops: seq<nat>)
    ensures Codes(ops, n, 2) && forall i :: 0 <= i < n ==> ops[i] == Bit(m, i)
  {
    seq(n, i requires 0 <= i < n => Bit(m, i))
  }

  // The bitmap whose bit i is ops[i].
  function Encode(ops: seq<nat>): nat
    requires forall i :: 0 <= i < |ops| ==> ops[i] < 2
  {
    if ops == [] then 0 else ops[0] + 2 * Encode(ops[1..])
  }

  lemma {:induction false} EncodeBits(ops: seq<nat>)
    requires forall i :: 0 <= i < |ops| ==> ops[i] < 2
    ensures Encode(ops) < Pow(2, |ops|)
    ensures BitsOf(Encode(ops), |ops|) == ops
  {
    if ops != [] {
      var t := ops[1..];
      EncodeBits(t);
      var m := Encode(ops);
      assert m / 2 == Encode(t) && m % 2 == ops[0];
      forall i | 0 <= i < |ops|
        ensures Bit(m, i) == ops[i]
      {
        if i > 0 {
          assert BitsOf(Encode(t), |t|)[i - 1] == t[i - 1];
        }
      }
    }
  }

  // Evaluating every bitmap below 1 << (n + 1), twice as many as the n
  // slots need (the spare high bit is never read).
  method HoldsWithAddMul(r: seq<nat>) returns (validLine: bool)
    requires Line(r)
    ensures validLine <==> Holds(r, 2)
  {
    var numOps := Slots(r);
    var opMapDone := Pow(2, numOps + 1);
    validLine := false;
    for opMap := 0 to opMapDone
      invariant validLine <==> exists m :: 0 <= m < opMap && Eval(r, BitsOf(m, numOps), |r|) == r[0]
    {
      var result := r[1];
      for i := 2 to |r|
        invariant result == Eval(r, BitsOf(opMap, numOps), i)
      {
        var op := Bit(opMap, i - 2);
        if op == 0 {
          result := result + r[i];
        } else {
          result := result * r[i];
        }
      }
      if result == r[0] {
        validLine := true;
      }
    }
    if Holds(r, 2) {
      var ops :| Codes(ops, numOps, 2) && Eval(r, ops, |r|) == r[0];
      EncodeBits(ops);
      assert Pow(2, numOps + 1) == 2 * Pow(2, numOps);
      assert Eval(r, BitsOf(Encode(ops), numOps), |r|) == r[0];
    }
  }

  // ---------------------------------------------------------------------
  // Part two: a base-3 counter of operators

  // The slots read as a base-3 number, slot 0 least significant.
  function Value(s: seq<nat>): nat
    decreases |s|
  {
    if s == [] then 0 else Value(s[..|s| - 1]) + s[|s| - 1] * Pow(3, |s| - 1)
  }

  lemma {:induction false} ValueBound(s: seq<nat>)
    requires Codes(s, |s|, 3)
    ensures Value(s) <= Pow(3, |s|) - 1
    ensures Value(s) == Pow(3, |s|) - 1 <==> forall i :: 0 <= i < |s| ==> s[i] == OP_JOIN
    decreases |s|
  {
    if s != [] {
      var n := |s| - 1;
      var p := Pow(3, n);
      ValueBound(s[..n]);
      assert Pow(3, |s|) == 3 * p;
      assert s[n] == 0 || s[n] == 1 || s[n] == 2;
      if forall i :: 0 <= i < |s| ==> s[i] == OP_JOIN {
        assert forall i :: 0 <= i < n ==> s[..n][i] == OP_JOIN;
      } else if forall i :: 0 <= i < n ==> s[..n][i] == OP_JOIN {
        assert s[n] != OP_JOIN;
      }
    }
  }

  lemma {:induction false} ValueInjective(s: seq<nat>, t: seq<nat>)
    requires Codes(s, |s|, 3) && Codes(t, |s|, 3) && Value(s) == Value(t)
    ensures s == t
    decreases |s|
  {
    if s != [] {
      var n := |s| - 1;
      var p := Pow(3, n);
      ValueBound(s[..n]);
      ValueBound(t[..n]);
      DigitsAgree(Value(s[..n]), Value(t[..n]), s[n], t[n], p);
      ValueInjective(s[..n], t[..n]);
      assert s == s[..n] + [s[n]] && t == t[..n] + [t[n]];
    }
  }

  // Two base-3 numbers with the same lower part bound agree digit by digit.
  lemma DigitsAgree(a: nat, b: nat, x: nat, y: nat, p: nat)
    requires a < p && b < p && x < 3 && y < 3 && a + x * p == b + y * p
    ensures x == y && a == b
  {
    assert x == 0 || x == 1 || x == 2;
    assert y == 0 || y == 1 || y == 2;
  }

  // The carry step of `inc_ops_map` over slots 0..i - 1, stated by value:
  // the slots changed so far, plus a pending carry worth 3^i, exceed the
  // old slots by one.
  lemma CarryStep(old0: seq<nat>, new0: seq<nat>, i: nat, carry: bool, d: nat, carry': bool)
    requires i < |old0| && |new0| == |old0| && old0[i] < 3
    requires Value(new0[..i]) + (if carry then Pow(3, i) else 0) == Value(old0[..i]) + 1
    requires (if carry then old0[i] + 1 else old0[i]) == 3 ==> d == 0 && carry'
    requires (if carry then old0[i] + 1 else old0[i]) != 3 ==> d == (if carry then old0[i] + 1 else old0[i]) && !carry'
    ensures Value(new0[..i] + [d]) + (if carry' then Pow(3, i + 1) else 0) == Value(old0[..i + 1]) + 1
  {
    var p := Pow(3, i);
    assert Pow(3, i + 1) == 3 * p;
    assert old0[..i + 1] == old0[..i] + [old0[i]];
    assert (new0[..i] + [d])[..i] == new0[..i];
    assert Value(old0[..i + 1]) == Value(old0[..i]) + old0[i] * p;
    assert Value(new0[..i] + [d]) == Value(new0[..i]) + d * p;
    assert old0[i] == 0 || old0[i] == 1 || old0[i] == 2;
    assert d == 0 || d == 1 || d == 2;
  }

  // The carry loop of `inc_ops_map` after slot i - 1: the slots from i on
  // are untouched, the ones before are digits, and the slots changed so far,
  // plus a pending carry worth 3^i, exceed the old slots by one.
  ghost predicate Carrying(old0: seq<nat>, cur: seq<nat>, i: nat, carry: bool)
  {
    i <= |old0| && |cur| == |old0| &&
    (forall j :: i <= j < |old0| ==> cur[j] == old0[j]) &&
    (forall j :: 0 <= j < i ==> cur[j] < 3) &&
    Value(cur[..i]) + (if carry then Pow(3, i) else 0) == Value(old0[..i]) + 1
  }

  lemma CarryNext(old0: seq<nat>, cur: seq<nat>, i: nat, carry: bool, d: nat, carry': bool)
    requires Codes(old0, |old0|, 3) && Carrying(old0, cur, i, carry) && i < |old0|
    requires carry' <==> cur[i] + (if carry then 1 else 0) == OP_OVERFLOW
    requires d == if carry' then OP_ADD else cur[i] + (if carry then 1 else 0)
    ensures Carrying(old0, cur[i := d], i + 1, carry')
  {
    var next := cur[i := d];
    assert cur[i] == old0[i] < 3 && d < 3;
    assert forall j :: i + 1 <= j < |old0| ==> next[j] == old0[j];
    assert forall j :: 0 <= j < i + 1 ==> next[j] < 3;
    assert next[..i + 1] == cur[..i] + [d];
    CarryStep(old0, cur, i, carry, d, carry');
  }

  // The loop ends without a carry, one above the old value.
  lemma CarryDone(old0: seq<nat>, cur: seq<nat>, carry: bool)
    requires Codes(old0, |old0|, 3) && Carrying(old0, cur, |old0|, carry)
    requires !forall i :: 0 <= i < |old0| ==> old0[i] == OP_JOIN
    ensures !carry && Codes(cur, |cur|, 3) && Value(cur) == Value(old0) + 1
  {
    assert cur[..|cur|] == cur && old0[..|old0|] == old0;
    ValueBound(old0);
  }

  // `inc_ops_map`: false, with the slots unchanged, once every slot is
  // JOIN; otherwise the next base-3 value, and the final carry `day07`
  // panics on never occurs.
  method IncOpsMap(opsMap: array<nat>) returns (more: bool)
    requires Codes(opsMap[..], opsMap.Length, 3)
    modifies opsMap
    ensures Codes(opsMap[..], opsMap.Length, 3)
    ensures !more <==> forall i :: 0 <= i < opsMap.Length ==> old(opsMap[i]) == OP_JOIN
    ensures !more ==> opsMap[..] == old(opsMap[..])
    ensures more ==> Value(opsMap[..]) == Value(old(opsMap[..])) + 1
  {
    if forall i :: 0 <= i < opsMap.Length ==> opsMap[i] == OP_JOIN {
      return false;
    }
    ghost var old0 := opsMap[..];
    var carry := true;
    for i := 0 to opsMap.Length
      invariant Carrying(old0, opsMap[..], i, carry)
    {
      ghost var before := opsMap[..];
      var d := opsMap[i] + if carry then 1 else 0;
      var carry' := d == OP_OVERFLOW;
      if carry' {
        d := OP_ADD;
      }
      CarryNext(old0, before, i, carry, d, carry');
      opsMap[i] := d;
      assert opsMap[..] == before[i := d];
      carry := carry';
    }
    CarryDone(old0, opsMap[..], carry);
    if carry {
      // `day07` panics here ("unexpected carry overflow"); the value
      // count shows it cannot happen.
      assert false;
    }
    return true;
  }

  // Tries the operator maps in counting order from all-ADD, stopping at a
  // match or after the all-JOIN map.
  method HoldsWithJoin(r: seq<nat>) returns (validLine: bool)
    requires Line(r)
    ensures validLine <==> Holds(r, 3)
  {
    var numOps := Slots(r);
    var opsMap := new nat[numOps](_ => OP_ADD);
    assert Value(opsMap[..]) == 0 by {
      ZeroValue(opsMap[..]);
    }
    validLine := false;
    var done := false;
    ValueBound(opsMap[..]);
    while !(done || validLine)
      invariant Codes(opsMap[..], numOps, 3)
      invariant Value(opsMap[..]) <= Pow(3, numOps) - 1
      invariant !done && !validLine ==> NoneBelow(r, Value(opsMap[..]))
      invariant done && !validLine ==> NoneBelow(r, Pow(3, numOps))
      invariant validLine ==> Holds(r, 3)
      decreases Pow(3, numOps) - Value(opsMap[..]), if done || validLine then 0 else 1
    {
      var result := EvalMap(r, opsMap);
      ghost var tried := opsMap[..];
      if result == r[0] {
        validLine := true;
      }
      var more := IncOpsMap(opsMap);
      done := !more;
      ValueBound(opsMap[..]);
      if !validLine {
        TriedNext(r, tried, opsMap[..], more);
      }
    }
    if done && !validLine {
      NoneHold(r);
    }
  }

  // The inner loop of `holds_with_join`: the numbers combined left to right
  // under the operator map.
  method EvalMap(r: seq<nat>, opsMap: array<nat>) returns (result: nat)
    requires Line(r) && opsMap.Length == Slots(r)
    ensures result == Eval(r, opsMap[..], |r|)
  {
    result := r[1];
    for i := 2 to |r|
      invariant result == Eval(r, opsMap[..], i)
    {
      var op := opsMap[i - 2];
      EvalNext(r, opsMap[..], i);
      if op == OP_ADD {
        result := result + r[i];
      } else if op == OP_MUL {
        result := result * r[i];
      } else {
        result := Join(result, r[i]);
      }
    }
  }

  lemma EvalNext(r: seq<nat>, ops: seq<nat>, i: nat)
    requires 2 <= i < |r| && |ops| >= i - 1
    ensures Eval(r, ops, i + 1) == Apply(ops[i - 2], Eval(r, ops, i), r[i])
  {
  }

  // No operator map with a value below v makes line r hold.
  ghost predicate NoneBelow(r: seq<nat>, v: nat)
    requires Line(r)
  {
    forall s :: Codes(s, Slots(r), 3) && Value(s) < v ==> Eval(r, s, |r|) != r[0]
  }

  // After a failed map, the next one in counting order (or none at all,
  // after the all-JOIN map) bounds the maps tried.
  lemma TriedNext(r: seq<nat>, tried: seq<nat>, next: seq<nat>, more: bool)
    requires Line(r) && Codes(tried, Slots(r), 3) && Codes(next, Slots(r), 3)
    requires NoneBelow(r, Value(tried)) && Eval(r, tried, |r|) != r[0]
    requires more ==> Value(next) == Value(tried) + 1
    requires !more <==> forall i :: 0 <= i < |tried| ==> tried[i] == OP_JOIN
    ensures more ==> NoneBelow(r, Value(next))
    ensures !more ==> NoneBelow(r, Pow(3, Slots(r)))
  {
    ValueBound(tried);
    forall s | Codes(s, Slots(r), 3) && Value(s) <= Value(tried)
      ensures Eval(r, s, |r|) != r[0]
    {
      if Value(s) == Value(tried) {
        ValueInjective(s, tried);
      }
    }
  }

  // Every map's value is below 3^slots.
  lemma NoneHold(r: seq<nat>)
    requires Line(r) && NoneBelow(r, Pow(3, Slots(r)))
    ensures !Holds(r, 3)
  {
    forall s | Codes(s, Slots(r), 3)
      ensures Eval(r, s, |r|) != r[0]
    {
      ValueBound(s);
    }
  }

  lemma {:induction false} ZeroValue(s: seq<nat>)
    requires forall i :: 0 <= i < |s| ==> s[i] == OP_ADD
    ensures Value(s) == 0
    decreases |s|
  {
    if s != [] {
      ZeroValue(s[..|s| - 1]);
    }
  }

  // Part two accepts every line part one accepts.
  lemma MoreOperators(r: seq<nat>)
    requires Line(r) && Holds(r, 2)
    ensures Holds(r, 3)
  {
    var ops :| Codes(ops, Slots(r), 2) && Eval(r, ops, |r|) == r[0];
    assert Codes(ops, Slots(r), 3);
  }

  // ---------------------------------------------------------------------
  // The sums

  ghost function SumHolding(data: seq<seq<nat>>, base: nat): nat
    requires forall r :: r in data ==> Line(r)
    decreases |data|
  {
    if data == [] then 0
    else
      var r := data[|data| - 1];
      SumHolding(data[..|data| - 1], base) + if Holds(r, base) then r[0] else 0
  }

  method Solve(data: seq<seq<nat>>) returns (validSum1: nat, validSum2: nat)
    requires forall r :: r in data ==> Line(r)
    ensures validSum1 == SumHolding(data, 2) && validSum2 == SumHolding(data, 3)
  {
    validSum1, validSum2 := 0, 0;
    for i := 0 to |data|
      invariant validSum1 == SumHolding(data[..i], 2) && validSum2 == SumHolding(data[..i], 3)
    {
      assert data[..i + 1][..i] == data[..i];
      var r := data[i];
      var ok1 := HoldsWithAddMul(r);
      var ok2 := HoldsWithJoin(r);
      validSum1 := validSum1 + if ok1 then r[0] else 0;
      validSum2 := validSum2 + if ok2 then r[0] else 0;
    }
    assert data[..|data|] == data;
  }

  // Part two's sum is at least part one's.
  lemma {:induction false} SumsOrdered(data: seq<seq<nat>>)
    requires forall r :: r in data ==> Line(r)
    ensures SumHolding(data, 2) <= SumHolding(data, 3)
    decreases |data|
  {
    if data != [] {
      var r := data[|data| - 1];
      SumsOrdered(data[..|data| - 1]);
      if Holds(r, 2) {
        MoreOperators(r);
      }
    }
  }
}
