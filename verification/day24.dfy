// src/day24.rs: a circuit of AND, OR and XOR gates over named wires.
// `run_calculation` sweeps the gates again and again, evaluating every gate
// whose two inputs have values, until a sweep evaluates nothing; part one
// reads the z wires, in ascending id order, as a binary number.
//
// The circuit is a `Circuit` object whose wire and gate lists the methods
// update; the functions on `Wiring` values below say what each method
// leaves. The input lines arrive already split into their fields.
module Day24 {
  import opened Wrappers

  // ---------------------------------------------------------------------
  // Operations

  datatype Operation = AND | OR | XOR

  function FromStr(s: string): (op: Operation)
    requires s == "AND" || s == "OR" || s == "XOR"
    ensures ToString(op) == s
  {
    if s == "AND" then AND else if s == "OR" then OR else XOR
  }

  function ToString(op: Operation): (s: string)
    ensures s == "AND" || s == "OR" || s == "XOR"
  {
    match op
    case AND => "AND"
    case OR => "OR"
    case XOR => "XOR"
  }

  // Reading back a written operation gives the operation.
  lemma FromToString(op: Operation)
    ensures FromStr(ToString(op)) == op
  {
  }

  function Operate(op: Operation, left: bool, right: bool): bool
  {
    match op
    case AND => left && right
    case OR => left || right
    case XOR => left != right
  }

  // The truth table: AND is true only on two trues, OR is false only on
  // two falses, XOR is OR without AND; every operation is symmetric.
  lemma TruthTable(op: Operation, left: bool, right: bool)
    ensures Operate(AND, left, right) <==> left && right
    ensures !Operate(OR, left, right) <==> !left && !right
    ensures Operate(XOR, left, right) <==> Operate(OR, left, right) && !Operate(AND, left, right)
    ensures Operate(op, left, right) == Operate(op, right, left)
  {
  }

  // ---------------------------------------------------------------------
  // Wires and gates

  datatype Wire = Wire(id: string, value: Option<bool>, outputGates: seq<nat>)

  // `Wire::update`: only a wire without a value takes one.
  function Update(w: Wire, v: bool): (r: Wire)
    ensures r.(value := None) == w.(value := None)
    ensures r.value.Some?
    ensures w.value.Some? ==> r == w
  {
    if w.value.None? then w.(value := Some(v)) else w
  }

  // The first write wins.
  lemma FirstWriteWins(w: Wire, u: bool, v: bool)
    ensures Update(Update(w, u), v) == Update(w, u)
    ensures w.value.None? ==> Update(Update(w, u), v).value == Some(u)
  {
  }

  datatype Gate = Gate(outputValue: Option<bool>, inputA: string, inputB: string, outputId: string, op: Operation)

  datatype Wiring = Wiring(wires: seq<Wire>, gates: seq<Gate>)

  // The wires and gates with every value taken away.
  function Blank(ws: seq<Wire>): seq<Wire>
  {
    seq(|ws|, i requires 0 <= i < |ws| => ws[i].(value := None))
  }

  function Unset(gs: seq<Gate>): seq<Gate>
  {
    seq(|gs|, i requires 0 <= i < |gs| => gs[i].(outputValue := None))
  }

  function Shape(w: Wiring): Wiring
  {
    Wiring(Blank(w.wires), Unset(w.gates))
  }

  function IdsOf(ws: seq<Wire>): seq<string>
  {
    seq(|ws|, i requires 0 <= i < |ws| => ws[i].id)
  }

  function Ids(ws: seq<Wire>): seq<string>
  {
    IdsOf(Blank(ws))
  }

  lemma BlankSet(ws: seq<Wire>, j: nat, v: Option<bool>)
    requires j < |ws|
    ensures Blank(ws[j := ws[j].(value := v)]) == Blank(ws)
  {
    assert forall i :: 0 <= i < |ws| ==> ws[j := ws[j].(value := v)][i].(value := None) == ws[i].(value := None);
  }

  lemma UnsetSet(gs: seq<Gate>, i: nat, v: Option<bool>)
    requires i < |gs|
    ensures Unset(gs[i := gs[i].(outputValue := v)]) == Unset(gs)
  {
    assert forall k :: 0 <= k < |gs| ==> gs[i := gs[i].(outputValue := v)][k].(outputValue := None) == gs[k].(outputValue := None);
  }

  // `position`: the first index holding the id.
  function Find(ids: seq<string>, id: string): (r: Option<nat>)
    ensures r.Some? ==> r.value < |ids| && ids[r.value] == id
    ensures r.None? ==> id !in ids
  {
    FindFrom(ids, id, 0)
  }

  function FindFrom(ids: seq<string>, id: string, i: nat): (r: Option<nat>)
    requires i <= |ids|
    ensures r.Some? ==> i <= r.value < |ids| && ids[r.value] == id
    ensures r.None? ==> id !in ids[i..]
    decreases |ids| - i
  {
    if i == |ids| then None
    else if ids[i] == id then Some(i)
    else FindFrom(ids, id, i + 1)
  }

  // Find returns the first match.
  lemma {:induction false} FindFirst(ids: seq<string>, id: string, i: nat, j: nat)
    requires i <= j < |ids| && FindFrom(ids, id, i).Some? && j < FindFrom(ids, id, i).value
    ensures ids[j] != id
    decreases |ids| - i
  {
    if i < j {
      FindFirst(ids, id, i + 1, j);
    }
  }

  // `get_wire_by_id(id).value`; None also for a missing wire.
  function Value(ws: seq<Wire>, id: string): Option<bool>
  {
    match Find(Ids(ws), id)
    case Some(i) => if i < |ws| then ws[i].value else None
    case None => None
  }

  lemma IdsLength(ws: seq<Wire>)
    ensures |Ids(ws)| == |ws|
  {
  }

  // Every id a gate names is a wire's (`day24` unwraps the lookups).
  predicate ClosedShape(s: Wiring)
  {
    forall g :: 0 <= g < |s.gates| ==>
      Find(IdsOf(s.wires), s.gates[g].inputA).Some? && Find(IdsOf(s.wires), s.gates[g].inputB).Some? &&
      Find(IdsOf(s.wires), s.gates[g].outputId).Some?
  }

  predicate Closed(w: Wiring)
  {
    ClosedShape(Shape(w))
  }

  lemma ClosedGate(w: Wiring, g: nat)
    requires Closed(w) && g < |w.gates|
    ensures Find(Ids(w.wires), w.gates[g].inputA).Some? && Find(Ids(w.wires), w.gates[g].inputB).Some?
    ensures Find(Ids(w.wires), w.gates[g].outputId).Some?
  {
    assert Shape(w).gates[g].inputA == w.gates[g].inputA;
  }

  // ---------------------------------------------------------------------
  // Evaluation

  // One gate of a sweep: a gate without a value whose two inputs have
  // values gets op(a, b), which is also written to its output wire; n
  // counts the gates evaluated.
  function Visit(w: Wiring, i: nat, n: nat): (r: (Wiring, nat))
    requires Closed(w) && i < |w.gates|
    ensures Shape(r.0) == Shape(w)
  {
    var g := w.gates[i];
    var a, b := Value(w.wires, g.inputA), Value(w.wires, g.inputB);
    if g.outputValue.None? && a.Some? && b.Some? then
      var v := Operate(g.op, a.value, b.value);
      ClosedGate(w, i);
      IdsLength(w.wires);
      var j := Find(Ids(w.wires), g.outputId).value;
      BlankSet(w.wires, j, Update(w.wires[j], v).value);
      UnsetSet(w.gates, i, Some(v));
      (Wiring(w.wires[j := Update(w.wires[j], v)], w.gates[i := g.(outputValue := Some(v))]), n + 1)
    else
      (w, n)
  }

  // The rest of a sweep, from gate i on.
  function PassFrom(w: Wiring, i: nat, n: nat): (r: (Wiring, nat))
    requires Closed(w) && i <= |w.gates|
    ensures Shape(r.0) == Shape(w)
    decreases |w.gates| - i
  {
    if i == |w.gates| then (w, n)
    else
      var (w', n') := Visit(w, i, n);
      PassFrom(w', i + 1, n')
  }

  // The gates without a value.
  function Pending(gs: seq<Gate>): nat
  {
    if gs == [] then 0
    else Pending(gs[..|gs| - 1]) + if gs[|gs| - 1].outputValue.None? then 1 else 0
  }

  lemma {:induction false} PendingSet(gs: seq<Gate>, i: nat, v: bool)
    requires i < |gs| && gs[i].outputValue.None?
    ensures Pending(gs[i := gs[i].(outputValue := Some(v))]) + 1 == Pending(gs)
    decreases |gs|
  {
    var gs' := gs[i := gs[i].(outputValue := Some(v))];
    var n := |gs| - 1;
    assert gs'[..n] == if i < n then gs[..n][i := gs[i].(outputValue := Some(v))] else gs[..n];
    if i < n {
      PendingSet(gs[..n], i, v);
    }
  }

  // Every evaluation counted is one gate fewer without a value.
  lemma VisitCount(w: Wiring, i: nat, n: nat)
    requires Closed(w) && i < |w.gates|
    ensures Visit(w, i, n).1 + Pending(Visit(w, i, n).0.gates) == n + Pending(w.gates)
    ensures Visit(w, i, n).1 == n ==> Visit(w, i, n).0 == w
  {
    var g := w.gates[i];
    var a, b := Value(w.wires, g.inputA), Value(w.wires, g.inputB);
    if g.outputValue.None? && a.Some? && b.Some? {
      PendingSet(w.gates, i, Operate(g.op, a.value, b.value));
    }
  }

  lemma {:induction false} PassCount(w: Wiring, i: nat, n: nat)
    requires Closed(w) && i <= |w.gates|
    ensures PassFrom(w, i, n).1 + Pending(PassFrom(w, i, n).0.gates) == n + Pending(w.gates)
    ensures PassFrom(w, i, n).1 >= n
    decreases |w.gates| - i
  {
    if i < |w.gates| {
      var (w', n') := Visit(w, i, n);
      VisitCount(w, i, n);
      PassCount(w', i + 1, n');
    }
  }

  // `run_calculation`: sweep until a sweep evaluates nothing.
  function Settle(w: Wiring): (r: Wiring)
    requires Closed(w)
    ensures Shape(r) == Shape(w)
    decreases Pending(w.gates)
  {
    var (w', n) := PassFrom(w, 0, 0);
    PassCount(w, 0, 0);
    if n == 0 then w' else Settle(w')
  }

  // ---------------------------------------------------------------------
  // What evaluation keeps

  // A wire or gate that has a value keeps it.
  predicate Grows(w: Wiring, w': Wiring)
  {
    |w'.wires| == |w.wires| && |w'.gates| == |w.gates| &&
    (forall j :: 0 <= j < |w.wires| && w.wires[j].value.Some? ==> w'.wires[j].value == w.wires[j].value) &&
    (forall g :: 0 <= g < |w.gates| && w.gates[g].outputValue.Some? ==> w'.gates[g].outputValue == w.gates[g].outputValue)
  }

  lemma GrowsTrans(w1: Wiring, w2: Wiring, w3: Wiring)
    requires Grows(w1, w2) && Grows(w2, w3)
    ensures Grows(w1, w3)
  {
  }

  lemma ShapeSizes(w: Wiring, w': Wiring)
    requires Shape(w') == Shape(w)
    ensures |w'.wires| == |w.wires| && |w'.gates| == |w.gates| && Ids(w'.wires) == Ids(w.wires)
    ensures forall g :: 0 <= g < |w.gates| ==> w'.gates[g].(outputValue := None) == w.gates[g].(outputValue := None)
  {
    assert |Blank(w'.wires)| == |w'.wires| && |Unset(w'.gates)| == |w'.gates|;
    forall g | 0 <= g < |w.gates|
      ensures w'.gates[g].(outputValue := None) == w.gates[g].(outputValue := None)
    {
      assert Unset(w'.gates)[g] == Unset(w.gates)[g];
    }
  }

  // Under the same ids, a wire that has a value keeps it.
  lemma ValueGrows(w: Wiring, w': Wiring, id: string)
    requires Shape(w') == Shape(w) && Grows(w, w') && Value(w.wires, id).Some?
    ensures Value(w'.wires, id) == Value(w.wires, id)
  {
    ShapeSizes(w, w');
  }

  lemma VisitGrows(w: Wiring, i: nat, n: nat)
    requires Closed(w) && i < |w.gates|
    ensures Grows(w, Visit(w, i, n).0)
  {
  }

  lemma {:induction false} PassGrows(w: Wiring, i: nat, n: nat)
    requires Closed(w) && i <= |w.gates|
    ensures Grows(w, PassFrom(w, i, n).0)
    decreases |w.gates| - i
  {
    if i < |w.gates| {
      var (w', n') := Visit(w, i, n);
      VisitGrows(w, i, n);
      PassGrows(w', i + 1, n');
      GrowsTrans(w, w', PassFrom(w', i + 1, n').0);
    }
  }

  // Each gate is evaluated at most once: once it and its wires have values,
  // they stay.
  lemma {:induction false} SettleGrows(w: Wiring)
    requires Closed(w)
    ensures Grows(w, Settle(w))
    decreases Pending(w.gates)
  {
    var (w', n) := PassFrom(w, 0, 0);
    PassGrows(w, 0, 0);
    PassCount(w, 0, 0);
    if n != 0 {
      SettleGrows(w');
      GrowsTrans(w, w', Settle(w'));
    }
  }

  // Every gate with a value holds op of its inputs' values, and its output
  // wire has a value.
  predicate Consistent(w: Wiring)
  {
    forall g :: 0 <= g < |w.gates| && w.gates[g].outputValue.Some? ==>
      var gate := w.gates[g];
      Value(w.wires, gate.inputA).Some? && Value(w.wires, gate.inputB).Some? &&
      gate.outputValue.value == Operate(gate.op, Value(w.wires, gate.inputA).value, Value(w.wires, gate.inputB).value) &&
      Value(w.wires, gate.outputId).Some?
  }

  lemma ConsistentGrows(w: Wiring, w': Wiring)
    requires Consistent(w) && Shape(w') == Shape(w) && Grows(w, w')
    requires forall g :: 0 <= g < |w.gates| && w.gates[g].outputValue.None? && w'.gates[g].outputValue.Some? ==>
      var gate := w'.gates[g];
      Value(w'.wires, gate.inputA).Some? && Value(w'.wires, gate.inputB).Some? &&
      gate.outputValue.value == Operate(gate.op, Value(w'.wires, gate.inputA).value, Value(w'.wires, gate.inputB).value) &&
      Value(w'.wires, gate.outputId).Some?
    ensures Consistent(w')
  {
    ShapeSizes(w, w');
    forall g | 0 <= g < |w'.gates| && w'.gates[g].outputValue.Some?
      ensures var gate := w'.gates[g];
        Value(w'.wires, gate.inputA).Some? && Value(w'.wires, gate.inputB).Some? &&
        gate.outputValue.value == Operate(gate.op, Value(w'.wires, gate.inputA).value, Value(w'.wires, gate.inputB).value) &&
        Value(w'.wires, gate.outputId).Some?
    {
      if w.gates[g].outputValue.Some? {
        var gate := w.gates[g];
        assert w'.gates[g] == gate;
        ValueGrows(w, w', gate.inputA);
        ValueGrows(w, w', gate.inputB);
        ValueGrows(w, w', gate.outputId);
      }
    }
  }

  lemma VisitConsistent(w: Wiring, i: nat, n: nat)
    requires Closed(w) && i < |w.gates| && Consistent(w)
    ensures Consistent(Visit(w, i, n).0)
  {
    var w' := Visit(w, i, n).0;
    VisitGrows(w, i, n);
    ShapeSizes(w, w');
    var g := w.gates[i];
    var a, b := Value(w.wires, g.inputA), Value(w.wires, g.inputB);
    if g.outputValue.None? && a.Some? && b.Some? {
      ValueGrows(w, w', g.inputA);
      ValueGrows(w, w', g.inputB);
      ClosedGate(w, i);
    }
    ConsistentGrows(w, w');
  }

  lemma {:induction false} PassConsistent(w: Wiring, i: nat, n: nat)
    requires Closed(w) && i <= |w.gates| && Consistent(w)
    ensures Consistent(PassFrom(w, i, n).0)
    decreases |w.gates| - i
  {
    if i < |w.gates| {
      var (w', n') := Visit(w, i, n);
      VisitConsistent(w, i, n);
      PassConsistent(w', i + 1, n');
    }
  }

  lemma {:induction false} SettleConsistent(w: Wiring)
    requires Closed(w) && Consistent(w)
    ensures Consistent(Settle(w))
    decreases Pending(w.gates)
  {
    var (w', n) := PassFrom(w, 0, 0);
    PassConsistent(w, 0, 0);
    PassCount(w, 0, 0);
    if n != 0 {
      SettleConsistent(w');
    }
  }

  // Every gate still without a value has an input without a value.
  predicate Stuck(w: Wiring)
  {
    forall g :: 0 <= g < |w.gates| && w.gates[g].outputValue.None? ==>
      Value(w.wires, w.gates[g].inputA).None? || Value(w.wires, w.gates[g].inputB).None?
  }

  // A sweep from i that evaluates nothing changes nothing and leaves every
  // gate from i on stuck.
  lemma {:induction false} IdleSweep(w: Wiring, i: nat, n: nat)
    requires Closed(w) && i <= |w.gates| && PassFrom(w, i, n).1 == n
    ensures PassFrom(w, i, n).0 == w
    ensures forall g :: i <= g < |w.gates| && w.gates[g].outputValue.None? ==>
      Value(w.wires, w.gates[g].inputA).None? || Value(w.wires, w.gates[g].inputB).None?
    decreases |w.gates| - i
  {
    if i < |w.gates| {
      var v := Visit(w, i, n);
      assert PassFrom(w, i, n) == PassFrom(v.0, i + 1, v.1);
      PassCount(v.0, i + 1, v.1);
      VisitCount(w, i, n);
      assert v.1 == n && v.0 == w;
      IdleSweep(w, i + 1, n);
    }
  }

  // After `run_calculation`, every gate without a value is stuck.
  lemma {:induction false} SettleStuck(w: Wiring)
    requires Closed(w)
    ensures Stuck(Settle(w))
    decreases Pending(w.gates)
  {
    var (w', n) := PassFrom(w, 0, 0);
    PassCount(w, 0, 0);
    if n == 0 {
      IdleSweep(w, 0, 0);
    } else {
      SettleStuck(w');
    }
  }

  // ---------------------------------------------------------------------
  // The order of the x, y and z wires

  // `chars().nth(0) == Some(c)`.
  predicate Starts(id: string, c: char)
  {
    |id| > 0 && id[0] == c
  }

  // The string order: character by character, a prefix first.
  predicate Le(a: string, b: string)
  {
    |a| == 0 || (|b| > 0 && (a[0] < b[0] || (a[0] == b[0] && Le(a[1..], b[1..]))))
  }

  lemma {:induction false} LeTotal(a: string, b: string)
    ensures Le(a, b) || Le(b, a)
    decreases |a|
  {
    if |a| > 0 && |b| > 0 && a[0] == b[0] {
      LeTotal(a[1..], b[1..]);
    }
  }

  lemma {:induction false} LeTrans(a: string, b: string, c: string)
    requires Le(a, b) && Le(b, c)
    ensures Le(a, c)
    decreases |a|
  {
    if |a| > 0 && a[0] == b[0] && b[0] == c[0] {
      LeTrans(a[1..], b[1..], c[1..]);
    }
  }

  predicate InRange(ids: seq<string>, s: seq<nat>)
  {
    forall m :: 0 <= m < |s| ==> s[m] < |ids|
  }

  predicate NoDup(s: seq<nat>)
  {
    forall i, j :: 0 <= i < j < |s| ==> s[i] != s[j]
  }

  predicate SortedBy(ids: seq<string>, s: seq<nat>)
    requires InRange(ids, s)
  {
    forall i, j :: 0 <= i < j < |s| ==> Le(ids[s[i]], ids[s[j]])
  }

  // The indices of the wires whose id starts with c, in list order.
  function Selected(ids: seq<string>, c: char, k: nat): (s: seq<nat>)
    requires k <= |ids|
    ensures InRange(ids, s) && (forall m :: 0 <= m < |s| ==> s[m] < k && Starts(ids[s[m]], c))
    ensures forall j :: 0 <= j < k && Starts(ids[j], c) ==> j in s
    ensures forall i, j :: 0 <= i < j < |s| ==> s[i] < s[j]
  {
    if k == 0 then []
    else Selected(ids, c, k - 1) + if Starts(ids[k - 1], c) then [k - 1] else []
  }

  // Stable insertion: k goes after every index whose id is not greater.
  function Insert(ids: seq<string>, k: nat, s: seq<nat>): (r: seq<nat>)
    requires k < |ids| && InRange(ids, s)
    ensures InRange(ids, r) && multiset(r) == multiset(s) + multiset{k}
  {
    if s == [] then [k]
    else if !Le(ids[s[0]], ids[k]) then [k] + s
    else
      assert s == [s[0]] + s[1..];
      [s[0]] + Insert(ids, k, s[1..])
  }

  // `sort_by` on the ids, which keeps equal ids in list order.
  function Sort(ids: seq<string>, s: seq<nat>): (r: seq<nat>)
    requires InRange(ids, s)
    ensures InRange(ids, r) && multiset(r) == multiset(s)
  {
    if s == [] then []
    else
      assert s == s[..|s| - 1] + [s[|s| - 1]];
      Insert(ids, s[|s| - 1], Sort(ids, s[..|s| - 1]))
  }

  lemma ConsSorted(ids: seq<string>, x: nat, r: seq<nat>)
    requires x < |ids| && InRange(ids, r) && SortedBy(ids, r)
    requires forall m :: 0 <= m < |r| ==> Le(ids[x], ids[r[m]])
    ensures SortedBy(ids, [x] + r)
  {
    var q := [x] + r;
    forall i, j | 0 <= i < j < |q|
      ensures Le(ids[q[i]], ids[q[j]])
    {
      assert q[j] == r[j - 1];
      if i > 0 {
        assert q[i] == r[i - 1];
      }
    }
  }

  // An element of Insert(k, t) other than k is an element of t.
  lemma InsertFrom(ids: seq<string>, k: nat, t: seq<nat>, m: nat)
    requires k < |ids| && InRange(ids, t) && m < |Insert(ids, k, t)| && Insert(ids, k, t)[m] != k
    ensures exists q :: 0 <= q < |t| && t[q] == Insert(ids, k, t)[m]
  {
    var r := Insert(ids, k, t);
    assert r[m] in multiset(r);
    assert r[m] in multiset(t);
  }

  lemma {:induction false} InsertSorted(ids: seq<string>, k: nat, s: seq<nat>)
    requires k < |ids| && InRange(ids, s) && SortedBy(ids, s)
    ensures SortedBy(ids, Insert(ids, k, s))
    decreases |s|
  {
    if s != [] {
      LeTotal(ids[s[0]], ids[k]);
      if Le(ids[s[0]], ids[k]) {
        var t := s[1..];
        InsertSorted(ids, k, t);
        var r := Insert(ids, k, t);
        forall m | 0 <= m < |r|
          ensures Le(ids[s[0]], ids[r[m]])
        {
          if r[m] != k {
            InsertFrom(ids, k, t, m);
            var q :| 0 <= q < |t| && t[q] == r[m];
            assert s[q + 1] == r[m];
          }
        }
        ConsSorted(ids, s[0], r);
      } else {
        forall m | 0 <= m < |s|
          ensures Le(ids[k], ids[s[m]])
        {
          if m > 0 {
            LeTrans(ids[k], ids[s[0]], ids[s[m]]);
          }
        }
        ConsSorted(ids, k, s);
      }
    }
  }

  lemma {:induction false} InsertNoDup(ids: seq<string>, k: nat, s: seq<nat>)
    requires k < |ids| && InRange(ids, s) && NoDup(s) && k !in s
    ensures NoDup(Insert(ids, k, s))
    decreases |s|
  {
    if s != [] && Le(ids[s[0]], ids[k]) {
      var t := s[1..];
      InsertNoDup(ids, k, t);
      var r := Insert(ids, k, t);
      forall m | 0 <= m < |r|
        ensures r[m] != s[0]
      {
        assert r[m] in multiset(r);
        if r[m] != k {
          assert r[m] in multiset(t);
          var q :| 0 <= q < |t| && t[q] == r[m];
          assert s[q + 1] == r[m];
        }
      }
    }
  }

  lemma {:induction false} SortProperties(ids: seq<string>, s: seq<nat>)
    requires InRange(ids, s) && NoDup(s)
    ensures SortedBy(ids, Sort(ids, s)) && NoDup(Sort(ids, s))
    decreases |s|
  {
    if s != [] {
      var p := s[..|s| - 1];
      SortProperties(ids, p);
      InsertSorted(ids, s[|s| - 1], Sort(ids, p));
      assert s[|s| - 1] !in multiset(p);
      InsertNoDup(ids, s[|s| - 1], Sort(ids, p));
    }
  }

  // The wires whose id starts with c, sorted by id.
  function Order(ids: seq<string>, c: char): (r: seq<nat>)
    ensures InRange(ids, r) && multiset(r) == multiset(Selected(ids, c, |ids|))
  {
    Sort(ids, Selected(ids, c, |ids|))
  }

  // The order lists every wire starting with c exactly once, in ascending
  // id order.
  lemma OrderProperties(ids: seq<string>, c: char)
    ensures var r := Order(ids, c);
      SortedBy(ids, r) && NoDup(r) &&
      (forall m :: 0 <= m < |r| ==> Starts(ids[r[m]], c)) &&
      (forall j :: 0 <= j < |ids| && Starts(ids[j], c) ==> j in r)
  {
    var s := Selected(ids, c, |ids|);
    SortProperties(ids, s);
    var r := Order(ids, c);
    forall m | 0 <= m < |r|
      ensures Starts(ids[r[m]], c)
    {
      assert r[m] in multiset(s);
    }
    forall j | 0 <= j < |ids| && Starts(ids[j], c)
      ensures j in r
    {
      assert j in multiset(s);
    }
  }

  // ---------------------------------------------------------------------
  // Numbers on wires

  function Pow2(k: nat): (r: nat)
    ensures r >= 1
  {
    if k == 0 then 1 else 2 * Pow2(k - 1)
  }

  // `(x >> k) & 0x01 != 0`.
  function Bit(x: nat, k: nat): bool
  {
    if k == 0 then x % 2 == 1 else Bit(x / 2, k - 1)
  }

  // The low k bits of x, summed back.
  function BitsValue(x: nat, k: nat): nat
  {
    if k == 0 then 0 else BitsValue(x, k - 1) + if Bit(x, k - 1) then Pow2(k - 1) else 0
  }

  lemma {:induction false} BitsValueHead(x: nat, k: nat)
    ensures BitsValue(x, k + 1) == x % 2 + 2 * BitsValue(x / 2, k)
    decreases k
  {
    if k > 0 {
      BitsValueHead(x, k - 1);
    }
  }

  // A number below 2^k is its k low bits.
  lemma {:induction false} BitsValueOf(x: nat, k: nat)
    requires x < Pow2(k)
    ensures BitsValue(x, k) == x
    decreases k
  {
    if k > 0 {
      BitsValueHead(x, k - 1);
      BitsValueOf(x / 2, k - 1);
    }
  }

  // `set_input`'s loop: the m-th wire of the order gets bit m of x, for
  // m below k.
  function SetBits(ws: seq<Wire>, order: seq<nat>, x: nat, k: nat): (r: seq<Wire>)
    requires InRange(Ids(ws), order) && k <= |order|
    ensures |r| == |ws| && Blank(r) == Blank(ws)
  {
    if k == 0 then ws
    else
      var p := SetBits(ws, order, x, k - 1);
      var j := order[k - 1];
      BlankSet(p, j, Some(Bit(x, k - 1)));
      p[j := p[j].(value := Some(Bit(x, k - 1)))]
  }

  lemma {:induction false} SetBitsAt(ws: seq<Wire>, order: seq<nat>, x: nat, k: nat)
    requires InRange(Ids(ws), order) && k <= |order| && NoDup(order)
    ensures forall m :: 0 <= m < k ==> SetBits(ws, order, x, k)[order[m]].value == Some(Bit(x, m))
    ensures forall j :: 0 <= j < |ws| && j !in order[..k] ==> SetBits(ws, order, x, k)[j] == ws[j]
    decreases k
  {
    if k > 0 {
      SetBitsAt(ws, order, x, k - 1);
      assert order[..k] == order[..k - 1] + [order[k - 1]];
    }
  }

  // `set_input`: the x wires, in ascending id order, take the bits of x,
  // and the y wires those of y.
  function SetInputs(ws: seq<Wire>, x: nat, y: nat): (r: seq<Wire>)
    ensures |r| == |ws| && Blank(r) == Blank(ws)
  {
    var xs, ys := Order(Ids(ws), 'x'), Order(Ids(ws), 'y');
    SetBits(SetBits(ws, xs, x, |xs|), ys, y, |ys|)
  }

  // Every wire of the order has a value.
  predicate AllSet(ws: seq<Wire>, order: seq<nat>)
  {
    forall m :: 0 <= m < |order| ==> order[m] < |ws| && ws[order[m]].value.Some?
  }

  // `get_output`, `get_input_x`, `get_input_y`: the sum of bit m << m over
  // the first k wires of the order.
  function Number(ws: seq<Wire>, order: seq<nat>, k: nat): nat
    requires AllSet(ws, order) && k <= |order|
  {
    if k == 0 then 0
    else Number(ws, order, k - 1) + if ws[order[k - 1]].value == Some(true) then Pow2(k - 1) else 0
  }

  lemma {:induction false} NumberOfBits(ws: seq<Wire>, order: seq<nat>, x: nat, k: nat)
    requires AllSet(ws, order) && k <= |order|
    requires forall m :: 0 <= m < k ==> ws[order[m]].value == Some(Bit(x, m))
    ensures Number(ws, order, k) == BitsValue(x, k)
    decreases k
  {
    if k > 0 {
      NumberOfBits(ws, order, x, k - 1);
    }
  }

  // The number read back from k wires is below 2^k.
  lemma {:induction false} NumberBound(ws: seq<Wire>, order: seq<nat>, k: nat)
    requires AllSet(ws, order) && k <= |order|
    ensures Number(ws, order, k) < Pow2(k)
    decreases k
  {
    if k > 0 {
      NumberBound(ws, order, k - 1);
    }
  }

  // `set_input(x, y)` gives the m-th x wire bit m of x and the m-th y
  // wire bit m of y.
  lemma InputBits(ws: seq<Wire>, x: nat, y: nat)
    ensures var r, xs, ys := SetInputs(ws, x, y), Order(Ids(ws), 'x'), Order(Ids(ws), 'y');
      (forall m :: 0 <= m < |xs| ==> r[xs[m]].value == Some(Bit(x, m))) &&
      (forall m :: 0 <= m < |ys| ==> r[ys[m]].value == Some(Bit(y, m)))
  {
    var ids := Ids(ws);
    var xs, ys := Order(ids, 'x'), Order(ids, 'y');
    OrderProperties(ids, 'x');
    OrderProperties(ids, 'y');
    var p := SetBits(ws, xs, x, |xs|);
    SetBitsAt(ws, xs, x, |xs|);
    assert Ids(p) == ids;
    SetBitsAt(p, ys, y, |ys|);
    var r := SetInputs(ws, x, y);
    assert ys[..|ys|] == ys;
  }

  // After `set_input(x, y)`, reading the x wires back gives x, and the y
  // wires y, when they fit.
  lemma InputRoundTrip(ws: seq<Wire>, x: nat, y: nat)
    ensures var r, xs, ys := SetInputs(ws, x, y), Order(Ids(ws), 'x'), Order(Ids(ws), 'y');
      AllSet(r, xs) && AllSet(r, ys) &&
      (x < Pow2(|xs|) ==> Number(r, xs, |xs|) == x) &&
      (y < Pow2(|ys|) ==> Number(r, ys, |ys|) == y)
  {
    var r, xs, ys := SetInputs(ws, x, y), Order(Ids(ws), 'x'), Order(Ids(ws), 'y');
    InputBits(ws, x, y);
    IdsLength(ws);
    assert AllSet(r, xs) && AllSet(r, ys);
    if x < Pow2(|xs|) {
      NumberOfBits(r, xs, x, |xs|);
      BitsValueOf(x, |xs|);
    }
    if y < Pow2(|ys|) {
      NumberOfBits(r, ys, y, |ys|);
      BitsValueOf(y, |ys|);
    }
  }

  // ---------------------------------------------------------------------
  // The circuit object

  // `set_input` panics on inputs above 1 << 44.
  const LIMIT: nat := 0x1000_0000_0000

  // The z wires can be read: each has a value, and there are at most 64 of
  // them (a shift by 64 or more panics).
  predicate Readable(ws: seq<Wire>, c: char)
  {
    var order := Order(Ids(ws), c);
    |order| <= 64 && AllSet(ws, order)
  }

  function Read(ws: seq<Wire>, c: char): (r: nat)
    requires Readable(ws, c)
    ensures r < Pow2(|Order(Ids(ws), c)|)
  {
    var order := Order(Ids(ws), c);
    NumberBound(ws, order, |order|);
    Number(ws, order, |order|)
  }

  class Circuit {
    var wires: seq<Wire>
    var gates: seq<Gate>

    function Current(): Wiring
      reads this
    {
      Wiring(wires, gates)
    }

    constructor()
      ensures Current() == Wiring([], [])
    {
      wires := [];
      gates := [];
    }

    // One gate of a sweep of `run_calculation`.
    method VisitGate(gi: nat, n: nat) returns (processed: nat)
      requires Closed(Current()) && gi < |gates|
      modifies this
      ensures (Current(), processed) == Visit(old(Current()), gi, n)
    {
      ClosedGate(Current(), gi);
      IdsLength(wires);
      processed := n;
      if gates[gi].outputValue.None? {
        var a := wires[Find(Ids(wires), gates[gi].inputA).value].value;
        var b := wires[Find(Ids(wires), gates[gi].inputB).value].value;
        if a.Some? && b.Some? {
          var outputValue := Operate(gates[gi].op, a.value, b.value);
          gates := gates[gi := gates[gi].(outputValue := Some(outputValue))];
          var j := Find(Ids(wires), gates[gi].outputId).value;
          wires := wires[j := Update(wires[j], outputValue)];
          processed := processed + 1;
        }
      }
    }

    // `run_calculation`.
    method RunCalculation()
      requires Closed(Current())
      modifies this
      ensures Current() == Settle(old(Current()))
    {
      var processed: nat := 1;
      while processed > 0
        invariant Closed(Current())
        invariant processed > 0 ==> Settle(Current()) == Settle(old(Current()))
        invariant processed == 0 ==> Current() == Settle(old(Current()))
        decreases Pending(gates) + processed
      {
        ghost var start := Current();
        processed := Sweep();
        PassCount(start, 0, 0);
      }
    }

    // One sweep of `run_calculation` over the gates in order.
    method Sweep() returns (processed: nat)
      requires Closed(Current())
      modifies this
      ensures Closed(Current())
      ensures (Current(), processed) == PassFrom(old(Current()), 0, 0)
    {
      ghost var start := Current();
      processed := 0;
      for gi := 0 to |gates|
        invariant Closed(Current()) && |gates| == |start.gates|
        invariant PassFrom(Current(), gi, processed) == PassFrom(start, 0, 0)
      {
        processed := VisitGate(gi, processed);
      }
    }
  
    // `set_input`'s loop over one sorted wire list.
    method SetBitsOf(order: seq<nat>, x: nat)
      requires InRange(Ids(wires), order)
      modifies this
      ensures wires == SetBits(old(wires), order, x, |order|) && gates == old(gates)
    {
      IdsLength(wires);
      for i := 0 to |order|
        invariant wires == SetBits(old(wires), order, x, i) && gates == old(gates)
      {
        wires := wires[order[i] := wires[order[i]].(value := Some(Bit(x, i)))];
      }
    }

    // `set_input`: the i-th x wire in ascending id order takes bit i of x,
    // and the i-th y wire bit i of y.
    method SetInput(x: nat, y: nat)
      requires x <= LIMIT && y <= LIMIT
      modifies this
      ensures wires == SetInputs(old(wires), x, y) && gates == old(gates)
    {
      var xs := Order(Ids(wires), 'x');
      var ys := Order(Ids(wires), 'y');
      SetBitsOf(xs, x);
      assert Ids(wires) == Ids(old(wires));
      SetBitsOf(ys, y);
    }

    // `get_output`: the z wires, in ascending id order, as bits of a
    // number.
    function GetOutput(): (r: nat)
      reads this
      requires Readable(wires, 'z')
      ensures r < Pow2(|Order(Ids(wires), 'z')|)
    {
      Read(wires, 'z')
    }

    function GetInputX(): (r: nat)
      reads this
      requires Readable(wires, 'x')
      ensures r < Pow2(|Order(Ids(wires), 'x')|)
    {
      Read(wires, 'x')
    }

    function GetInputY(): (r: nat)
      reads this
      requires Readable(wires, 'y')
      ensures r < Pow2(|Order(Ids(wires), 'y')|)
    {
      Read(wires, 'y')
    }

    // `test_row`: four trials, each `set_input`, `run_calculation` and
    // `get_output`, on the same circuit one after another.
    method TestRow(row: nat) returns (ok: bool)
      requires row <= 44 && Closed(Current()) && RowOutcome(Current(), row).Some?
      modifies this
      ensures ok == RowOutcome(old(Current()), row).value
      ensures Current() == RowState(old(Current()), row)
      ensures Shape(Current()) == Shape(old(Current())) && Closed(Current())
    {
      var n := Pow2(row);
      Pow2Limit(row);
      ghost var w := Current();
      SetInput(0, 0);
      RunCalculation();
      var r := GetOutput();
      if Window(r, row) != 0 {
        return false;
      }
      ghost var w1 := Current();
      SetInput(n, 0);
      RunCalculation();
      r := GetOutput();
      if Window(r, row) != 1 {
        return false;
      }
      SetInput(0, n);
      RunCalculation();
      r := GetOutput();
      if Window(r, row) != 1 {
        return false;
      }
      SetInput(n, n);
      RunCalculation();
      r := GetOutput();
      if Window(r, row) != 2 {
        return false;
      }
      return true;
    }

    // One gate line of the loading loop.
    method AddLine(line: GateLine, gi: nat)
      modifies this
      ensures Current() == AddGate(old(Current()), line, gi)
    {
      IdsLength(wires);
      var ia := Find(Ids(wires), line.inputA);
      if ia.Some? {
        wires := wires[ia.value := wires[ia.value].(outputGates := wires[ia.value].outputGates + [gi])];
      } else {
        wires := wires + [Wire(line.inputA, None, [gi])];
      }
      IdsLength(wires);
      var ib := Find(Ids(wires), line.inputB);
      if ib.Some? {
        wires := wires[ib.value := wires[ib.value].(outputGates := wires[ib.value].outputGates + [gi])];
      } else {
        wires := wires + [Wire(line.inputB, None, [gi])];
      }
      if Find(Ids(wires), line.outputId).None? {
        wires := wires + [Wire(line.outputId, None, [])];
      }
      gates := gates + [Gate(None, line.inputA, line.inputB, line.outputId, line.op)];
    }

    // Takes every value off the wires and gates.
    method Clear()
      modifies this
      ensures Current() == Shape(old(Current()))
    {
      wires := Blank(wires);
      gates := Unset(gates);
    }

    // `test_row` with each trial run on the bare circuit, as its checks
    // intend.
    method TestRowFresh(row: nat) returns (ok: bool)
      requires row <= 44 && Closed(Current()) && FreshRowOutcome(Current(), row).Some?
      modifies this
      ensures ok == FreshRowOutcome(old(Current()), row).value
      ensures Shape(Current()) == Shape(old(Current())) && Closed(Current())
    {
      var n := Pow2(row);
      Pow2Limit(row);
      ghost var w := Current();
      var r := FreshOutput(0, 0);
      if Window(r, row) != 0 {
        return false;
      }
      r := FreshOutput(n, 0);
      if Window(r, row) != 1 {
        return false;
      }
      r := FreshOutput(0, n);
      if Window(r, row) != 1 {
        return false;
      }
      r := FreshOutput(n, n);
      if Window(r, row) != 2 {
        return false;
      }
      return true;
    }

    // One fresh trial: clear, `set_input`, `run_calculation`, `get_output`.
    method FreshOutput(x: nat, y: nat) returns (r: nat)
      requires x <= LIMIT && y <= LIMIT && Closed(Current()) && Readable(FreshTrial(Current(), x, y).wires, 'z')
      modifies this
      ensures Shape(Current()) == Shape(old(Current())) && Closed(Current())
      ensures r == Read(FreshTrial(old(Current()), x, y).wires, 'z')
    {
      ShapeTwice(Current());
      Clear();
      SetInput(x, y);
      RunCalculation();
      r := GetOutput();
    }
  }

  // ---------------------------------------------------------------------
  // `test_row` as values

  lemma {:induction false} PowAdd(i: nat, j: nat)
    ensures Pow2(i + j) == Pow2(i) * Pow2(j)
    decreases i
  {
    if i > 0 {
      PowAdd(i - 1, j);
    }
  }

  lemma {:induction false} Pow2Monotone(i: nat, j: nat)
    requires i <= j
    ensures Pow2(i) <= Pow2(j)
    decreases j
  {
    if i < j {
      Pow2Monotone(i, j - 1);
    }
  }

  lemma Pow2Limit(row: nat)
    requires row <= 44
    ensures Pow2(row) <= LIMIT
  {
    assert Pow2(4) == 0x10;
    PowAdd(4, 4);
    PowAdd(8, 8);
    assert Pow2(16) == 0x1_0000;
    PowAdd(16, 16);
    assert Pow2(32) == 0x1_0000_0000;
    PowAdd(8, 4);
    assert Pow2(12) == 0x1000;
    PowAdd(32, 12);
    Pow2Monotone(row, 44);
  }

  // `(r >> row) & 0x03`.
  function Window(r: nat, row: nat): (v: nat)
    ensures v < 4
  {
    Shr(r, row) % 4
  }

  // `r >> k`: k halvings.
  function Shr(r: nat, k: nat): nat
  {
    if k == 0 then r else Shr(r / 2, k - 1)
  }

  // Shifting m * 2^k right by k gives m back.
  lemma {:induction false} ShrPow(m: nat, k: nat)
    ensures Shr(m * Pow2(k), k) == m
  {
    if k > 0 {
      assert m * Pow2(k) == (m * Pow2(k - 1)) * 2;
      ShrPow(m, k - 1);
    }
  }

  // One trial: `set_input(x, y)` then `run_calculation`.
  function Trial(w: Wiring, x: nat, y: nat): (r: Wiring)
    requires Closed(w)
    ensures Shape(r) == Shape(w) && Closed(r)
  {
    Settle(Wiring(SetInputs(w.wires, x, y), w.gates))
  }

  // What `test_row` returns; None where it would panic on an output it
  // cannot read.
  function RowOutcome(w: Wiring, row: nat): Option<bool>
    requires Closed(w)
  {
    var n := Pow2(row);
    var w1 := Trial(w, 0, 0);
    if !Readable(w1.wires, 'z') then None
    else if Window(Read(w1.wires, 'z'), row) != 0 then Some(false)
    else
      var w2 := Trial(w1, n, 0);
      if !Readable(w2.wires, 'z') then None
      else if Window(Read(w2.wires, 'z'), row) != 1 then Some(false)
      else
        var w3 := Trial(w2, 0, n);
        if !Readable(w3.wires, 'z') then None
        else if Window(Read(w3.wires, 'z'), row) != 1 then Some(false)
        else
          var w4 := Trial(w3, n, n);
          if !Readable(w4.wires, 'z') then None
          else Some(Window(Read(w4.wires, 'z'), row) == 2)
  }

  // The circuit `test_row` leaves behind: the values of the last trial it
  // ran, on the wires and gates it was given.
  function RowState(w: Wiring, row: nat): (r: Wiring)
    requires Closed(w) && RowOutcome(w, row).Some?
    ensures Shape(r) == Shape(w) && Closed(r)
  {
    var n := Pow2(row);
    var w1 := Trial(w, 0, 0);
    if Window(Read(w1.wires, 'z'), row) != 0 then w1
    else
      var w2 := Trial(w1, n, 0);
      if Window(Read(w2.wires, 'z'), row) != 1 then w2
      else
        var w3 := Trial(w2, 0, n);
        if Window(Read(w3.wires, 'z'), row) != 1 then w3
        else Trial(w3, n, n)
  }

  lemma ShapeTwice(w: Wiring)
    ensures Shape(Shape(w)) == Shape(w)
  {
    assert Blank(Blank(w.wires)) == Blank(w.wires);
    assert Unset(Unset(w.gates)) == Unset(w.gates);
  }

  // A trial on the bare circuit: nothing carries over from earlier trials.
  function FreshTrial(w: Wiring, x: nat, y: nat): Wiring
    requires Closed(w)
  {
    ShapeTwice(w);
    Trial(Shape(w), x, y)
  }

  function FreshRowOutcome(w: Wiring, row: nat): Option<bool>
    requires Closed(w)
  {
    var n := Pow2(row);
    Judge(FreshRead(w, 0, 0), FreshRead(w, n, 0), FreshRead(w, 0, n), FreshRead(w, n, n), row)
  }

  // The z number a fresh trial leaves, None when a z wire stays unset.
  function FreshRead(w: Wiring, x: nat, y: nat): Option<nat>
    requires Closed(w)
  {
    var t := FreshTrial(w, x, y);
    if Readable(t.wires, 'z') then Some(Read(t.wires, 'z')) else None
  }

  // The four windows checked in order: 0, 1, 1, then 2.
  function Judge(r1: Option<nat>, r2: Option<nat>, r3: Option<nat>, r4: Option<nat>, row: nat): Option<bool>
  {
    if r1.None? then None
    else if Window(r1.value, row) != 0 then Some(false)
    else if r2.None? then None
    else if Window(r2.value, row) != 1 then Some(false)
    else if r3.None? then None
    else if Window(r3.value, row) != 1 then Some(false)
    else if r4.None? then None
    else Some(Window(r4.value, row) == 2)
  }

  // A circuit whose gates all have values is left as it is.
  lemma SettleDone(w: Wiring)
    requires Closed(w) && Pending(w.gates) == 0
    ensures Settle(w) == w
  {
    PassCount(w, 0, 0);
    IdleSweep(w, 0, 0);
  }

  // `set_input` touches only the x and y wires.
  lemma SetInputsKeeps(ws: seq<Wire>, x: nat, y: nat, j: nat)
    requires j < |ws| && !Starts(Ids(ws)[j], 'x') && !Starts(Ids(ws)[j], 'y')
    ensures SetInputs(ws, x, y)[j] == ws[j]
  {
    var ids := Ids(ws);
    var xs, ys := Order(ids, 'x'), Order(ids, 'y');
    OrderProperties(ids, 'x');
    OrderProperties(ids, 'y');
    IdsLength(ws);
    SetBitsAt(ws, xs, x, |xs|);
    var p := SetBits(ws, xs, x, |xs|);
    assert Ids(p) == ids;
    SetBitsAt(p, ys, y, |ys|);
    assert xs[..|xs|] == xs && ys[..|ys|] == ys;
  }

  lemma {:induction false} NumberSame(ws: seq<Wire>, ws': seq<Wire>, order: seq<nat>, k: nat)
    requires AllSet(ws, order) && k <= |order| && |ws'| == |ws|
    requires forall m :: 0 <= m < |order| ==> ws'[order[m]] == ws[order[m]]
    ensures AllSet(ws', order) && Number(ws', order, k) == Number(ws, order, k)
    decreases k
  {
    if k > 0 {
      NumberSame(ws, ws', order, k - 1);
    }
  }

  // `set_input` leaves the z reading as it was.
  lemma SetInputsRead(ws: seq<Wire>, x: nat, y: nat)
    requires Readable(ws, 'z')
    ensures Readable(SetInputs(ws, x, y), 'z') && Read(SetInputs(ws, x, y), 'z') == Read(ws, 'z')
  {
    var r := SetInputs(ws, x, y);
    var ids := Ids(ws);
    var zs := Order(ids, 'z');
    OrderProperties(ids, 'z');
    assert Ids(r) == ids;
    forall m | 0 <= m < |zs|
      ensures r[zs[m]] == ws[zs[m]]
    {
      SetInputsKeeps(ws, x, y, zs[m]);
    }
    NumberSame(ws, r, zs, |zs|);
  }

  // As written, `test_row` fails every row of a circuit whose first trial
  // gives every gate a value: the later trials evaluate nothing, so they
  // read the first trial's output again, whose window was 0 where 1 is
  // required.
  lemma StaleRow(w: Wiring, row: nat)
    requires Closed(w) && Pending(Trial(w, 0, 0).gates) == 0 && Readable(Trial(w, 0, 0).wires, 'z')
    ensures RowOutcome(w, row) == Some(false)
  {
    var w1 := Trial(w, 0, 0);
    var v := Wiring(SetInputs(w1.wires, Pow2(row), 0), w1.gates);
    assert Shape(v) == Shape(w1);
    SettleDone(v);
    SetInputsRead(w1.wires, Pow2(row), 0);
  }

  lemma WindowOnes(row: nat)
    ensures Window(0, row) == 0 && Window(Pow2(row), row) == 1 && Window(Pow2(row) + Pow2(row), row) == 2
  {
    var p := Pow2(row);
    ShrPow(0, row);
    ShrPow(1, row);
    ShrPow(2, row);
    assert 0 * p == 0 && 1 * p == p && 2 * p == p + p;
  }

  // Readings that are the sums pass the row.
  lemma JudgeSums(r1: Option<nat>, r2: Option<nat>, r3: Option<nat>, r4: Option<nat>, row: nat)
    requires r1 == Some(0) && r2 == Some(Pow2(row)) && r3 == Some(Pow2(row)) && r4 == Some(Pow2(row) + Pow2(row))
    ensures Judge(r1, r2, r3, r4, row) == Some(true)
  {
    WindowOnes(row);
  }

  // A fresh row outcome judges the four fresh readings.
  lemma FreshJudged(w: Wiring, row: nat)
    requires Closed(w)
    ensures FreshRowOutcome(w, row) ==
      Judge(FreshRead(w, 0, 0), FreshRead(w, Pow2(row), 0), FreshRead(w, 0, Pow2(row)), FreshRead(w, Pow2(row), Pow2(row)), row)
  {
  }

  // With a fresh start, every row of an adder passes.
  lemma AdderRowPasses(w: Wiring, row: nat)
    requires Closed(w)
    requires FreshRead(w, 0, 0) == Some(0) && FreshRead(w, Pow2(row), 0) == Some(Pow2(row))
    requires FreshRead(w, 0, Pow2(row)) == Some(Pow2(row)) && FreshRead(w, Pow2(row), Pow2(row)) == Some(Pow2(row) + Pow2(row))
    ensures FreshRowOutcome(w, row) == Some(true)
  {
    JudgeSums(FreshRead(w, 0, 0), FreshRead(w, Pow2(row), 0), FreshRead(w, 0, Pow2(row)), FreshRead(w, Pow2(row), Pow2(row)), row);
    FreshJudged(w, row);
  }

  // ---------------------------------------------------------------------
  // Loading the input (`day24`)

  // A gate line `a OP b -> out`, already split.
  datatype GateLine = GateLine(inputA: string, op: Operation, inputB: string, outputId: string)

  // The initial wires `xNN: d`, with value d != 0.
  function InitialWires(initial: seq<(string, nat)>): seq<Wire>
  {
    seq(|initial|, i requires 0 <= i < |initial| => Wire(initial[i].0, Some(initial[i].1 != 0), []))
  }

  // An input wire lists the gate among its outputs, and is made if new.
  function Attach(ws: seq<Wire>, id: string, gi: nat): seq<Wire>
  {
    match Find(Ids(ws), id)
    case Some(j) => if j < |ws| then ws[j := ws[j].(outputGates := ws[j].outputGates + [gi])] else ws
    case None => ws + [Wire(id, None, [gi])]
  }

  // The output wire is made if new.
  function Ensure(ws: seq<Wire>, id: string): seq<Wire>
  {
    if Find(Ids(ws), id).Some? then ws else ws + [Wire(id, None, [])]
  }

  // The wires after loading gate line gi.
  function AddWires(ws: seq<Wire>, line: GateLine, gi: nat): seq<Wire>
  {
    Ensure(Attach(Attach(ws, line.inputA, gi), line.inputB, gi), line.outputId)
  }

  function GateOf(line: GateLine): Gate
  {
    Gate(None, line.inputA, line.inputB, line.outputId, line.op)
  }

  function AddGate(w: Wiring, line: GateLine, gi: nat): Wiring
  {
    Wiring(AddWires(w.wires, line, gi), w.gates + [GateOf(line)])
  }

  // Every id a gate names is among the wire ids.
  predicate Named(w: Wiring)
  {
    Covers(w.gates, Ids(w.wires))
  }

  // Each of the gates names only ids in the list.
  predicate Covers(gates: seq<Gate>, ids: seq<string>)
    decreases |gates|
  {
    gates == [] || (Covers(gates[..|gates| - 1], ids) && Names(gates[|gates| - 1], ids))
  }

  predicate Names(g: Gate, ids: seq<string>)
  {
    g.inputA in ids && g.inputB in ids && g.outputId in ids
  }

  lemma {:induction false} CoversAt(gates: seq<Gate>, ids: seq<string>)
    requires Covers(gates, ids)
    ensures forall g :: 0 <= g < |gates| ==> Names(gates[g], ids)
    decreases |gates|
  {
    if gates != [] {
      CoversAt(gates[..|gates| - 1], ids);
    }
  }

  lemma {:induction false} CoversWider(gates: seq<Gate>, ids: seq<string>, more: seq<string>)
    requires Covers(gates, ids) && ids <= more
    ensures Covers(gates, more)
    decreases |gates|
  {
    if gates != [] {
      CoversWider(gates[..|gates| - 1], ids, more);
    }
  }

  lemma NamedClosed(w: Wiring)
    requires Named(w)
    ensures Closed(w)
  {
    CoversAt(w.gates, Ids(w.wires));
    forall g | 0 <= g < |w.gates|
      ensures Find(Ids(w.wires), Unset(w.gates)[g].inputA).Some? && Find(Ids(w.wires), Unset(w.gates)[g].inputB).Some?
      ensures Find(Ids(w.wires), Unset(w.gates)[g].outputId).Some?
    {
      assert Names(w.gates[g], Ids(w.wires));
      assert Unset(w.gates)[g].inputA == w.gates[g].inputA;
    }
  }

  lemma IdsSnoc(ws: seq<Wire>, w: Wire)
    ensures Ids(ws + [w]) == Ids(ws) + [w.id]
  {
  }

  lemma IdsSetGates(ws: seq<Wire>, j: nat, out: seq<nat>)
    requires j < |ws|
    ensures Ids(ws[j := ws[j].(outputGates := out)]) == Ids(ws)
  {
  }

  // Adding a wire keeps the ids and may append one; the new id is then
  // present.
  lemma AttachIds(ws: seq<Wire>, id: string, gi: nat)
    ensures Ids(ws) <= Ids(Attach(ws, id, gi)) && id in Ids(Attach(ws, id, gi))
  {
    IdsLength(ws);
    match Find(Ids(ws), id)
    case Some(j) => IdsSetGates(ws, j, ws[j].outputGates + [gi]);
    case None => IdsSnoc(ws, Wire(id, None, [gi]));
  }

  lemma EnsureIds(ws: seq<Wire>, id: string)
    ensures Ids(ws) <= Ids(Ensure(ws, id)) && id in Ids(Ensure(ws, id))
  {
    if Find(Ids(ws), id).None? {
      IdsSnoc(ws, Wire(id, None, []));
    }
  }

  lemma AddGateNamed(w: Wiring, line: GateLine, gi: nat)
    requires Named(w)
    ensures Named(AddGate(w, line, gi))
  {
    var w1 := Attach(w.wires, line.inputA, gi);
    var w2 := Attach(w1, line.inputB, gi);
    var w3 := Ensure(w2, line.outputId);
    AttachIds(w.wires, line.inputA, gi);
    AttachIds(w1, line.inputB, gi);
    EnsureIds(w2, line.outputId);
    assert Ids(w.wires) <= Ids(w3) && Ids(w1) <= Ids(w3) && Ids(w2) <= Ids(w3);
    CoversWider(w.gates, Ids(w.wires), Ids(w3));
    var gs := w.gates + [GateOf(line)];
    assert gs[..|gs| - 1] == w.gates;
    assert Names(gs[|gs| - 1], Ids(w3));
  }

  // The circuit after loading lines[k..] on top of w.
  function LoadFrom(w: Wiring, lines: seq<GateLine>, k: nat): Wiring
    requires k <= |lines|
    decreases |lines| - k
  {
    if k == |lines| then w else LoadFrom(AddGate(w, lines[k], k), lines, k + 1)
  }

  /** Loading keeps every id a gate names a wire's, and never moves,
    * renames or sets the initial wires. */
  lemma {:induction false} LoadFromKeeps(w: Wiring, lines: seq<GateLine>, k: nat, initial: seq<(string, nat)>)
    requires k <= |lines| && Named(w) && Leads(w.wires, initial)
    ensures Named(LoadFrom(w, lines, k)) && Leads(LoadFrom(w, lines, k).wires, initial)
    decreases |lines| - k
  {
    if k < |lines| {
      var next := AddGate(w, lines[k], k);
      AddGateKeeps(w, lines[k], k, initial, next);
      LoadFromKeeps(next, lines, k + 1, initial);
    }
  }

  lemma AddGateKeeps(w: Wiring, line: GateLine, gi: nat, initial: seq<(string, nat)>, r: Wiring)
    requires Named(w) && Leads(w.wires, initial) && r == AddGate(w, line, gi)
    ensures Named(r) && Leads(r.wires, initial)
  {
    AddGateNamed(w, line, gi);
    AddWiresLeads(w.wires, line, gi, initial);
  }

  // The initial wires, before any gate line.
  function Unloaded(initial: seq<(string, nat)>): (r: Wiring)
    ensures Named(r) && Leads(r.wires, initial) && r.gates == []
  {
    Wiring(InitialWires(initial), [])
  }

  // The circuit the input describes.
  function Described(initial: seq<(string, nat)>, lines: seq<GateLine>): (r: Wiring)
    ensures Closed(r)
  {
    LoadFromKeeps(Unloaded(initial), lines, 0, initial);
    NamedClosed(LoadFrom(Unloaded(initial), lines, 0));
    LoadFrom(Unloaded(initial), lines, 0)
  }

  // The gates of lines[k..], in order and without values.
  function GatesFrom(lines: seq<GateLine>, k: nat): (gs: seq<Gate>)
    requires k <= |lines|
    ensures |gs| == |lines| - k
    decreases |lines| - k
  {
    if k == |lines| then [] else [GateOf(lines[k])] + GatesFrom(lines, k + 1)
  }

  lemma {:induction false} GatesFromAt(lines: seq<GateLine>, k: nat)
    requires k <= |lines|
    ensures forall g :: k <= g < |lines| ==> GatesFrom(lines, k)[g - k] == GateOf(lines[g])
    decreases |lines| - k
  {
    if k < |lines| {
      GatesFromAt(lines, k + 1);
    }
  }

  lemma AppendStep(a: seq<Gate>, b: seq<Gate>, g: Gate, rest: seq<Gate>, whole: seq<Gate>)
    requires b == a + [g] && whole == [g] + rest
    ensures b + rest == a + whole
  {
  }

  // Loading lines[k..] appends their gates to the ones already there.
  lemma {:induction false} LoadFromGates(w: Wiring, lines: seq<GateLine>, k: nat)
    requires k <= |lines|
    ensures LoadFrom(w, lines, k).gates == w.gates + GatesFrom(lines, k)
    decreases |lines| - k
  {
    if k < |lines| {
      var next := AddGate(w, lines[k], k);
      LoadFromGates(next, lines, k + 1);
      AppendStep(w.gates, next.gates, GateOf(lines[k]), GatesFrom(lines, k + 1), GatesFrom(lines, k));
    }
  }

  // The described gates are the lines, in order and without values.
  lemma DescribedGates(initial: seq<(string, nat)>, lines: seq<GateLine>)
    ensures |Described(initial, lines).gates| == |lines|
    ensures forall g :: 0 <= g < |lines| ==> Described(initial, lines).gates[g] == GateOf(lines[g])
  {
    var d := LoadFrom(Unloaded(initial), lines, 0);
    assert Described(initial, lines) == d;
    LoadFromGates(Unloaded(initial), lines, 0);
    assert d.gates == GatesFrom(lines, 0);
    GatesFromAt(lines, 0);
  }

  // Gates without values: all pending, trivially consistent.
  lemma {:induction false} NoneEvaluated(w: Wiring)
    requires forall g :: 0 <= g < |w.gates| ==> w.gates[g].outputValue.None?
    ensures Pending(w.gates) == |w.gates| && Consistent(w)
    decreases |w.gates|
  {
    if w.gates != [] {
      NoneEvaluated(Wiring(w.wires, w.gates[..|w.gates| - 1]));
    }
  }

  // The initial wires lead the list, with their ids and values.
  predicate Leads(ws: seq<Wire>, initial: seq<(string, nat)>)
  {
    |initial| <= |ws| && forall j :: 0 <= j < |initial| ==> ws[j].id == initial[j].0 && ws[j].value == Some(initial[j].1 != 0)
  }

  lemma AddWiresLeads(ws: seq<Wire>, line: GateLine, gi: nat, initial: seq<(string, nat)>)
    requires Leads(ws, initial)
    ensures Leads(AddWires(ws, line, gi), initial)
  {
    LoadedWires(ws, line, gi);
    var r := AddWires(ws, line, gi);
    forall j | 0 <= j < |initial|
      ensures r[j].id == initial[j].0 && r[j].value == Some(initial[j].1 != 0)
    {
      assert r[j].(outputGates := []) == ws[j].(outputGates := []);
    }
  }

  // Attaching gates only appends wires or changes their output lists.
  lemma LoadedWires(ws: seq<Wire>, line: GateLine, gi: nat)
    ensures var r := AddWires(ws, line, gi);
      |ws| <= |r| && forall j :: 0 <= j < |ws| ==> r[j].(outputGates := []) == ws[j].(outputGates := [])
  {
  }

  // Part one: load, evaluate, read the z wires.
  method Part1(initial: seq<(string, nat)>, lines: seq<GateLine>) returns (p1: nat)
    requires Readable(Settle(Described(initial, lines)).wires, 'z')
    ensures p1 == Read(Settle(Described(initial, lines)).wires, 'z')
  {
    var c := Load(initial, lines);
    c.RunCalculation();
    p1 := c.GetOutput();
  }

  method Load(initial: seq<(string, nat)>, lines: seq<GateLine>) returns (c: Circuit)
    ensures fresh(c) && c.Current() == Described(initial, lines)
  {
    c := new Circuit();
    for row := 0 to |initial|
      invariant c.wires == InitialWires(initial)[..row] && c.gates == []
    {
      c.wires := c.wires + [Wire(initial[row].0, Some(initial[row].1 != 0), [])];
    }
    assert InitialWires(initial)[..|initial|] == InitialWires(initial);
    for gi := 0 to |lines|
      invariant LoadFrom(c.Current(), lines, gi) == Described(initial, lines)
    {
      c.AddLine(lines[gi], gi);
    }
  }
}
