// src/day13.rs: claw machines. Each machine has two buttons that move the
// claw by fixed steps and a prize position; part one searches every press
// count from 1 to 100 for each button and pays for the cheapest winning
// combination (3 tokens per A press, 1 per B press); part two moves every
// prize by 10^13 and pays for a candidate only when it is an exact integer
// solution.
module Day13 {
  import opened Wrappers

  // ---------------------------------------------------------------------
  // Parsing

  datatype Machine = Machine(a: (nat, nat), b: (nat, nat), t: (nat, nat))

  const USIZE_LIMIT: nat := 0x1_0000_0000_0000_0000

  predicate IsDigit(c: char) { '0' <= c <= '9' }

  predicate AllDigits(s: string) { forall i :: 0 <= i < |s| ==> IsDigit(s[i]) }

  function DigitsValue(s: string): nat
    requires AllDigits(s)
    decreases |s|
  {
    if s == [] then 0 else 10 * DigitsValue(s[..|s| - 1]) + (s[|s| - 1] - '0') as nat
  }

  // `str::parse::<usize>`: an optional '+' and at least one digit, below
  // 2^64.
  function ParseUsize(s: string): (r: Option<nat>)
    ensures r.Some? ==> r.value < USIZE_LIMIT
    ensures r.Some? ==> exists k :: 0 <= k <= 1 && k < |s| && AllDigits(s[k..]) && r.value == DigitsValue(s[k..])
  {
    var digits := if |s| >= 2 && s[0] == '+' then s[1..] else s;
    if digits != [] && AllDigits(digits) && DigitsValue(digits) < USIZE_LIMIT then
      assert digits == s[if digits == s then 0 else 1..];
      Some(DigitsValue(digits))
    else None
  }

  // The number of digits starting at k.
  function DigitRun(line: string, k: nat): (n: nat)
    requires k <= |line|
    ensures k + n <= |line| && AllDigits(line[k..k + n])
    ensures k + n < |line| ==> !IsDigit(line[k + n])
    decreases |line| - k
  {
    if k < |line| && IsDigit(line[k]) then
      var n := 1 + DigitRun(line, k + 1);
      assert line[k..k + n] == [line[k]] + line[k + 1..k + n];
      n
    else 0
  }

  // The pattern `X=(\d+), Y=(\d+)` matched from position k; each group
  // takes the whole run of digits, which is the only way the pattern can
  // continue.
  function MatchAt(line: string, k: nat): (r: Option<(string, string)>)
    requires k <= |line|
    ensures r.Some? ==> r.value.0 != [] && r.value.1 != [] && AllDigits(r.value.0) && AllDigits(r.value.1)
    ensures r.Some? ==>
      var (x, y) := r.value; var j := k + 2 + |x| + 4;
      j + |y| <= |line| && line[k..k + 2] == "X=" && line[k + 2..j - 4] == x && line[j - 4..j] == ", Y=" && line[j..j + |y|] == y
  {
    if k + 2 <= |line| && line[k..k + 2] == "X=" then
      var n1 := DigitRun(line, k + 2);
      var s := k + 2 + n1;
      if n1 > 0 && s + 4 <= |line| && line[s..s + 4] == ", Y=" then
        var n2 := DigitRun(line, s + 4);
        if n2 > 0 then
          Some((line[k + 2..s], line[s + 4..s + 4 + n2]))
        else None
      else None
    else None
  }

  // The leftmost match at or after position k.
  function Search(line: string, k: nat): (r: Option<(string, string)>)
    requires k <= |line|
    ensures r.Some? ==> exists i :: k <= i <= |line| && MatchAt(line, i) == r
    ensures r.None? ==> forall i :: k <= i <= |line| ==> MatchAt(line, i).None?
    decreases |line| - k
  {
    if MatchAt(line, k).Some? then MatchAt(line, k)
    else if k == |line| then None
    else Search(line, k + 1)
  }

  // One machine from its three lines: the button steps sit in columns
  // 12..14 and 18..20 of the first two lines, the prize is the first
  // match of the pattern in the third. Any failure is a panic.
  function ParseMachine(lines: seq<string>): (r: Option<Machine>)
    ensures r.Some? ==> |lines| == 3 && Search(lines[2], 0).Some?
  {
    if |lines| != 3 || |lines[0]| < 20 || |lines[1]| < 20 then None
    else
      var ax, ays := ParseUsize(lines[0][12..14]), ParseUsize(lines[0][18..20]);
      var bx, bys := ParseUsize(lines[1][12..14]), ParseUsize(lines[1][18..20]);
      var caps := Search(lines[2], 0);
      if ax.None? || ays.None? || bx.None? || bys.None? || caps.None? then None
      else
        var tx, ty := ParseUsize(caps.value.0), ParseUsize(caps.value.1);
        if tx.None? || ty.None? then None
        else Some(Machine((ax.value, ays.value), (bx.value, bys.value), (tx.value, ty.value)))
  }

  function MachineCount(lines: seq<string>): nat
  {
    (|lines| + 1) / 4
  }

  // Group g occupies lines 4g .. 4g+2; the line after it is a separator.
  lemma GroupFits(lines: seq<string>, g: nat)
    requires g < MachineCount(lines)
    ensures 4 * g + 3 <= |lines|
  {
  }

  function Group(lines: seq<string>, g: nat): (r: seq<string>)
    requires g < MachineCount(lines)
    ensures |r| == 3
  {
    GroupFits(lines, g);
    lines[4 * g..4 * g + 3]
  }

  // The machines of the first g groups, or None once a group fails to
  // parse (a panic in `day13`).
  function ParseTo(parse: seq<string> -> Option<Machine>, lines: seq<string>, g: nat): (r: Option<seq<Machine>>)
    requires g <= MachineCount(lines)
    ensures r.Some? ==> |r.value| == g
  {
    if g == 0 then Some([])
    else match ParseTo(parse, lines, g - 1)
      case None => None
      case Some(ms) =>
        match parse(Group(lines, g - 1))
          case None => None
          case Some(m) => Some(ms + [m])
  }

  // Parsing succeeds exactly when every group parses, and yields one
  // machine per group.
  lemma {:induction false} ParseToExact(parse: seq<string> -> Option<Machine>, lines: seq<string>, g: nat)
    requires g <= MachineCount(lines)
    ensures ParseTo(parse, lines, g).Some? <==> forall h :: 0 <= h < g ==> parse(Group(lines, h)).Some?
    ensures ParseTo(parse, lines, g).Some? ==>
      forall h :: 0 <= h < g ==> Some(ParseTo(parse, lines, g).value[h]) == parse(Group(lines, h))
  {
    if g > 0 {
      ParseToExact(parse, lines, g - 1);
    }
  }

  // The loop over the groups, pushing each machine.
  method ParseMachines(lines: seq<string>) returns (r: Option<seq<Machine>>)
    ensures r == ParseTo(ParseMachine, lines, MachineCount(lines))
  {
    var machines: seq<Machine> := [];
    for g := 0 to MachineCount(lines)
      invariant ParseTo(ParseMachine, lines, g) == Some(machines)
    {
      var m := ParseMachine(Group(lines, g));
      if m.None? {
        NoneStays(ParseMachine, lines, g + 1, MachineCount(lines));
        return None;
      }
      machines := machines + [m.value];
    }
    return Some(machines);
  }

  lemma {:induction false} NoneStays(parse: seq<string> -> Option<Machine>, lines: seq<string>, g: nat, k: nat)
    requires g <= k <= MachineCount(lines) && ParseTo(parse, lines, g).None?
    ensures ParseTo(parse, lines, k).None?
    decreases k - g
  {
    if g < k {
      NoneStays(parse, lines, g + 1, k);
    }
  }

  // ---------------------------------------------------------------------
  // Part one: the search over press counts

  datatype Combo = Combo(aCount: nat, bCount: nat, cost: nat)

  const PRESSES: nat := 100

  // na presses of A and nb of B put the claw exactly on the prize.
  predicate Wins(m: Machine, na: nat, nb: nat)
  {
    m.a.0 * na + m.b.0 * nb == m.t.0 && m.a.1 * na + m.b.1 * nb == m.t.1
  }

  function Price(na: nat, nb: nat): nat { 3 * na + nb }

  // The k-th (na, nb) pair the nested loops visit.
  function PairAt(k: nat): (nat, nat)
  {
    (k / PRESSES + 1, k % PRESSES + 1)
  }

  function Index(na: nat, nb: nat): nat
    requires 1 <= na && 1 <= nb
  {
    (na - 1) * PRESSES + (nb - 1)
  }

  lemma PairIndex(na: nat, nb: nat)
    requires 1 <= na <= PRESSES && 1 <= nb <= PRESSES
    ensures Index(na, nb) < PRESSES * PRESSES && PairAt(Index(na, nb)) == (na, nb)
  {
    var k := Index(na, nb);
    assert k == (na - 1) * PRESSES + (nb - 1);
    assert k / PRESSES == na - 1 && k % PRESSES == nb - 1 by {
      DivModUnique(k, na - 1, nb - 1);
    }
  }

  lemma DivModUnique(k: nat, q: nat, r: nat)
    requires r < PRESSES && k == q * PRESSES + r
    ensures k / PRESSES == q && k % PRESSES == r
  {
  }

  lemma PairInRange(k: nat)
    requires k < PRESSES * PRESSES
    ensures 1 <= PairAt(k).0 <= PRESSES && 1 <= PairAt(k).1 <= PRESSES && Index(PairAt(k).0, PairAt(k).1) == k
  {
  }

  // The combos pushed over the first k pairs, in visiting order.
  function CombosTo(m: Machine, k: nat): seq<Combo>
    decreases k
  {
    if k == 0 then []
    else
      var (na, nb) := PairAt(k - 1);
      if Wins(m, na, nb) then CombosTo(m, k - 1) + [Combo(na, nb, Price(na, nb))] else CombosTo(m, k - 1)
  }

  // A combo is pushed for exactly the winning pairs among the first k.
  lemma {:induction false} CombosToExact(m: Machine, k: nat, c: Combo)
    requires k <= PRESSES * PRESSES
    ensures c in CombosTo(m, k) <==>
      1 <= c.aCount <= PRESSES && 1 <= c.bCount <= PRESSES && Index(c.aCount, c.bCount) < k &&
      Wins(m, c.aCount, c.bCount) && c.cost == Price(c.aCount, c.bCount)
    decreases k
  {
    if k > 0 {
      CombosToExact(m, k - 1, c);
      PairInRange(k - 1);
      if 1 <= c.aCount <= PRESSES && 1 <= c.bCount <= PRESSES {
        PairIndex(c.aCount, c.bCount);
      }
    }
  }

  // The nested loops `for na in 1..=100 { for nb in 1..=100 { ... } }`.
  method FindCombos(m: Machine) returns (combos: seq<Combo>)
    ensures combos == CombosTo(m, PRESSES * PRESSES)
  {
    combos := [];
    for na := 1 to PRESSES + 1
      invariant combos == CombosTo(m, (na - 1) * PRESSES)
    {
      for nb := 1 to PRESSES + 1
        invariant combos == CombosTo(m, Index(na, nb))
      {
        PairInRange(Index(na, nb));
        if Wins(m, na, nb) {
          combos := combos + [Combo(na, nb, Price(na, nb))];
        }
      }
    }
  }

  // The cost of `combos[0]` once sorted by cost: the least cost.
  function MinCost(combos: seq<Combo>): (r: nat)
    requires combos != []
    ensures forall i :: 0 <= i < |combos| ==> r <= combos[i].cost
    ensures exists i :: 0 <= i < |combos| && r == combos[i].cost
    decreases |combos|
  {
    if |combos| == 1 then combos[0].cost
    else
      var rest := MinCost(combos[1..]);
      assert forall i :: 1 <= i < |combos| ==> combos[i] == combos[1..][i - 1];
      if combos[0].cost <= rest then combos[0].cost else rest
  }

  // What one machine adds to part one: the cheapest winning combination,
  // or nothing.
  function MachineCost(m: Machine): nat
  {
    var combos := CombosTo(m, PRESSES * PRESSES);
    if |combos| > 0 then MinCost(combos) else 0
  }

  // The machine's cost is the least price of a winning pair in range, and
  // zero when no pair in range wins.
  lemma MachineCostIsCheapest(m: Machine)
    ensures forall na, nb :: 1 <= na <= PRESSES && 1 <= nb <= PRESSES && Wins(m, na, nb) ==>
      MachineCost(m) <= Price(na, nb)
    ensures (exists na, nb :: 1 <= na <= PRESSES && 1 <= nb <= PRESSES && Wins(m, na, nb)) ==>
      exists na, nb :: 1 <= na <= PRESSES && 1 <= nb <= PRESSES && Wins(m, na, nb) && MachineCost(m) == Price(na, nb)
    ensures (forall na, nb :: 1 <= na <= PRESSES && 1 <= nb <= PRESSES ==> !Wins(m, na, nb)) ==> MachineCost(m) == 0
  {
    var combos := CombosTo(m, PRESSES * PRESSES);
    forall na, nb | 1 <= na <= PRESSES && 1 <= nb <= PRESSES && Wins(m, na, nb)
      ensures MachineCost(m) <= Price(na, nb) && |combos| > 0
    {
      PairIndex(na, nb);
      CombosToExact(m, PRESSES * PRESSES, Combo(na, nb, Price(na, nb)));
    }
    if |combos| > 0 {
      var i :| 0 <= i < |combos| && MachineCost(m) == combos[i].cost;
      CombosToExact(m, PRESSES * PRESSES, combos[i]);
    }
  }

  function Part1Total(machines: seq<Machine>): nat
    decreases |machines|
  {
    if machines == [] then 0 else Part1Total(machines[..|machines| - 1]) + MachineCost(machines[|machines| - 1])
  }

  method Part1(machines: seq<Machine>) returns (total: nat)
    ensures total == Part1Total(machines)
  {
    total := 0;
    for i := 0 to |machines|
      invariant total == Part1Total(machines[..i])
    {
      var combos := FindCombos(machines[i]);
      if |combos| > 0 {
        total := total + MinCost(combos);
      }
      assert machines[..i + 1][..i] == machines[..i];
    }
    assert machines[..|machines|] == machines;
  }

  // ---------------------------------------------------------------------
  // Part two: the prizes moved, candidates checked exactly

  const OFFSET: nat := 10_000_000_000_000

  function Shifted(m: Machine): Machine
  {
    m.(t := (m.t.0 + OFFSET, m.t.1 + OFFSET))
  }

  function Shift(machines: seq<Machine>): (r: seq<Machine>)
    ensures |r| == |machines|
    ensures forall i :: 0 <= i < |machines| ==>
      r[i].a == machines[i].a && r[i].b == machines[i].b && r[i].t == (machines[i].t.0 + OFFSET, machines[i].t.1 + OFFSET)
  {
    seq(|machines|, i requires 0 <= i < |machines| => Shifted(machines[i]))
  }

  // `m.t = (m.t.0 + 10000000000000, m.t.1 + 10000000000000)` for each
  // machine, in place.
  method ShiftTargets(machines: seq<Machine>) returns (shifted: seq<Machine>)
    ensures shifted == Shift(machines)
  {
    shifted := machines;
    for i := 0 to |machines|
      invariant |shifted| == |machines|
      invariant forall j :: 0 <= j < i ==> shifted[j] == Shifted(machines[j])
      invariant forall j :: i <= j < |machines| ==> shifted[j] == machines[j]
    {
      shifted := shifted[i := Shifted(shifted[i])];
    }
  }

  // What a candidate adds: its price when it is an exact solution.
  function Accepted(m: Machine, presses: (nat, nat)): nat
  {
    if Wins(m, presses.0, presses.1) then Price(presses.0, presses.1) else 0
  }

  function Part2Total(machines: seq<Machine>, presses: seq<(nat, nat)>): nat
    requires |presses| == |machines|
    decreases |machines|
  {
    if machines == [] then 0
    else
      var n := |machines| - 1;
      Part2Total(machines[..n], presses[..n]) + Accepted(machines[n], presses[n])
  }

  // A machine adds to part two only through an exact solution.
  lemma AcceptedOnlyExact(m: Machine, presses: (nat, nat))
    ensures Accepted(m, presses) > 0 ==> Wins(m, presses.0, presses.1)
    ensures Wins(m, presses.0, presses.1) ==> Accepted(m, presses) == 3 * presses.0 + presses.1
  {
  }

  // The check of each candidate, given the press counts `day13` derives
  // from the intersection of the two buttons' lines.
  method Part2(machines: seq<Machine>, presses: seq<(nat, nat)>) returns (total: nat)
    requires |presses| == |machines|
    ensures total == Part2Total(machines, presses)
  {
    total := 0;
    for i := 0 to |machines|
      invariant total == Part2Total(machines[..i], presses[..i])
    {
      var (ac, bc) := presses[i];
      if machines[i].a.0 * ac + machines[i].b.0 * bc == machines[i].t.0 &&
         machines[i].a.1 * ac + machines[i].b.1 * bc == machines[i].t.1 {
        total := total + 3 * ac + bc;
      }
      assert machines[..i + 1][..i] == machines[..i] && presses[..i + 1][..i] == presses[..i];
    }
    assert machines[..|machines|] == machines && presses[..|presses|] == presses;
  }

  // `day13`: both totals, the press counts for part two given.
  method Solve(lines: seq<string>, presses: seq<(nat, nat)>) returns (one: nat, two: nat)
    requires ParseTo(ParseMachine, lines, MachineCount(lines)).Some?
    requires |presses| == MachineCount(lines)
    ensures var ms := ParseTo(ParseMachine, lines, MachineCount(lines)).value;
      one == Part1Total(ms) && two == Part2Total(Shift(ms), presses)
  {
    ParseToExact(ParseMachine, lines, MachineCount(lines));
    var parsed := ParseMachines(lines);
    var machines := parsed.value;
    one := Part1(machines);
    var shifted := ShiftTargets(machines);
    two := Part2(shifted, presses);
  }
}
