// src/day17.rs: a three-register computer. The program is a list of
// 3-bit instructions, each followed by an operand; `step` runs one
// instruction, and part one runs the program until it halts or a million
// steps have passed, collecting what it outputs.
//
// The registers are u64 in src/day17.rs. No instruction makes a register
// larger than the largest of its inputs (division shrinks, exclusive or of
// two 64-bit numbers stays within 64 bits, `& 7` keeps three bits), so they
// are natural numbers here and `Fits` states the 64-bit bound that every
// step keeps. The numbers of the input arrive already extracted from the
// text.
module Day17 {

  const REG_A: nat := 0
  const REG_B: nat := 1
  const REG_C: nat := 2
  const MAX_STEPS: nat := 1_000_000
  const U32: nat := 0x1_0000_0000
  const U64: nat := 0x1_0000_0000_0000_0000

  // The computer's registers, instruction index and output, as a value.
  datatype State = State(a: nat, b: nat, c: nat, ip: nat, output: seq<nat>)

  // ---------------------------------------------------------------------
  // Arithmetic

  function Pow2(k: nat): (r: nat)
    ensures r >= 1
  {
    if k == 0 then 1 else 2 * Pow2(k - 1)
  }

  // `n / 2^k`: the division instructions' result, never more than n.
  function Shr(n: nat, k: nat): (r: nat)
    ensures r <= n
  {
    DivBound(n, Pow2(k));
    n / Pow2(k)
  }

  lemma DivBound(n: nat, d: nat)
    requires d >= 1
    ensures 0 <= n / d <= n
  {
    var q, m := n / d, n % d;
    assert n == q * d + m && 0 <= m < d;
    assert q >= 0;
    assert q * d >= q;
  }

  // Bitwise exclusive or of two natural numbers.
  function Xor(x: nat, y: nat): nat
    decreases x + y
  {
    if x == 0 then y
    else if y == 0 then x
    else 2 * Xor(x / 2, y / 2) + (if x % 2 == y % 2 then 0 else 1)
  }

  // Exclusive or of two k-bit numbers is a k-bit number.
  lemma {:induction false} XorBound(x: nat, y: nat, k: nat)
    requires x < Pow2(k) && y < Pow2(k)
    ensures Xor(x, y) < Pow2(k)
    decreases k
  {
    if x != 0 && y != 0 {
      XorBound(x / 2, y / 2, k - 1);
    }
  }

  // x ^ x == 0 and x ^ 0 == x.
  lemma {:induction false} XorSelf(x: nat)
    ensures Xor(x, x) == 0 && Xor(x, 0) == x
    decreases x
  {
    if x != 0 {
      XorSelf(x / 2);
    }
  }

  lemma {:induction false} PowAdd(i: nat, j: nat)
    ensures Pow2(i + j) == Pow2(i) * Pow2(j)
    decreases i
  {
    if i > 0 {
      PowAdd(i - 1, j);
    }
  }

  lemma Pow64()
    ensures Pow2(64) == U64
  {
    assert Pow2(4) == 0x10;
    PowAdd(4, 4);
    PowAdd(8, 8);
    assert Pow2(16) == 0x1_0000;
    PowAdd(16, 16);
    assert Pow2(32) == 0x1_0000_0000;
    PowAdd(32, 32);
  }

  // ---------------------------------------------------------------------
  // One instruction

  // `get_combo_value`: operands 0 to 3 stand for themselves, 4 to 6 for
  // registers A, B and C; 7 is invalid.
  function Combo(s: State, co: nat): (r: nat)
    requires co < 7
    ensures co <= 3 ==> r == co
    ensures co == 4 ==> r == s.a
    ensures co == 5 ==> r == s.b
    ensures co == 6 ==> r == s.c
  {
    if co <= 3 then co
    else if co == 4 then s.a
    else if co == 5 then s.b
    else s.c
  }

  // `2_u32.pow(combo as u32)`: the combo value is cut to 32 bits first, and
  // the power panics unless it fits in 32 bits.
  function Exponent(s: State, co: nat): nat
    requires co < 7
  {
    Combo(s, co) % U32
  }

  predicate UsesCombo(op: nat)
  {
    op == 0 || op == 2 || op == 5 || op == 6 || op == 7
  }

  predicate Division(op: nat)
  {
    op == 0 || op == 6 || op == 7
  }

  // The instruction at ip runs without a panic: it has an operand, it is
  // one of the eight opcodes, a combo operand is not 7, and a division's
  // power of two fits in 32 bits.
  predicate Defined(program: seq<nat>, s: State)
  {
    s.ip + 1 < |program| && program[s.ip] <= 7 &&
    (UsesCombo(program[s.ip]) ==> program[s.ip + 1] < 7) &&
    (Division(program[s.ip]) ==> Exponent(s, program[s.ip + 1]) < 32)
  }

  // One instruction, on a state where it is defined.
  function Exec(program: seq<nat>, s: State): (r: State)
    requires Defined(program, s)
  {
    var op, operand := program[s.ip], program[s.ip + 1];
    if Division(op) then
      var q := Shr(s.a, Exponent(s, operand));
      if op == 0 then s.(a := q, ip := s.ip + 2)
      else if op == 6 then s.(b := q, ip := s.ip + 2)
      else s.(c := q, ip := s.ip + 2)
    else if op == 1 then s.(b := Xor(s.b, operand), ip := s.ip + 2)
    else if op == 2 then s.(b := Combo(s, operand) % 8, ip := s.ip + 2)
    else if op == 3 then (if s.a == 0 then s.(ip := s.ip + 2) else s.(ip := operand))
    else if op == 4 then s.(b := Xor(s.b, s.c), ip := s.ip + 2)
    else s.(output := s.output + [Combo(s, operand) % 8], ip := s.ip + 2)
  }

  predicate Halted(program: seq<nat>, s: State)
  {
    s.ip >= |program|
  }

  // `step` does not panic here.
  predicate Ok(program: seq<nat>, s: State)
  {
    Halted(program, s) || Defined(program, s)
  }

  // What `step` leaves: a halted computer as it is, otherwise the state
  // after one instruction. (A state where `step` panics is also left as it
  // is; `Safe` rules those out wherever this matters.)
  function Next(program: seq<nat>, s: State): State
  {
    if Halted(program, s) || !Defined(program, s) then s else Exec(program, s)
  }

  // The state after n calls of `step`.
  function Run(program: seq<nat>, s: State, n: nat): State
  {
    if n == 0 then s else Next(program, Run(program, s, n - 1))
  }

  // None of the first n calls of `step` panics.
  predicate Safe(program: seq<nat>, s: State, n: nat)
  {
    forall k :: 0 <= k < n ==> Ok(program, Run(program, s, k))
  }

  // ---------------------------------------------------------------------
  // What running keeps

  // Once halted, the computer stays halted and unchanged.
  lemma {:induction false} HaltedStays(program: seq<nat>, s: State, k: nat, n: nat)
    requires k <= n && Halted(program, Run(program, s, k))
    ensures Run(program, s, n) == Run(program, s, k)
    decreases n
  {
    if k < n {
      HaltedStays(program, s, k, n - 1);
    }
  }

  predicate Digits(out: seq<nat>)
  {
    forall i :: 0 <= i < |out| ==> out[i] < 8
  }

  // One step appends at most one output value, and it is below 8.
  lemma NextOutput(program: seq<nat>, t: State)
    ensures var o := Next(program, t).output;
      o == t.output || (|o| == |t.output| + 1 && o[..|t.output|] == t.output && o[|t.output|] < 8)
  {
    if !Halted(program, t) && Defined(program, t) && program[t.ip] == 5 {
      var o := Next(program, t).output;
      assert o == t.output + [Combo(t, program[t.ip + 1]) % 8];
      assert o[..|t.output|] == t.output;
    }
  }

  // Running only appends to the output, and only values 0 to 7.
  lemma {:induction false} OutputGrows(program: seq<nat>, s: State, n: nat)
    ensures var o := Run(program, s, n).output;
      |s.output| <= |o| && o[..|s.output|] == s.output && Digits(o[|s.output|..])
    decreases n
  {
    if n > 0 {
      OutputGrows(program, s, n - 1);
      var t := Run(program, s, n - 1);
      NextOutput(program, t);
      var o := Run(program, s, n).output;
      if o != t.output {
        assert o[..|s.output|] == o[..|t.output|][..|s.output|];
        assert o[|s.output|..] == t.output[|s.output|..] + [o[|t.output|]];
      }
    }
  }

  // All three registers fit in 64 bits.
  predicate Fits(s: State)
  {
    s.a < U64 && s.b < U64 && s.c < U64
  }

  // One step keeps the registers within 64 bits, given operands that are
  // bytes.
  lemma NextFits(program: seq<nat>, t: State)
    requires Fits(t) && forall i :: 0 <= i < |program| ==> program[i] < 256
    ensures Fits(Next(program, t))
  {
    if !Halted(program, t) && Defined(program, t) {
      var op, operand := program[t.ip], program[t.ip + 1];
      var r := Exec(program, t);
      if op == 1 {
        Pow64();
        XorBound(t.b, operand, 64);
        assert r == t.(b := Xor(t.b, operand), ip := t.ip + 2);
      } else if op == 4 {
        Pow64();
        XorBound(t.b, t.c, 64);
        assert r == t.(b := Xor(t.b, t.c), ip := t.ip + 2);
      } else if Division(op) {
        assert r.a <= t.a && r.b < U64 && r.c < U64;
      } else {
        assert r.a == t.a && r.c == t.c && (r.b < 8 || r.b == t.b);
      }
    }
  }

  lemma {:induction false} RunFits(program: seq<nat>, s: State, n: nat)
    requires Fits(s) && forall i :: 0 <= i < |program| ==> program[i] < 256
    ensures Fits(Run(program, s, n))
    decreases n
  {
    if n > 0 {
      RunFits(program, s, n - 1);
      NextFits(program, Run(program, s, n - 1));
    }
  }

  // ---------------------------------------------------------------------
  // The computer

  class Computer {
    const reg: array<nat>
    var ip: nat
    const program: seq<nat>
    var output: seq<nat>

    ghost predicate Valid()
      reads this
    {
      reg.Length == 3
    }

    function Current(): State
      reads this, reg
      requires Valid()
    {
      State(reg[REG_A], reg[REG_B], reg[REG_C], ip, output)
    }

    constructor(program: seq<nat>)
      ensures Valid() && fresh(reg) && this.program == program
      ensures Current() == State(0, 0, 0, 0, [])
    {
      reg := new nat[3](_ => 0);
      ip := 0;
      this.program := program;
      output := [];
    }

    // `reset`: registers, instruction index and output back to zero; the
    // program stays.
    method Reset()
      requires Valid()
      modifies this, reg
      ensures Valid() && Current() == State(0, 0, 0, 0, [])
    {
      reg[REG_A], reg[REG_B], reg[REG_C] := 0, 0, 0;
      ip := 0;
      output := [];
    }

    method SetRegisters(a: nat, b: nat, c: nat)
      requires Valid()
      modifies reg
      ensures Valid() && Current() == old(Current()).(a := a, b := b, c := c)
    {
      reg[REG_A], reg[REG_B], reg[REG_C] := a, b, c;
    }

    // `step`: false, changing nothing, once the instruction index is past
    // the program; otherwise one instruction and true.
    method Step() returns (running: bool)
      requires Valid() && Ok(program, Current())
      modifies this, reg
      ensures Valid()
      ensures running <==> !Halted(program, old(Current()))
      ensures Current() == Next(program, old(Current()))
    {
      if ip >= |program| {
        return false;
      }
      var instruction := program[ip];
      var operand := program[ip + 1];
      if instruction == 0 || instruction == 6 || instruction == 7 {
        var n := reg[REG_A];
        var r := Shr(n, Combo(Current(), operand) % U32);
        var regNum := if instruction == 0 then REG_A else if instruction == 6 then REG_B else REG_C;
        reg[regNum] := r;
        ip := ip + 2;
      } else if instruction == 1 {
        reg[REG_B] := Xor(reg[REG_B], operand);
        ip := ip + 2;
      } else if instruction == 2 {
        var r := Combo(Current(), operand) % 8;
        reg[REG_B] := r;
        ip := ip + 2;
      } else if instruction == 3 {
        if reg[REG_A] == 0 {
          ip := ip + 2;
        } else {
          ip := operand;
        }
      } else if instruction == 4 {
        reg[REG_B] := Xor(reg[REG_B], reg[REG_C]);
        ip := ip + 2;
      } else {
        var r := Combo(Current(), operand) % 8;
        output := output + [r];
        ip := ip + 2;
      }
      running := true;
    }
  }

  // ---------------------------------------------------------------------
  // Part one

  // The program is every number after the three registers, cut to 8 bits
  // (`u as u8`).
  function Program(caps: seq<nat>): (p: seq<nat>)
    requires |caps| >= 3
    ensures |p| == |caps| - 3 && forall i :: 0 <= i < |p| ==> p[i] < 256 && p[i] == caps[3 + i] % 256
  {
    seq(|caps| - 3, i requires 0 <= i < |caps| - 3 => caps[3 + i] % 256)
  }

  function Initial(caps: seq<nat>): State
    requires |caps| >= 3
  {
    State(caps[0], caps[1], caps[2], 0, [])
  }

  // Part one: run until the computer halts or a million steps have passed;
  // the output is what the program printed, every value below 8.
  method Part1(caps: seq<nat>) returns (output: seq<nat>)
    requires |caps| >= 3 && Safe(Program(caps), Initial(caps), MAX_STEPS)
    ensures output == Run(Program(caps), Initial(caps), MAX_STEPS).output
    ensures Digits(output)
  {
    var program := Program(caps);
    var c := new Computer(program);
    c.SetRegisters(caps[0], caps[1], caps[2]);
    ghost var init := Initial(caps);
    var running := true;
    var steps := 0;
    while running && steps < MAX_STEPS
      invariant c.Valid() && c.program == program && steps <= MAX_STEPS
      invariant c.Current() == Run(program, init, steps)
      invariant !running ==> Halted(program, c.Current())
      decreases MAX_STEPS - steps
    {
      running := c.Step();
      steps := steps + 1;
    }
    if steps < MAX_STEPS {
      HaltedStays(program, init, steps, MAX_STEPS);
    }
    OutputGrows(program, init, MAX_STEPS);
    output := c.output;
  }
}
