// src/stackstack.rs: a fixed-capacity stack of 64-bit words kept inline, so
// that inner loops need no heap allocation.
module StackStack {
  const STACKSTACK64_MAX: nat := 320

  class StackStack64 {
    var next: nat
    const stack: array<bv64>

    ghost predicate Valid()
      reads this
    {
      stack.Length == STACKSTACK64_MAX && next <= STACKSTACK64_MAX
    }

    // The words of a fresh stack are arbitrary; nothing below relies on them.
    constructor ()
      ensures Valid() && next == 0 && fresh(stack)
    {
      next := 0;
      stack := new bv64[STACKSTACK64_MAX];
    }

    // Panics when the stack is full.
    method Push(d: bv64)
      requires Valid() && next < STACKSTACK64_MAX
      modifies this, stack
      ensures Valid() && next == old(next) + 1
      ensures stack[old(next)] == d
      ensures forall i :: 0 <= i < stack.Length && i != old(next) ==> stack[i] == old(stack[i])
    {
      stack[next] := d;
      next := next + 1;
    }

    // Panics when the stack is empty.
    method Pop() returns (d: bv64)
      requires Valid() && 0 < next
      modifies this
      ensures Valid() && next == old(next) - 1
      ensures d == stack[next]
    {
      next := next - 1;
      d := stack[next];
    }

    function Len(): (n: nat)
      reads this
      requires Valid()
      ensures n <= STACKSTACK64_MAX
    {
      next
    }

    // Forgets the contents without touching the stored words.
    method Clear()
      modifies this
      ensures next == 0
    {
      next := 0;
    }
  }

  // `pop` after `push(d)` gives `d` back and restores the depth.
  method PushThenPop(s: StackStack64, d: bv64) returns (r: bv64)
    requires s.Valid() && s.next < STACKSTACK64_MAX
    modifies s, s.stack
    ensures r == d && s.Valid() && s.next == old(s.next)
    ensures forall i :: 0 <= i < old(s.next) ==> s.stack[i] == old(s.stack[i])
  {
    s.Push(d);
    r := s.Pop();
  }
}
