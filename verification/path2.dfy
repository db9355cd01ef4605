// src/path2.rs: directions encoded in two bits (`Move2`) and `ShrunkPath`,
// a path stored 32 moves to a 64-bit word on a `StackStack64`.
module Path2 {
  import opened Wrappers
  import opened Vectors
  import Moves
  import opened StackStack
  import opened Words

  datatype Move2 = Up | Right | Down | Left

  const ALLMOVES2: seq<Move2> := [Up, Right, Down, Left]

  // The `repr(u8)` discriminant, 0 to 3.
  function Code(m: Move2): nat
  {
    match m
    case Up => 0
    case Right => 1
    case Down => 2
    case Left => 3
  }

  function ToVector(m: Move2): Vector
  {
    match m
    case Up => Vector(0, -1)
    case Right => Vector(1, 0)
    case Down => Vector(0, 1)
    case Left => Vector(-1, 0)
  }

  // Panics above 3.
  function FromU8Unchecked(n: nat): (r: Move2)
    requires n < 4
    ensures Code(r) == n
  {
    if n == 0 then Up else if n == 1 then Right else if n == 2 then Down else Left
  }

  function FromU8(n: nat): (r: Option<Move2>)
    requires n < 256
    ensures r.None? <==> n > 3
    ensures r.Some? ==> Code(r.value) == n
  {
    if n == 0 then Some(Up)
    else if n == 1 then Some(Right)
    else if n == 2 then Some(Down)
    else if n == 3 then Some(Left)
    else None
  }

  function AsMove(m: Move2): Moves.Move
  {
    match m
    case Up => Moves.Up
    case Right => Moves.Right
    case Down => Moves.Down
    case Left => Moves.Left
  }

  // `Move::as_move2` of src/path.rs.
  function AsMove2(m: Moves.Move): Move2
  {
    match m
    case Up => Up
    case Right => Right
    case Down => Down
    case Left => Left
  }

  function Rotr(m: Move2): Move2
  {
    match m
    case Up => Right
    case Right => Down
    case Down => Left
    case Left => Up
  }

  function Rotl(m: Move2): Move2
  {
    match m
    case Up => Left
    case Left => Down
    case Down => Right
    case Right => Up
  }

  // The position one step away in direction m (`Vector::apply_dir`).
  function ApplyDir(v: Vector, m: Move2): Vector
  {
    Add(v, ToVector(m))
  }

  lemma Move2Facts(m: Move2)
    ensures Rotl(Rotr(m)) == m && Rotr(Rotl(m)) == m
    ensures Rotr(Rotr(Rotr(Rotr(m)))) == m
    ensures FromU8(Code(m)) == Some(m) && FromU8Unchecked(Code(m)) == m
    ensures AsMove2(AsMove(m)) == m
    ensures Moves.ToVector(AsMove(m)) == ToVector(m)
    ensures Moves.Rotr(AsMove(m)) == AsMove(Rotr(m)) && Moves.Rotl(AsMove(m)) == AsMove(Rotl(m))
  {
  }

  // As written, a key push puts the deer somewhere other than where the
  // move recorded in its path leads.
  lemma KeyPushMisplaces(v: Vector, m: Move2)
    ensures Moves.AddDirAsWritten(v, AsMove(m)) != ApplyDir(v, m)
  {
    match m
    case Up =>
      assert Moves.AddDirAsWritten(v, Moves.Up) == Vector(v.x + 1, v.y);
      assert ApplyDir(v, m) == Vector(v.x, v.y - 1);
    case Right =>
      assert Moves.AddDirAsWritten(v, Moves.Right) == Vector(v.x, v.y + 1);
      assert ApplyDir(v, m) == Vector(v.x + 1, v.y);
    case Down =>
      assert Moves.AddDirAsWritten(v, Moves.Down) == v;
      assert ApplyDir(v, m) == Vector(v.x, v.y + 1);
    case Left =>
      assert Moves.AddDirAsWritten(v, Moves.Left) == v;
      assert ApplyDir(v, m) == Vector(v.x - 1, v.y);
  }

  lemma MoveFacts(m: Moves.Move)
    ensures AsMove(AsMove2(m)) == m
  {
  }

  // Cost of taking step m while facing m0: 1 to go straight on, 1001 after a
  // quarter turn either way, 2001 after a reversal.
  function CalcScore(m0: Move2, m: Move2): (r: nat)
    ensures r == 1 <==> m0 == m
    ensures r == 1001 <==> m0 == Rotr(m) || m0 == Rotl(m)
    ensures r == 2001 <==> m0 == Rotr(Rotr(m))
  {
    if m0 == m then 1
    else if m0 == Rotr(m) || m0 == Rotl(m) then 1001
    else assert m0 == Rotr(Rotr(m)); 2001
  }

  lemma CalcScoreSymmetric(m0: Move2, m: Move2)
    ensures CalcScore(m0, m) == CalcScore(m, m0)
  {
  }

  // Largest number of moves the 320 words hold.
  const MAX_MOVES: nat := 32 * STACKSTACK64_MAX

  lemma CodeOfBits(b: bv64)
    requires b < 4
    ensures b as int < 4 && FromU8Unchecked(b as nat) == FromBits(b)
  {
  }

  function Bits(m: Move2): (b: bv64)
    ensures b < 4
  {
    match m
    case Up => 0
    case Right => 1
    case Down => 2
    case Left => 3
  }

  function FromBits(b: bv64): (m: Move2)
    requires b < 4
    ensures Bits(m) == b
  {
    if b == 0 then Up else if b == 1 then Right else if b == 2 then Down else Left
  }

  // A slot number 0 to 31 as a 64-bit word.
  function SlotIndex(k: nat): (b: bv64)
    requires k < 32
    ensures b < 32
  {
    BvInt(k);
    Bv(k)
  }

  lemma SlotIndexOrder(j: nat, k: nat)
    requires j < k < 32
    ensures SlotIndex(j) < SlotIndex(k)
  {
    BvInt(j);
    BvInt(k);
  }

  lemma SlotIndexNext(k: nat)
    requires k + 1 < 32
    ensures SlotIndex(k + 1) == SlotIndex(k) + 1
  {
  }

  // The two bits of slot k of a word.
  function Slot(x: bv64, k: bv64): (b: bv64)
    requires k < 32
    ensures b < 4
  {
    (x >> (2 * k)) & 3
  }

  // The slots of a word from slot k upwards, shifted down.
  function Above(x: bv64, k: bv64): bv64
    requires k < 32
  {
    x >> (2 * k)
  }

  // A word with a code OR-ed into slot k.
  function Put(x: bv64, c: bv64, k: bv64): bv64
    requires k < 32
  {
    x | (c << (2 * k))
  }

  // OR-ing a code into slot k leaves the slots below it as they were.
  lemma OrBelow(x: bv64, c: bv64, k: bv64, j: bv64)
    requires c < 4 && j < k < 32
    ensures Slot(Put(x, c, k), j) == Slot(x, j)
  {
  }

  // OR-ing a code into an empty slot k stores it there and keeps the slots
  // above it empty.
  lemma OrAt(x: bv64, c: bv64, k: bv64)
    requires c < 4 && k < 32 && Above(x, k) == 0
    ensures Slot(Put(x, c, k), k) == c
    ensures k + 1 < 32 ==> Above(Put(x, c, k), k + 1) == 0
  {
  }

  // A code alone in a fresh word sits in slot 0 with nothing above it.
  lemma FreshWord(c: bv64)
    requires c < 4
    ensures Slot(c, 0) == c && Above(c, 1) == 0
    ensures Put(0, c, 0) == c
  {
  }

  // The i-th move of a path packed into words.
  function MoveAt(blocks: seq<bv64>, i: nat): Move2
    requires i / 32 < |blocks|
  {
    FromBits(Slot(blocks[i / 32], SlotIndex(i % 32)))
  }

  function Decode(blocks: seq<bv64>, n: nat): (p: seq<Move2>)
    requires n <= 32 * |blocks|
    ensures |p| == n
  {
    seq(n, i requires 0 <= i < n => MoveAt(blocks, i))
  }

  // Words beyond those a path of n moves occupies do not affect it.
  lemma DecodePrefix(blocks: seq<bv64>, more: seq<bv64>, n: nat)
    requires n <= 32 * |blocks|
    ensures Decode(blocks + more, n) == Decode(blocks, n)
  {
    forall i | 0 <= i < n
      ensures MoveAt(blocks + more, i) == MoveAt(blocks, i)
    {
      assert (blocks + more)[i / 32] == blocks[i / 32];
    }
  }

  // Appending a move as a fresh word at a 32-move boundary.
  lemma DecodeNewWord(blocks: seq<bv64>, n: nat, c: bv64)
    requires n % 32 == 0 && n / 32 < |blocks| && c < 4
    ensures Decode(blocks[n / 32 := c], n + 1) == Decode(blocks, n) + [FromBits(c)]
    ensures Above(c, SlotIndex(1)) == 0
  {
    FreshWord(c);
    assert SlotIndex(0) == 0 && SlotIndex(1) == 1;
    var b' := blocks[n / 32 := c];
    forall i | 0 <= i < n
      ensures MoveAt(b', i) == MoveAt(blocks, i)
    {
    }
  }

  // Appending a move by OR-ing it into the first empty slot of the last word.
  lemma DecodeOrWord(blocks: seq<bv64>, n: nat, c: bv64)
    requires n % 32 != 0 && n / 32 < |blocks| && c < 4
    requires Above(blocks[n / 32], SlotIndex(n % 32)) == 0
    ensures Decode(blocks[n / 32 := Put(blocks[n / 32], c, SlotIndex(n % 32))], n + 1) == Decode(blocks, n) + [FromBits(c)]
    ensures (n + 1) % 32 != 0 ==> Above(Put(blocks[n / 32], c, SlotIndex(n % 32)), SlotIndex((n + 1) % 32)) == 0
  {
    var b' := blocks[n / 32 := Put(blocks[n / 32], c, SlotIndex(n % 32))];
    forall i | 0 <= i < n + 1
      ensures Decode(b', n + 1)[i] == (Decode(blocks, n) + [FromBits(c)])[i]
    {
      if i < n {
        OrWordKeeps(blocks, n, c, i);
      } else {
        OrWordAt(blocks, n, c);
      }
    }
    OrWordAbove(blocks[n / 32], n, c);
  }

  lemma OrWordAt(blocks: seq<bv64>, n: nat, c: bv64)
    requires n % 32 != 0 && n / 32 < |blocks| && c < 4
    requires Above(blocks[n / 32], SlotIndex(n % 32)) == 0
    ensures MoveAt(blocks[n / 32 := Put(blocks[n / 32], c, SlotIndex(n % 32))], n) == FromBits(c)
  {
    OrAt(blocks[n / 32], c, SlotIndex(n % 32));
  }

  lemma OrWordAbove(x: bv64, n: nat, c: bv64)
    requires n % 32 != 0 && c < 4
    requires Above(x, SlotIndex(n % 32)) == 0
    ensures (n + 1) % 32 != 0 ==> Above(Put(x, c, SlotIndex(n % 32)), SlotIndex((n + 1) % 32)) == 0
  {
    OrAt(x, c, SlotIndex(n % 32));
    if (n + 1) % 32 != 0 {
      SlotIndexNext(n % 32);
    }
  }

  lemma OrWordKeeps(blocks: seq<bv64>, n: nat, c: bv64, i: nat)
    requires n % 32 != 0 && n / 32 < |blocks| && c < 4 && i < n
    ensures MoveAt(blocks[n / 32 := Put(blocks[n / 32], c, SlotIndex(n % 32))], i) == MoveAt(blocks, i)
  {
    if i / 32 == n / 32 {
      SlotIndexOrder(i % 32, n % 32);
      OrBelow(blocks[n / 32], c, SlotIndex(n % 32), SlotIndex(i % 32));
    }
  }

  class ShrunkPath {
    var count: nat
    const data: StackStack64

    // The words in use are exactly those the count needs, and the slots above
    // the count in the last word are zero, so that OR-ing in a move is enough.
    ghost predicate Valid()
      reads this, data, data.stack
    {
      data.Valid() && count <= MAX_MOVES && data.next == (count + 31) / 32 &&
      (count % 32 != 0 ==> Above(data.stack[count / 32], SlotIndex(count % 32)) == 0)
    }

    // The moves `to_path` reads back.
    ghost function Path(): seq<Move2>
      reads this, data, data.stack
      requires data.Valid() && count <= MAX_MOVES
    {
      Decode(data.stack[..], count)
    }

    constructor ()
      ensures Valid() && Path() == [] && fresh(data) && fresh(data.stack)
    {
      count := 0;
      data := new StackStack64();
    }

    constructor FromParts(count: nat, data: StackStack64)
      ensures this.count == count && this.data == data
    {
      this.count := count;
      this.data := data;
    }

    // `clone`: the count and every word of the stack copied into new storage.
    method Clone() returns (c: ShrunkPath)
      requires Valid()
      ensures fresh(c) && fresh(c.data) && fresh(c.data.stack)
      ensures c.Valid() && c.count == count && c.Path() == Path()
    {
      var d := new StackStack64();
      forall i | 0 <= i < STACKSTACK64_MAX {
        d.stack[i] := data.stack[i];
      }
      d.next := data.next;
      c := new ShrunkPath.FromParts(count, d);
      assert c.data.stack[..] == data.stack[..];
    }

    // A valid path below the limit has room on its stack for one more move.
    lemma Room()
      requires Valid() && count < MAX_MOVES
      ensures count % 32 == 0 ==> data.next < STACKSTACK64_MAX
    {
    }

    function Len(): (n: nat)
      reads this, data, data.stack
      requires Valid()
      ensures n == |Path()|
    {
      count
    }

    // src/path2.rs:103-105 as written: only the count is reset, so the words
    // already on the stack stay there and the next push starts a new one.
    method ClearAsWritten()
      modifies this
      ensures count == 0
    {
      count := 0;
    }

    // The intended reset: the count and the word stack together.
    method Clear()
      requires data.Valid()
      modifies this, data
      ensures Valid() && Path() == []
    {
      count := 0;
      data.Clear();
    }

    // The state change of one `push`: a new word holding c when the count is a
    // multiple of 32, otherwise c OR-ed into slot count % 32 of the current
    // word; no other word changes.
    twostate predicate Wrote(c: bv64)
      reads this, data, data.stack
    {
      count == old(count) + 1 &&
      (old(count) % 32 == 0 ==>
        old(data.next) < data.stack.Length &&
        data.next == old(data.next) + 1 && data.stack[old(data.next)] == c &&
        forall i :: 0 <= i < data.stack.Length && i != old(data.next) ==> data.stack[i] == old(data.stack[i])) &&
      (old(count) % 32 != 0 ==>
        old(count) / 32 < data.stack.Length &&
        data.next == old(data.next) &&
        data.stack[old(count) / 32] == Put(old(data.stack[count / 32]), c, SlotIndex(old(count) % 32)) &&
        forall i :: 0 <= i < data.stack.Length && i != old(count) / 32 ==> data.stack[i] == old(data.stack[i]))
    }

    // The body shared by `push` and `push_u8`.
    method WriteCode(c: bv64)
      requires data.Valid() && count < MAX_MOVES
      requires count % 32 == 0 ==> data.next < STACKSTACK64_MAX
      modifies this, data, data.stack
      ensures data.Valid() && Wrote(c)
      ensures old(Valid()) && c < 4 ==> Valid() && Path() == old(Path()) + [FromBits(c)]
    {
      if count % 32 == 0 {
        StartWord(c);
      } else {
        OrIntoWord(c);
      }
    }

    // A count that is a multiple of 32: c goes alone into a new word.
    method StartWord(c: bv64)
      requires data.Valid() && count < MAX_MOVES && count % 32 == 0 && data.next < STACKSTACK64_MAX
      modifies this, data, data.stack
      ensures data.Valid() && Wrote(c)
      ensures old(Valid()) && c < 4 ==> Valid() && Path() == old(Path()) + [FromBits(c)]
    {
      ghost var wasValid := Valid() && c < 4;
      ghost var blocks := data.stack[..];
      data.Push(c);
      count := count + 1;
      if wasValid {
        DecodeNewWord(blocks, count - 1, c);
        assert data.stack[..] == blocks[(count - 1) / 32 := c];
      }
    }

    // Otherwise c is OR-ed into its slot of the current word.
    method OrIntoWord(c: bv64)
      requires data.Valid() && count < MAX_MOVES && count % 32 != 0
      modifies this, data, data.stack
      ensures data.Valid() && Wrote(c)
      ensures old(Valid()) && c < 4 ==> Valid() && Path() == old(Path()) + [FromBits(c)]
    {
      ghost var wasValid := Valid() && c < 4;
      ghost var blocks := data.stack[..];
      var k := count % 32;
      var idx := count / 32;
      var x := data.stack[idx];
      x := Put(x, c, SlotIndex(k));
      data.stack[idx] := x;
      count := count + 1;
      if wasValid {
        DecodeOrWord(blocks, count - 1, c);
        assert data.stack[..] == blocks[(count - 1) / 32 := Put(blocks[(count - 1) / 32], c, SlotIndex(k))];
      }
    }

    // Panics when the words are all in use.
    method Push(m: Move2)
      requires data.Valid() && count < MAX_MOVES
      requires count % 32 == 0 ==> data.next < STACKSTACK64_MAX
      modifies this, data, data.stack
      ensures data.Valid() && Wrote(Bits(m))
      ensures old(Valid()) ==> Valid() && Path() == old(Path()) + [m]
    {
      WriteCode(Bits(m));
    }

    // `push_u8` ORs in whatever byte it is given; only codes 0 to 3 append a
    // move without disturbing the slots above.
    method PushU8(move1: nat)
      requires data.Valid() && count < MAX_MOVES && move1 < 256
      requires count % 32 == 0 ==> data.next < STACKSTACK64_MAX
      modifies this, data, data.stack
      ensures data.Valid() && Wrote(move1 as bv64)
      ensures old(Valid()) && move1 < 4 ==> Valid() && Path() == old(Path()) + [FromU8Unchecked(move1)]
    {
      WriteCode(move1 as bv64);
    }

    method AppendPath(path: seq<Move2>)
      requires Valid() && count + |path| <= MAX_MOVES
      modifies this, data, data.stack
      ensures Valid() && Path() == old(Path()) + path
    {
      var i := 0;
      while i < |path|
        invariant 0 <= i <= |path|
        invariant Valid() && count == old(count) + i
        invariant Path() == old(Path()) + path[..i]
      {
        WriteCode(Bits(path[i]));
        assert path[..i + 1] == path[..i] + [path[i]];
        i := i + 1;
      }
      assert path[..i] == path;
    }

    // Reads the moves back; panics if the count runs past the 320 words.
    method ToPath() returns (p: seq<Move2>)
      requires data.Valid() && count <= MAX_MOVES
      ensures p == Path()
    {
      p := [];
      var i := 0;
      while i < count
        invariant 0 <= i <= count
        invariant p == Decode(data.stack[..], count)[..i]
      {
        var code := Slot(data.stack[i / 32], SlotIndex(i % 32));
        CodeOfBits(code);
        p := p + [FromU8Unchecked(code as nat)];
        i := i + 1;
      }
    }

    // `score`: the path length plus, for each consecutive pair of moves, the
    // 1, 1001 or 2001 of `calc_score`; there is no initial facing.
    method Score() returns (s: nat)
      requires data.Valid() && count <= MAX_MOVES
      ensures s == |Path()| + PairCost(Path())
    {
      var path := ToPath();
      var pairs := PairCostOf(path);
      s := count + pairs;
    }

    static method FromPath(path: seq<Move2>) returns (sp: ShrunkPath)
      requires |path| <= MAX_MOVES
      ensures fresh(sp) && fresh(sp.data) && fresh(sp.data.stack)
      ensures sp.Valid() && sp.Path() == path
    {
      var data, x, prefix := PackWords(path);
      if |path| > 0 {
        data.Push(x);
        PackDone(prefix, x, path, data.stack[..]);
      }
      sp := new ShrunkPath.FromParts(|path|, data);
    }

    // The loop of `from_path`: every full word is pushed, the last partial
    // word is left in x.
    static method PackWords(path: seq<Move2>) returns (data: StackStack64, x: bv64, ghost prefix: seq<bv64>)
      requires |path| <= MAX_MOVES
      ensures fresh(data) && fresh(data.stack) && data.Valid()
      ensures data.stack[..data.next] == prefix && Packed(prefix, x, |path|, path)
    {
      data := new StackStack64();
      x := 0;
      prefix := [];
      var i := 0;
      while i < |path|
        invariant 0 <= i <= |path|
        invariant data.Valid() && fresh(data) && fresh(data.stack)
        invariant data.stack[..data.next] == prefix
        invariant Packed(prefix, x, i, path)
      {
        var c := Bits(path[i]);
        PackStep(prefix, x, i, path);
        if i % 32 == 0 && i != 0 {
          data.Push(x);
          prefix := prefix + [x];
          x := 0;
        }
        x := Put(x, c, SlotIndex(i % 32));
        i := i + 1;
      }
    }
  }

  // The state of `from_path` after i moves: the full words so far, and the
  // word being filled.
  ghost predicate Packed(prefix: seq<bv64>, x: bv64, i: nat, path: seq<Move2>)
    requires i <= |path|
  {
    if i == 0 then prefix == [] && x == 0
    else
      |prefix| == (i - 1) / 32 && Decode(prefix + [x], i) == path[..i] &&
      (i % 32 != 0 ==> Above(x, SlotIndex(i % 32)) == 0)
  }

  // The words on the stack once the last partial word is pushed.
  lemma PackDone(prefix: seq<bv64>, x: bv64, path: seq<Move2>, stack: seq<bv64>)
    requires |path| > 0 && Packed(prefix, x, |path|, path)
    requires |prefix| < |stack| && stack[..|prefix| + 1] == prefix + [x]
    ensures |prefix| + 1 == (|path| + 31) / 32 && |path| <= 32 * |stack|
    ensures Decode(stack, |path|) == path
    ensures |path| % 32 != 0 ==> Above(stack[|path| / 32], SlotIndex(|path| % 32)) == 0
  {
    assert stack == (prefix + [x]) + stack[|prefix| + 1..];
    DecodePrefix(prefix + [x], stack[|prefix| + 1..], |path|);
    assert path[..|path|] == path;
  }

  lemma PackStep(prefix: seq<bv64>, x: bv64, i: nat, path: seq<Move2>)
    requires i < |path| && Packed(prefix, x, i, path)
    ensures var c := Bits(path[i]);
      if i % 32 == 0 && i != 0 then Packed(prefix + [x], Put(0, c, SlotIndex(0)), i + 1, path)
      else Packed(prefix, Put(x, c, SlotIndex(i % 32)), i + 1, path)
  {
    assert path[..i + 1] == path[..i] + [path[i]];
    if i % 32 == 0 {
      PackStepNewWord(prefix, x, i, path);
    } else {
      StepSameWord(prefix, x, i, Bits(path[i]));
    }
  }

  lemma PackStepNewWord(prefix: seq<bv64>, x: bv64, i: nat, path: seq<Move2>)
    requires i < |path| && i % 32 == 0 && Packed(prefix, x, i, path)
    requires path[..i + 1] == path[..i] + [path[i]]
    ensures var c := Bits(path[i]);
      if i != 0 then Packed(prefix + [x], Put(0, c, SlotIndex(0)), i + 1, path)
      else Packed(prefix, Put(x, c, SlotIndex(0)), i + 1, path)
  {
    var c := Bits(path[i]);
    StepNewWord(prefix, x, i, c);
    assert FromBits(c) == path[i];
    assert (i + 1) % 32 == 1 && ((i + 1) - 1) / 32 == i / 32;
    if i != 0 {
      assert Decode(prefix + [x] + [Put(0, c, SlotIndex(0))], i + 1) == path[..i] + [path[i]];
    } else {
      assert Put(x, c, SlotIndex(0)) == Put(0, c, SlotIndex(0));
      assert Decode([] + [Put(0, c, SlotIndex(0))], 1) == [path[0]];
      assert path[..1] == [path[0]];
    }
  }

  // One step of `from_path` that closes the current word and starts the next.
  lemma StepNewWord(prefix: seq<bv64>, x: bv64, i: nat, c: bv64)
    requires i % 32 == 0 && c < 4
    requires |prefix| == (if i == 0 then 0 else (i - 1) / 32)
    requires i > 0 ==> i <= 32 * (|prefix| + 1)
    ensures var words := if i == 0 then [] else prefix + [x];
      |words| == i / 32 &&
      Decode(words + [Put(0, c, SlotIndex(0))], i + 1) ==
        (if i == 0 then [] else Decode(prefix + [x], i)) + [FromBits(c)] &&
      Above(Put(0, c, SlotIndex(0)), SlotIndex(1)) == 0
  {
    var words := if i == 0 then [] else prefix + [x];
    FreshWord(c);
    assert SlotIndex(0) == 0 && SlotIndex(1) == 1;
    DecodePrefix(words, [0], i);
    DecodeNewWord(words + [0], i, c);
    assert (words + [0])[i / 32 := c] == words + [Put(0, c, SlotIndex(0))];
  }

  // One step of `from_path` that ORs the move into the current word.
  lemma StepSameWord(prefix: seq<bv64>, x: bv64, i: nat, c: bv64)
    requires i % 32 != 0 && c < 4
    requires |prefix| == i / 32
    requires Above(x, SlotIndex(i % 32)) == 0
    ensures Decode(prefix + [Put(x, c, SlotIndex(i % 32))], i + 1) == Decode(prefix + [x], i) + [FromBits(c)]
    ensures (i + 1) % 32 != 0 ==> Above(Put(x, c, SlotIndex(i % 32)), SlotIndex((i + 1) % 32)) == 0
  {
    var words := prefix + [x];
    assert words[i / 32] == x;
    DecodeOrWord(words, i, c);
    assert words[i / 32 := Put(x, c, SlotIndex(i % 32))] == prefix + [Put(x, c, SlotIndex(i % 32))];
  }

  // Sum of `calc_score` over each consecutive pair of moves.
  // The loop of `score` over the consecutive pairs of moves.
  method PairCostOf(path: seq<Move2>) returns (s: nat)
    ensures s == PairCost(path)
  {
    s := 0;
    var idx := 1;
    while idx < |path|
      invariant 1 <= idx
      invariant idx <= |path| || (|path| == 0 && idx == 1)
      invariant s == PairCost(path[..if |path| == 0 then 0 else idx])
    {
      assert path[..idx + 1][..idx] == path[..idx];
      s := s + CalcScore(path[idx - 1], path[idx]);
      idx := idx + 1;
    }
    if |path| > 0 {
      assert path[..idx] == path;
    }
  }

  function PairCost(p: seq<Move2>): nat
  {
    if |p| < 2 then 0 else PairCost(p[..|p| - 1]) + CalcScore(p[|p| - 2], p[|p| - 1])
  }

  // The cost the search engine gives a path walked while initially facing d:
  // `calc_score` of each step against the direction faced before it.
  function WalkCost(d: Move2, p: seq<Move2>): nat
  {
    if p == [] then 0 else WalkCost(d, p[..|p| - 1]) + CalcScore(if |p| == 1 then d else p[|p| - 2], p[|p| - 1])
  }

  // `score` counts each move once more than the engine does, less the first
  // one when the walk starts facing the first move.
  lemma {:induction false} ScoreVersusWalkCost(p: seq<Move2>)
    requires p != []
    ensures |p| + PairCost(p) == WalkCost(p[0], p) + |p| - 1
  {
    if |p| > 1 {
      var q := p[..|p| - 1];
      assert q[0] == p[0];
      ScoreVersusWalkCost(q);
      assert q[..|q| - 1] == p[..|p| - 2];
    }
  }

  // Every step costs at least 1, so a walk costs at least its length.
  lemma {:induction false} WalkCostBounds(d: Move2, p: seq<Move2>)
    ensures |p| <= WalkCost(d, p) <= 2001 * |p|
  {
    if p != [] {
      WalkCostBounds(d, p[..|p| - 1]);
    }
  }

  // src/path2.rs:103-105 as written: after a path of one move is cleared and
  // Up is pushed, `to_path` still reads the old first word and returns Right.
  method ClearThenPushAsWritten() returns (p: seq<Move2>)
    ensures p == [Right] && p != [Up]
  {
    var sp := new ShrunkPath();
    sp.Push(Right);
    sp.ClearAsWritten();
    sp.Push(Up);
    p := sp.ToPath();
    assert SlotIndex(0) == 0;
    assert p[0] == MoveAt(sp.data.stack[..], 0);
  }

  // With the full reset the same sequence of calls gives back [Up].
  method ClearThenPush() returns (p: seq<Move2>)
    ensures p == [Up]
  {
    var sp := new ShrunkPath();
    sp.Push(Right);
    sp.Clear();
    sp.Push(Up);
    p := sp.ToPath();
  }
}
