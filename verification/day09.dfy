// src/day09.rs: a disk map of digits, alternately the length of a file and
// the length of a gap. Part one moves single blocks from the end of the
// disk into the first gap until no gap precedes a file block; part two
// moves whole files, highest id first, into the first gap to their left
// that is large enough, merging neighbouring gaps after every move. Each
// part reports the checksum: the sum of position times file id.
//
// The digits arrive already parsed.
module Day09 {
  import opened Wrappers

  // A block holds a file id, or None when it is free.
  type Block = Option<nat>

  function Repeat(b: Block, n: nat): (r: seq<Block>)
    ensures |r| == n && forall i :: 0 <= i < n ==> r[i] == b
  {
    if n == 0 then [] else Repeat(b, n - 1) + [b]
  }

  // ---------------------------------------------------------------------
  // Expansion into blocks

  // Digit i gives input[i] blocks: of file i / 2 when i is even, free when
  // i is odd.
  function Expand(input: seq<nat>): seq<Block>
    decreases |input|
  {
    if input == [] then []
    else
      var i := |input| - 1;
      Expand(input[..i]) + Repeat(if i % 2 == 0 then Some(i / 2) else None, input[i])
  }

  function DigitSum(input: seq<nat>): nat
    decreases |input|
  {
    if input == [] then 0 else DigitSum(input[..|input| - 1]) + input[|input| - 1]
  }

  method ExpandBlocks(input: seq<nat>) returns (blocks: seq<Block>)
    ensures blocks == Expand(input)
  {
    blocks := [];
    for i := 0 to |input|
      invariant blocks == Expand(input[..i])
    {
      assert input[..i + 1][..i] == input[..i];
      var n := input[i];
      var id := i / 2;
      if i % 2 == 0 {
        blocks := blocks + Repeat(Some(id), n);
      } else {
        blocks := blocks + Repeat(None, n);
      }
    }
    assert input[..|input|] == input;
  }

  // The disk is as long as the digits add up to ...
  lemma {:induction false} ExpandLength(input: seq<nat>)
    ensures |Expand(input)| == DigitSum(input)
    decreases |input|
  {
    if input != [] {
      ExpandLength(input[..|input| - 1]);
    }
  }

  // ... and file k fills exactly as many blocks as digit 2k says.
  lemma {:induction false} ExpandCounts(input: seq<nat>, k: nat)
    ensures multiset(Expand(input))[Some(k)] == if 2 * k < |input| then input[2 * k] else 0
    decreases |input|
  {
    if input != [] {
      var i := |input| - 1;
      var b: Block := if i % 2 == 0 then Some(i / 2) else None;
      var before := multiset(Expand(input[..i]))[Some(k)];
      assert before == if 2 * k < i then input[2 * k] else 0 by {
        ExpandCounts(input[..i], k);
        if 2 * k < i {
          assert input[..i][2 * k] == input[2 * k];
        }
      }
      var added := multiset(Repeat(b, input[i]))[Some(k)];
      assert added == if i == 2 * k then input[i] else 0 by {
        RepeatCount(b, input[i], Some(k));
        Halves(i, k);
      }
      assert multiset(Expand(input))[Some(k)] == before + added by {
        ExpandSnoc(input);
      }
    } else {
      assert Expand(input) == [];
    }
  }

  lemma ExpandSnoc(input: seq<nat>)
    requires input != []
    ensures var i := |input| - 1;
      multiset(Expand(input)) ==
      multiset(Expand(input[..i])) + multiset(Repeat(if i % 2 == 0 then Some(i / 2) else None, input[i]))
  {
  }

  lemma Halves(i: nat, k: nat)
    ensures (i % 2 == 0 && i / 2 == k) <==> i == 2 * k
  {
  }

  lemma {:induction false} RepeatCount(b: Block, n: nat, x: Block)
    ensures multiset(Repeat(b, n))[x] == if x == b then n else 0
  {
    if n > 0 {
      RepeatCount(b, n - 1, x);
    }
  }

  // ---------------------------------------------------------------------
  // Part one: block by block

  // `position(|&b| b == None)`: the first free block.
  function FirstFree(blocks: seq<Block>): (r: Option<nat>)
    ensures r.Some? ==> r.value < |blocks| && blocks[r.value] == None
    ensures r.Some? ==> forall j :: 0 <= j < r.value ==> blocks[j] != None
    ensures r == None ==> forall j :: 0 <= j < |blocks| ==> blocks[j] != None
  {
    if blocks == [] then None
    else if blocks[0] == None then Some(0)
    else
      match FirstFree(blocks[1..])
      case None => None
      case Some(j) => Some(j + 1)
  }

  // No free block comes before a file block.
  predicate Compacted(blocks: seq<Block>)
  {
    forall i, j :: 0 <= i < j < |blocks| && blocks[i] == None ==> blocks[j] == None
  }

  // `day09` reads blocks[len - 1], and walks last_idx down past free
  // blocks; that walk needs a file block somewhere once the loop runs.
  predicate Compactable(blocks: seq<Block>)
  {
    |blocks| >= 1 && (|blocks| == 1 || exists i :: 0 <= i < |blocks| && blocks[i] != None)
  }

  method CompactBlocks(blocks0: seq<Block>) returns (blocks: seq<Block>)
    requires Compactable(blocks0)
    ensures |blocks| == |blocks0| && multiset(blocks) == multiset(blocks0)
    ensures Compacted(blocks)
  {
    blocks := blocks0;
    var freeIdx := FirstFree(blocks);
    var lastIdx: nat := |blocks| - 1;
    while freeIdx.Some? && freeIdx.value < lastIdx
      invariant |blocks| == |blocks0| && multiset(blocks) == multiset(blocks0)
      invariant lastIdx < |blocks| && freeIdx == FirstFree(blocks)
      invariant forall j :: lastIdx < j < |blocks| ==> blocks[j] == None
      invariant lastIdx == 0 || exists j :: 0 <= j <= lastIdx && blocks[j] != None
      decreases lastIdx
    {
      var f := freeIdx.value;
      ghost var j0 :| 0 <= j0 <= lastIdx && blocks[j0] != None;
      ghost var moved := blocks[lastIdx];
      // A swap, since blocks[f] is free.
      assert multiset(blocks[f := blocks[lastIdx]][lastIdx := None]) == multiset(blocks) by {
        SwapKeeps(blocks, f, lastIdx);
      }
      blocks := blocks[f := blocks[lastIdx]][lastIdx := None];
      lastIdx := lastIdx - 1;
      if moved != None {
        assert blocks[f] != None;
      } else {
        assert blocks[j0] != None;
      }
      lastIdx := LastFile(blocks, lastIdx);
      freeIdx := FirstFree(blocks);
    }
  }

  // The walk of last_idx down past free blocks.
  method LastFile(blocks: seq<Block>, from: nat) returns (lastIdx: nat)
    requires from < |blocks| && exists j :: 0 <= j <= from && blocks[j] != None
    requires forall j :: from < j < |blocks| ==> blocks[j] == None
    ensures lastIdx <= from && blocks[lastIdx] != None
    ensures forall j :: lastIdx < j < |blocks| ==> blocks[j] == None
  {
    lastIdx := from;
    while blocks[lastIdx] == None
      invariant lastIdx <= from
      invariant forall j :: lastIdx < j < |blocks| ==> blocks[j] == None
      invariant exists j :: 0 <= j <= lastIdx && blocks[j] != None
      decreases lastIdx
    {
      lastIdx := lastIdx - 1;
    }
  }

  lemma SwapKeeps(blocks: seq<Block>, f: nat, l: nat)
    requires f < l < |blocks| && blocks[f] == None
    ensures multiset(blocks[f := blocks[l]][l := None]) == multiset(blocks)
  {
    var b1 := blocks[f := blocks[l]];
    assert multiset(b1) == multiset(blocks) - multiset{None} + multiset{blocks[l]};
    assert b1[l] == blocks[l];
  }

  // ---------------------------------------------------------------------
  // Checksum

  function Checksum(blocks: seq<Block>): nat
    decreases |blocks|
  {
    if blocks == [] then 0
    else
      var i := |blocks| - 1;
      Checksum(blocks[..i]) + match blocks[i] case Some(id) => i * id case None => 0
  }

  method ComputeChecksum(blocks: seq<Block>) returns (checksum: nat)
    ensures checksum == Checksum(blocks)
  {
    checksum := 0;
    for i := 0 to |blocks|
      invariant checksum == Checksum(blocks[..i])
    {
      assert blocks[..i + 1][..i] == blocks[..i];
      if blocks[i].Some? {
        checksum := checksum + i * blocks[i].value;
      }
    }
    assert blocks[..|blocks|] == blocks;
  }

  // Each file block adds its position times its id, and free blocks add
  // nothing: freeing block i takes exactly i * id off the checksum.
  lemma {:induction false} ChecksumFree(blocks: seq<Block>, i: nat, id: nat)
    requires i < |blocks| && blocks[i] == Some(id)
    ensures Checksum(blocks[i := None]) + i * id == Checksum(blocks)
    decreases |blocks|
  {
    var n := |blocks| - 1;
    var b' := blocks[i := None];
    if i < n {
      assert b'[..n] == blocks[..n][i := None];
      ChecksumFree(blocks[..n], i, id);
    } else {
      assert b'[..n] == blocks[..n];
    }
  }

  // Free blocks at the end do not change the checksum.
  lemma {:induction false} ChecksumTrailingFree(blocks: seq<Block>, k: nat)
    ensures Checksum(blocks + Repeat(None, k)) == Checksum(blocks)
  {
    var b := blocks + Repeat(None, k);
    if k > 0 {
      assert b[..|b| - 1] == blocks + Repeat(None, k - 1);
      assert b[|b| - 1] == None;
      ChecksumTrailingFree(blocks, k - 1);
    } else {
      assert b == blocks;
    }
  }

  // ---------------------------------------------------------------------
  // Part two: segments

  datatype Segment = Segment(id: Option<nat>, size: nat)

  function Segments(input: seq<nat>): (segs: seq<Segment>)
    ensures |segs| == |input|
    ensures forall k :: 0 <= k < |input| ==>
      segs[k] == Segment(if k % 2 == 0 then Some(k / 2) else None, input[k])
    decreases |input|
  {
    if input == [] then []
    else
      var i := |input| - 1;
      Segments(input[..i]) + [Segment(if i % 2 == 0 then Some(i / 2) else None, input[i])]
  }

  // The id of the last segment, the highest file id.
  function MaxId(input: seq<nat>): nat
  {
    if input == [] then 0 else (|input| - 1) / 2
  }

  // The segment loop; it also leaves behind the id of the last segment,
  // the highest file id.
  method BuildSegments(input: seq<nat>) returns (segs: seq<Segment>, id: nat)
    ensures segs == Segments(input)
    ensures id == MaxId(input)
  {
    segs := [];
    id := 0;
    for i := 0 to |input|
      invariant segs == Segments(input[..i])
      invariant id == if i == 0 then 0 else (i - 1) / 2
    {
      assert input[..i + 1][..i] == input[..i];
      var n := input[i];
      id := i / 2;
      if i % 2 == 0 {
        segs := segs + [Segment(Some(id), n)];
      } else {
        segs := segs + [Segment(None, n)];
      }
    }
    assert input[..|input|] == input;
  }

  // The blocks a segment list stands for.
  function Flatten(segs: seq<Segment>): seq<Block>
    decreases |segs|
  {
    if segs == [] then []
    else
      var s := segs[|segs| - 1];
      Flatten(segs[..|segs| - 1]) + Repeat(s.id, s.size)
  }

  function Size(segs: seq<Segment>): nat
    decreases |segs|
  {
    if segs == [] then 0 else Size(segs[..|segs| - 1]) + segs[|segs| - 1].size
  }

  // How many file segments equal to x (same id, same size) the list
  // holds: the multiset of file segments, one element at a time.
  function Copies(segs: seq<Segment>, x: Segment): nat
    decreases |segs|
  {
    if segs == [] then 0 else Copies(segs[..|segs| - 1], x) + Hit(segs[|segs| - 1], x)
  }

  function Hit(s: Segment, x: Segment): nat
  {
    if s == x && s.id.Some? then 1 else 0
  }

  // The file segments of the list, as a multiset.
  function FileSegs(segs: seq<Segment>): multiset<Segment>
    decreases |segs|
  {
    if segs == [] then multiset{}
    else
      var c := segs[|segs| - 1];
      FileSegs(segs[..|segs| - 1]) + if c.id.Some? then multiset{c} else multiset{}
  }

  // The multiset holds each segment as often as Copies counts it.
  lemma {:induction false} FileSegsCopies(segs: seq<Segment>, x: Segment)
    ensures FileSegs(segs)[x] == Copies(segs, x)
    decreases |segs|
  {
    if segs != [] {
      FileSegsCopies(segs[..|segs| - 1], x);
    }
  }

  // The same file segments, as many times each.
  ghost predicate SameFiles(a: seq<Segment>, b: seq<Segment>)
  {
    FileSegs(a) == FileSegs(b)
  }

  // Lists with the same count of every file segment have the same files.
  lemma SameCopies(a: seq<Segment>, b: seq<Segment>)
    requires forall x :: Copies(a, x) == Copies(b, x)
    ensures SameFiles(a, b)
  {
    forall x
      ensures FileSegs(a)[x] == FileSegs(b)[x]
    {
      FileSegsCopies(a, x);
      FileSegsCopies(b, x);
    }
  }

  // Both encodings of the disk agree: the segments stand for the blocks.
  lemma {:induction false} SegmentsFlatten(input: seq<nat>)
    ensures Flatten(Segments(input)) == Expand(input)
    decreases |input|
  {
    if input != [] {
      var i := |input| - 1;
      assert Segments(input)[..i] == Segments(input[..i]);
      SegmentsFlatten(input[..i]);
    }
  }

  lemma {:induction false} FlattenAppend(a: seq<Segment>, b: seq<Segment>)
    ensures Flatten(a + b) == Flatten(a) + Flatten(b)
    decreases |b|
  {
    if b == [] {
      assert a + b == a;
    } else {
      var n := |b| - 1;
      assert (a + b)[..|a + b| - 1] == a + b[..n];
      FlattenAppend(a, b[..n]);
    }
  }

  lemma {:induction false} SegAppend(a: seq<Segment>, b: seq<Segment>, x: Segment)
    ensures Size(a + b) == Size(a) + Size(b)
    ensures Copies(a + b, x) == Copies(a, x) + Copies(b, x)
    decreases |b|
  {
    if b == [] {
      assert a + b == a;
    } else {
      var n := |b| - 1;
      assert (a + b)[..|a + b| - 1] == a + b[..n];
      SegAppend(a, b[..n], x);
    }
  }

  lemma SegSplit(a: seq<Segment>, c: Segment, b: seq<Segment>, x: Segment)
    ensures Size(a + [c] + b) == Size(a) + c.size + Size(b)
    ensures Copies(a + [c] + b, x) == Copies(a, x) + Hit(c, x) + Copies(b, x)
  {
    SegAppend(a, [c], x);
    SegAppend(a + [c], b, x);
    assert ([c])[..0] == [];
  }

  predicate Fits(s: Segment, size: nat)
  {
    s.id == None && s.size >= size
  }

  // `position(|&s| s.id == Some(id))`.
  function IndexOf(segs: seq<Segment>, id: nat): (r: Option<nat>)
    ensures r.Some? ==> r.value < |segs| && segs[r.value].id == Some(id)
    ensures r == None ==> forall j :: 0 <= j < |segs| ==> segs[j].id != Some(id)
  {
    if segs == [] then None
    else if segs[0].id == Some(id) then Some(0)
    else
      match IndexOf(segs[1..], id)
      case None => None
      case Some(j) => Some(j + 1)
  }

  // `position(|&s| s.id == None && s.size >= seg.size)`.
  function FirstFit(segs: seq<Segment>, size: nat): (r: Option<nat>)
    ensures r.Some? ==> r.value < |segs| && Fits(segs[r.value], size)
    ensures r.Some? ==> forall j :: 0 <= j < r.value ==> !Fits(segs[j], size)
    ensures r == None ==> forall j :: 0 <= j < |segs| ==> !Fits(segs[j], size)
  {
    if segs == [] then None
    else if Fits(segs[0], size) then Some(0)
    else
      match FirstFit(segs[1..], size)
      case None => None
      case Some(j) => Some(j + 1)
  }

  // `Vec::remove` and `Vec::insert`.
  function Remove(s: seq<Segment>, i: nat): (r: seq<Segment>)
    requires i < |s|
    ensures |r| == |s| - 1
  {
    s[..i] + s[i + 1..]
  }

  function Insert(s: seq<Segment>, i: nat, x: Segment): (r: seq<Segment>)
    requires i <= |s|
    ensures |r| == |s| + 1
  {
    s[..i] + [x] + s[i..]
  }

  lemma RemoveAt(s: seq<Segment>, i: nat)
    requires i < |s|
    ensures forall j :: 0 <= j < i ==> Remove(s, i)[j] == s[j]
    ensures forall j :: i <= j < |s| - 1 ==> Remove(s, i)[j] == s[j + 1]
  {
  }

  lemma InsertAt(s: seq<Segment>, i: nat, x: Segment)
    requires i <= |s|
    ensures Insert(s, i, x)[i] == x
    ensures forall j :: 0 <= j < i ==> Insert(s, i, x)[j] == s[j]
    ensures forall j :: i <= j < |s| ==> Insert(s, i, x)[j + 1] == s[j]
  {
  }

  lemma SplitAt(s: seq<Segment>, i: nat)
    requires i < |s|
    ensures s == s[..i] + [s[i]] + s[i + 1..]
    ensures forall x :: s[i := x] == s[..i] + [x] + s[i + 1..]
  {
  }

  lemma Halve(s: seq<Segment>, i: nat)
    requires i <= |s|
    ensures s[..i] + s[i..] == s
  {
  }

  lemma SplitLast(r: seq<Segment>)
    requires r != []
    ensures r == r[..|r| - 1] + [r[|r| - 1]]
  {
  }

  lemma RemoveKeeps(s: seq<Segment>, i: nat, x: Segment)
    requires i < |s|
    ensures Size(Remove(s, i)) + s[i].size == Size(s)
    ensures Copies(Remove(s, i), x) + Hit(s[i], x) == Copies(s, x)
  {
    SplitAt(s, i);
    SegSplit(s[..i], s[i], s[i + 1..], x);
    SegAppend(s[..i], s[i + 1..], x);
  }

  lemma InsertKeeps(s: seq<Segment>, i: nat, c: Segment, x: Segment)
    requires i <= |s|
    ensures Size(Insert(s, i, c)) == Size(s) + c.size
    ensures Copies(Insert(s, i, c), x) == Copies(s, x) + Hit(c, x)
  {
    Halve(s, i);
    SegSplit(s[..i], c, s[i..], x);
    SegAppend(s[..i], s[i..], x);
  }

  lemma UpdateKeeps(s: seq<Segment>, i: nat, c: Segment, x: Segment)
    requires i < |s|
    ensures Size(s[i := c]) + s[i].size == Size(s) + c.size
    ensures Copies(s[i := c], x) + Hit(s[i], x) == Copies(s, x) + Hit(c, x)
  {
    SplitAt(s, i);
    SegSplit(s[..i], s[i], s[i + 1..], x);
    SegSplit(s[..i], c, s[i + 1..], x);
  }

  // One move of the segment at index i: taken out, then written over the
  // first gap that fits if that gap lies to its left (its old place
  // becomes a gap of its size, and what the file does not fill stays a
  // gap), or put back.
  function MoveFile(segs: seq<Segment>, i: nat): seq<Segment>
    requires i < |segs|
  {
    var seg := segs[i];
    var rest := Remove(segs, i);
    var fs := FirstFit(rest, seg.size);
    if fs.Some? && fs.value < i then Place(rest, fs.value, i, seg) else Insert(rest, i, seg)
  }

  // The file written over the gap at f, a gap of its size put back at its
  // old index i, and the rest of the gap, if any, just after the file.
  function Place(rest: seq<Segment>, f: nat, i: nat, seg: Segment): seq<Segment>
    requires f < i <= |rest| && Fits(rest[f], seg.size)
  {
    var freed := Insert(rest[f := seg], i, Segment(None, seg.size));
    var left := rest[f].size - seg.size;
    if left > 0 then Insert(freed, f + 1, Segment(None, left)) else freed
  }

  lemma PlaceKeeps(rest: seq<Segment>, f: nat, i: nat, seg: Segment, x: Segment)
    requires f < i <= |rest| && Fits(rest[f], seg.size)
    ensures Size(Place(rest, f, i, seg)) == Size(rest) + seg.size
    ensures Copies(Place(rest, f, i, seg), x) == Copies(rest, x) + Hit(seg, x)
  {
    var placed := rest[f := seg];
    var gap := Segment(None, seg.size);
    var freed := Insert(placed, i, gap);
    var left := rest[f].size - seg.size;
    UpdateKeeps(rest, f, seg, x);
    InsertKeeps(placed, i, gap, x);
    assert Hit(gap, x) == 0 && Hit(rest[f], x) == 0;
    if left > 0 {
      var tail := Segment(None, left);
      InsertKeeps(freed, f + 1, tail, x);
      assert Hit(tail, x) == 0;
      assert Place(rest, f, i, seg) == Insert(freed, f + 1, tail);
    } else {
      assert Place(rest, f, i, seg) == freed;
    }
  }

  // A move keeps the disk size and the file segments.
  lemma MoveFileKeeps(segs: seq<Segment>, i: nat, x: Segment)
    requires i < |segs|
    ensures Size(MoveFile(segs, i)) == Size(segs)
    ensures Copies(MoveFile(segs, i), x) == Copies(segs, x)
  {
    var seg := segs[i];
    var rest := Remove(segs, i);
    RemoveKeeps(segs, i, x);
    var fs := FirstFit(rest, seg.size);
    if fs.Some? && fs.value < i {
      PlaceKeeps(rest, fs.value, i, seg, x);
    } else {
      InsertKeeps(rest, i, seg, x);
    }
  }

  // With no gap that fits to its left, the file stays where it is ...
  lemma MoveFileStays(segs: seq<Segment>, i: nat)
    requires i < |segs|
    requires forall f :: 0 <= f < i ==> !Fits(segs[f], segs[i].size)
    ensures MoveFile(segs, i) == segs
  {
    var rest := Remove(segs, i);
    RemoveAt(segs, i);
    var fs := FirstFit(rest, segs[i].size);
    assert Insert(rest, i, segs[i]) == segs;
  }

  // ... otherwise it goes into the first gap that fits, and nothing before
  // that gap changes.
  lemma MoveFileLeft(segs: seq<Segment>, i: nat, f: nat)
    requires i < |segs| && f < i && Fits(segs[f], segs[i].size)
    requires forall j :: 0 <= j < f ==> !Fits(segs[j], segs[i].size)
    ensures |MoveFile(segs, i)| > f && MoveFile(segs, i)[f] == segs[i]
    ensures MoveFile(segs, i)[..f] == segs[..f]
  {
    var seg := segs[i];
    var rest := Remove(segs, i);
    RemoveAt(segs, i);
    var fs := FirstFit(rest, seg.size);
    assert Fits(rest[f], seg.size);
    assert fs.Some? && fs.value <= f;
    var freed := Insert(rest[f := seg], i, Segment(None, seg.size));
    InsertAt(rest[f := seg], i, Segment(None, seg.size));
    assert freed[..f] == segs[..f];
    if rest[f].size - seg.size > 0 {
      InsertAt(freed, f + 1, Segment(None, rest[f].size - seg.size));
    }
  }

  // ---------------------------------------------------------------------
  // `coalesce`: neighbouring gaps merged, from the left

  predicate NoAdjacentFree(segs: seq<Segment>)
  {
    forall k :: 0 <= k < |segs| - 1 ==> !(segs[k].id == None && segs[k + 1].id == None)
  }

  function Coalesce(segs: seq<Segment>): (r: seq<Segment>)
    ensures |r| <= |segs| && (r == [] <==> segs == [])
    decreases |segs|
  {
    if segs == [] then []
    else
      var r := Coalesce(segs[..|segs| - 1]);
      var c := segs[|segs| - 1];
      if r != [] && r[|r| - 1].id == None && c.id == None then MergeLast(r, c) else r + [c]
  }

  // The trailing gap of r grown by the size of c.
  function MergeLast(r: seq<Segment>, c: Segment): seq<Segment>
    requires r != []
  {
    r[..|r| - 1] + [Segment(None, r[|r| - 1].size + c.size)]
  }

  // Merging keeps whether the list ends in a gap ...
  lemma {:induction false} CoalesceLast(segs: seq<Segment>)
    requires segs != []
    ensures Coalesce(segs)[|Coalesce(segs)| - 1].id == None <==> segs[|segs| - 1].id == None
  {
  }

  // ... leaves no two gaps side by side ...
  lemma {:induction false} CoalesceNoAdjacent(segs: seq<Segment>)
    ensures NoAdjacentFree(Coalesce(segs))
    decreases |segs|
  {
    if segs != [] {
      var init := segs[..|segs| - 1];
      var r := Coalesce(init);
      var c := segs[|segs| - 1];
      CoalesceNoAdjacent(init);
      if r != [] {
        CoalesceLast(init);
      }
    }
  }

  // ... and changes neither the blocks ...
  lemma {:induction false} CoalesceFlatten(segs: seq<Segment>)
    ensures Flatten(Coalesce(segs)) == Flatten(segs)
    decreases |segs|
  {
    if segs != [] {
      CoalesceFlatten(segs[..|segs| - 1]);
      CoalesceFlattenLast(segs);
    }
  }

  // The last segment adds its blocks after the merged prefix's.
  lemma CoalesceFlattenLast(segs: seq<Segment>)
    requires segs != []
    ensures var c := segs[|segs| - 1];
      Flatten(Coalesce(segs)) == Flatten(Coalesce(segs[..|segs| - 1])) + Repeat(c.id, c.size)
  {
    var r := Coalesce(segs[..|segs| - 1]);
    var c := segs[|segs| - 1];
    if r != [] && r[|r| - 1].id == None && c.id == None {
      MergeFlatten(r, c);
    } else {
      assert Coalesce(segs) == r + [c];
      AppendFlatten(r, c);
    }
  }

  // Merging a gap into a trailing gap keeps the blocks.
  lemma MergeFlatten(r: seq<Segment>, c: Segment)
    requires r != [] && r[|r| - 1].id == None && c.id == None
    ensures Flatten(MergeLast(r, c)) == Flatten(r) + Repeat(c.id, c.size)
  {
    var m := |r| - 1;
    var x := Segment(None, r[m].size + c.size);
    SplitLast(r);
    AppendFlatten(r[..m], r[m]);
    AppendFlatten(r[..m], x);
    RepeatAppend(r[m].size, c.size);
  }

  lemma AppendFlatten(r: seq<Segment>, c: Segment)
    ensures Flatten(r + [c]) == Flatten(r) + Repeat(c.id, c.size)
  {
    assert (r + [c])[..|r|] == r;
  }

  lemma {:induction false} RepeatAppend(m: nat, n: nat)
    ensures Repeat(None, m + n) == Repeat(None, m) + Repeat(None, n)
    decreases n
  {
    if n > 0 {
      RepeatAppend(m, n - 1);
    }
  }

  // ... nor the size and the file segments.
  lemma {:induction false} CoalesceKeeps(segs: seq<Segment>, x: Segment)
    ensures Size(Coalesce(segs)) == Size(segs) && Copies(Coalesce(segs), x) == Copies(segs, x)
    decreases |segs|
  {
    if segs != [] {
      var init := segs[..|segs| - 1];
      var r := Coalesce(init);
      var c := segs[|segs| - 1];
      CoalesceKeeps(init, x);
      if r != [] && r[|r| - 1].id == None && c.id == None {
        MergeKeeps(r, c, x);
      } else {
        AppendKeeps(r, c, x);
      }
    }
  }

  lemma MergeKeeps(r: seq<Segment>, c: Segment, x: Segment)
    requires r != [] && r[|r| - 1].id == None && c.id == None
    ensures Size(MergeLast(r, c)) == Size(r) + c.size && Copies(MergeLast(r, c), x) == Copies(r, x)
  {
    var m := |r| - 1;
    SplitLast(r);
    AppendKeeps(r[..m], r[m], x);
    AppendKeeps(r[..m], Segment(None, r[m].size + c.size), x);
  }

  lemma AppendKeeps(r: seq<Segment>, c: Segment, x: Segment)
    ensures Size(r + [c]) == Size(r) + c.size
    ensures Copies(r + [c], x) == Copies(r, x) + Hit(c, x)
  {
    assert (r + [c])[..|r|] == r;
  }

  // One pass of the move loop's body, before the merge.
  method MoveSegment(segs0: seq<Segment>, segIdx: nat) returns (segs: seq<Segment>)
    requires segIdx < |segs0|
    ensures segs == MoveFile(segs0, segIdx)
  {
    var seg := segs0[segIdx];
    segs := Remove(segs0, segIdx);
    var fsIdx := FirstFit(segs, seg.size);
    if fsIdx.Some? && fsIdx.value < segIdx {
      var f := fsIdx.value;
      var fs := segs[f];
      segs := segs[f := seg];
      segs := Insert(segs, segIdx, Segment(None, seg.size));
      if fs.size - seg.size > 0 {
        segs := Insert(segs, f + 1, Segment(None, fs.size - seg.size));
      }
    } else {
      segs := Insert(segs, segIdx, seg);
    }
  }

  // The move loop as a value: the file with this id, if still present, is
  // moved (MoveFile) and the gaps merged (Coalesce); then the next lower id,
  // down to 0. A missing id ends the loop. The loop keeps the disk size and
  // every file's segments, and keeps gaps apart. The lookup (Turn) and the
  // move (Moved) are functions of their own, so that unfolding MovedFrom once
  // does not yet expose the move.
  function MovedFrom(segs: seq<Segment>, id: nat): (r: seq<Segment>)
    ensures Size(r) == Size(segs) && SameFiles(r, segs)
    ensures NoAdjacentFree(segs) ==> NoAdjacentFree(r)
    decreases id, 2
  {
    Turn(segs, id, IndexOf(segs, id))
  }

  // The turn for this id, given where its file is, if anywhere.
  function Turn(segs: seq<Segment>, id: nat, at: Option<nat>): (r: seq<Segment>)
    requires at == IndexOf(segs, id)
    ensures Size(r) == Size(segs) && SameFiles(r, segs)
    ensures NoAdjacentFree(segs) ==> NoAdjacentFree(r)
    decreases id, 1
  {
    match at
    case None => segs
    case Some(i) => Moved(segs, i, id)
  }

  // The file at index i moved and the gaps merged, then the lower ids.
  function Moved(segs: seq<Segment>, i: nat, id: nat): (r: seq<Segment>)
    requires i < |segs|
    ensures Size(r) == Size(segs) && SameFiles(r, segs) && NoAdjacentFree(r)
    decreases id, 0
  {
    StepKeeps(segs, i);
    var s := Coalesce(MoveFile(segs, i));
    if id == 0 then s else MovedFrom(s, id - 1)
  }

  // One turn of the loop, for a file that is still present.
  lemma MovedFromStep(segs: seq<Segment>, id: nat, i: nat)
    requires IndexOf(segs, id) == Some(i)
    ensures i < |segs|
    ensures MovedFrom(segs, id) == if id == 0 then Coalesce(MoveFile(segs, i)) else MovedFrom(Coalesce(MoveFile(segs, i)), id - 1)
  {
    assert MovedFrom(segs, id) == Turn(segs, id, Some(i)) == Moved(segs, i, id);
  }

  // One move followed by the merge keeps the disk size and the file
  // segments, and leaves no two gaps side by side.
  lemma StepKeeps(segs: seq<Segment>, i: nat)
    requires i < |segs|
    ensures Size(Coalesce(MoveFile(segs, i))) == Size(segs)
    ensures SameFiles(Coalesce(MoveFile(segs, i)), segs)
    ensures NoAdjacentFree(Coalesce(MoveFile(segs, i)))
  {
    var m := MoveFile(segs, i);
    CoalesceNoAdjacent(m);
    MoveFileKeeps(segs, i, Segment(None, 0));
    CoalesceKeeps(m, Segment(None, 0));
    forall x
      ensures Copies(Coalesce(m), x) == Copies(segs, x)
    {
      MoveFileKeeps(segs, i, x);
      CoalesceKeeps(m, x);
    }
    SameCopies(Coalesce(m), segs);
  }

  // One turn of the move loop, for the file with this id found at segIdx:
  // the move, then the merge.
  method MoveAndMerge(segs0: seq<Segment>, segIdx: nat, ghost id: nat) returns (segs: seq<Segment>)
    requires IndexOf(segs0, id) == Some(segIdx)
    ensures segs == Coalesce(MoveFile(segs0, segIdx))
    ensures MovedFrom(segs0, id) == if id == 0 then segs else MovedFrom(segs, id - 1)
  {
    segs := MoveSegment(segs0, segIdx);
    segs := Coalesce(segs);
    MovedFromStep(segs0, id, segIdx);
  }

  // The whole move loop: ids from the highest down to 0, each file moved
  // once (if still present), and gaps merged after every move.
  method CompactFiles(segs0: seq<Segment>, maxId: nat) returns (segs: seq<Segment>)
    ensures segs == MovedFrom(segs0, maxId)
    ensures Size(segs) == Size(segs0) && SameFiles(segs, segs0)
    ensures NoAdjacentFree(segs0) ==> NoAdjacentFree(segs)
  {
    segs := segs0;
    var id := maxId;
    while true
      invariant MovedFrom(segs, id) == MovedFrom(segs0, maxId)
      decreases id
    {
      var idx := IndexOf(segs, id);
      if idx == None {
        assert MovedFrom(segs, id) == segs;
        break;
      }
      segs := MoveAndMerge(segs, idx.value, id);
      if id >= 1 {
        id := id - 1;
      } else {
        break;
      }
    }
  }

  // The initial segments alternate file, gap, file, ...
  lemma SegmentsAlternate(input: seq<nat>)
    ensures NoAdjacentFree(Segments(input))
  {
    var segs := Segments(input);
    forall k | 0 <= k < |segs| - 1
      ensures !(segs[k].id == None && segs[k + 1].id == None)
    {
      if k % 2 == 1 {
        assert (k + 1) % 2 == 0;
      }
    }
  }

  // ---------------------------------------------------------------------
  // Both parts

  method Solve(input: seq<nat>) returns (blocks: seq<Block>, checksum: nat, segs: seq<Segment>, checksum2: nat)
    requires Compactable(Expand(input))
    ensures |blocks| == DigitSum(input) && multiset(blocks) == multiset(Expand(input))
    ensures Compacted(blocks) && checksum == Checksum(blocks)
    ensures segs == MovedFrom(Segments(input), MaxId(input))
    ensures Size(segs) == Size(Segments(input)) && SameFiles(segs, Segments(input))
    ensures NoAdjacentFree(segs)
    ensures checksum2 == Checksum(Flatten(segs))
  {
    var expanded := ExpandBlocks(input);
    ExpandLength(input);
    blocks := CompactBlocks(expanded);
    checksum := ComputeChecksum(blocks);
    var segs0, id := BuildSegments(input);
    SegmentsAlternate(input);
    segs := CompactFiles(segs0, id);
    checksum2 := ComputeChecksum(Flatten(segs));
  }
}
