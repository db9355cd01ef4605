// src/level.rs: a maze read from text, its wall bitmap, and the compact
// `SpLevel` view that only records where the deer stands.
module Levels {
  import opened Wrappers
  import opened Vectors
  import opened Objs
  import opened Words
  import Path2

  // ---------------------------------------------------------------------
  // Sign test used instead of four comparisons

  const I32_MIN: int := -0x8000_0000
  const I32_MAX: int := 0x7fff_ffff

  predicate IsI32(n: int) { I32_MIN <= n <= I32_MAX }

  // Bitwise OR of two integers in two's complement with the sign extended
  // indefinitely; on values that fit in 32 bits it is the `|` of `i32`.
  function IntOr(a: int, b: int): int
    decreases (if a < 0 then -a else a) + (if b < 0 then -b else b)
  {
    if a == 0 then b
    else if b == 0 then a
    else if a == -1 || b == -1 then -1
    else 2 * IntOr(a / 2, b / 2) + (if a % 2 == 1 || b % 2 == 1 then 1 else 0)
  }

  // The OR of two words has its sign bit set iff one of them has.
  lemma {:induction false} IntOrSign(a: int, b: int)
    ensures IntOr(a, b) < 0 <==> a < 0 || b < 0
    decreases (if a < 0 then -a else a) + (if b < 0 then -b else b)
  {
    if a != 0 && b != 0 && a != -1 && b != -1 {
      IntOrSign(a / 2, b / 2);
    }
  }

  // `(x | y | (w - x - 1) | (h - y - 1)) >= 0` on `i32`; every operand must
  // fit in 32 bits, as the subtraction would overflow otherwise.
  predicate SignOrInBounds(v: Vector, w: int, h: int)
    requires IsI32(v.x) && IsI32(v.y) && IsI32(w - v.x - 1) && IsI32(h - v.y - 1)
  {
    IntOr(IntOr(IntOr(v.x, v.y), w - v.x - 1), h - v.y - 1) >= 0
  }

  // The sign test accepts exactly the points of the w by h rectangle.
  lemma SignOrInBoundsAgrees(v: Vector, w: int, h: int)
    requires IsI32(v.x) && IsI32(v.y) && IsI32(w - v.x - 1) && IsI32(h - v.y - 1)
    ensures SignOrInBounds(v, w, h) <==> 0 <= v.x < w && 0 <= v.y < h
  {
    IntOrSign(v.x, v.y);
    IntOrSign(IntOr(v.x, v.y), w - v.x - 1);
    IntOrSign(IntOr(IntOr(v.x, v.y), w - v.x - 1), h - v.y - 1);
  }

  // ---------------------------------------------------------------------
  // Wall bitmap: one row of three 64-bit words per maze row

  const BITMAP_WORDS: nat := 3
  const BITMAP_COLUMNS: nat := 64 * BITMAP_WORDS

  predicate RowsShape(rows: seq<seq<bv64>>)
  {
    forall y :: 0 <= y < |rows| ==> |rows[y]| == BITMAP_WORDS
  }

  // The points a bitmap of `height` rows can address without panicking.
  predicate InBitmap(height: int, v: Vector)
  {
    0 <= v.x < BITMAP_COLUMNS && 0 <= v.y < height
  }

  function BitAt(rows: seq<seq<bv64>>, v: Vector): bool
    requires RowsShape(rows) && InBitmap(|rows|, v)
  {
    BitSet(rows[v.y][v.x / 64], BitNo(v.x % 64))
  }

  function SetBitAt(rows: seq<seq<bv64>>, v: Vector): (r: seq<seq<bv64>>)
    requires RowsShape(rows) && InBitmap(|rows|, v)
    ensures RowsShape(r) && |r| == |rows|
  {
    rows[v.y := rows[v.y][v.x / 64 := WithBit(rows[v.y][v.x / 64], BitNo(v.x % 64))]]
  }

  function ClearBitAt(rows: seq<seq<bv64>>, v: Vector): (r: seq<seq<bv64>>)
    requires RowsShape(rows) && InBitmap(|rows|, v)
    ensures RowsShape(r) && |r| == |rows|
  {
    rows[v.y := rows[v.y][v.x / 64 := WithoutBit(rows[v.y][v.x / 64], BitNo(v.x % 64))]]
  }

  // A bitmap of h rows with every bit clear.
  function Cleared(h: nat): (r: seq<seq<bv64>>)
    ensures |r| == h && RowsShape(r)
  {
    seq(h, _ => [0, 0, 0])
  }

  // Two addressable points that share a word and a bit number are equal.
  lemma SameBitSamePoint(u: Vector, v: Vector)
    requires u.x >= 0 && v.x >= 0
    requires u.y == v.y && u.x / 64 == v.x / 64 && u.x % 64 == v.x % 64
    ensures u == v
  {
    assert u.x == 64 * (u.x / 64) + u.x % 64;
    assert v.x == 64 * (v.x / 64) + v.x % 64;
  }

  // Setting the bit of v sets it and leaves every other point's bit alone.
  lemma SetBitAtFacts(rows: seq<seq<bv64>>, v: Vector, u: Vector)
    requires RowsShape(rows) && InBitmap(|rows|, v) && InBitmap(|rows|, u)
    ensures BitAt(SetBitAt(rows, v), u) == (u == v || BitAt(rows, u))
  {
    var word := rows[v.y][v.x / 64];
    if u.y != v.y || u.x / 64 != v.x / 64 {
      assert SetBitAt(rows, v)[u.y][u.x / 64] == rows[u.y][u.x / 64];
    } else if u.x % 64 != v.x % 64 {
      BvInjective(u.x % 64, v.x % 64);
      SetLeavesOtherBits(word, BitNo(v.x % 64), BitNo(u.x % 64));
    } else {
      SameBitSamePoint(u, v);
      SetBitIsSet(word, BitNo(v.x % 64));
    }
  }

  // Clearing the bit of v clears it and leaves every other point's bit alone.
  lemma ClearBitAtFacts(rows: seq<seq<bv64>>, v: Vector, u: Vector)
    requires RowsShape(rows) && InBitmap(|rows|, v) && InBitmap(|rows|, u)
    ensures BitAt(ClearBitAt(rows, v), u) == (u != v && BitAt(rows, u))
  {
    var word := rows[v.y][v.x / 64];
    if u.y != v.y || u.x / 64 != v.x / 64 {
      assert ClearBitAt(rows, v)[u.y][u.x / 64] == rows[u.y][u.x / 64];
    } else if u.x % 64 != v.x % 64 {
      BvInjective(u.x % 64, v.x % 64);
      ClearLeavesOtherBits(word, BitNo(v.x % 64), BitNo(u.x % 64));
    } else {
      SameBitSamePoint(u, v);
      ClearBitIsClear(word, BitNo(v.x % 64));
    }
  }

  class LevelBitmap {
    const w: nat
    const h: nat
    var bitmap: seq<seq<bv64>>

    ghost predicate Valid()
      reads this
    {
      w < 256 && h < 256 && |bitmap| == h && RowsShape(bitmap)
    }

    // `new`: both sizes must fit in a byte; every bit starts clear.
    constructor (w: nat, h: nat)
      requires w < 256 && h < 256
      ensures Valid() && this.w == w && this.h == h && bitmap == Cleared(h)
      ensures forall v :: InBitmap(h, v) ==> !GetV(v)
    {
      this.w := w;
      this.h := h;
      bitmap := Cleared(h);
      new;
      forall v | InBitmap(h, v)
        ensures !GetV(v)
      {
        ZeroWord(BitNo(v.x % 64));
      }
    }

    constructor FromRows(w: nat, h: nat, bitmap: seq<seq<bv64>>)
      requires w < 256 && h < 256 && |bitmap| == h && RowsShape(bitmap)
      ensures Valid() && this.w == w && this.h == h && this.bitmap == bitmap
    {
      this.w := w;
      this.h := h;
      this.bitmap := bitmap;
    }

    // `clone`: an independent bitmap with the same bits.
    method Clone() returns (c: LevelBitmap)
      requires Valid()
      ensures fresh(c) && c.Valid() && c.w == w && c.h == h && c.bitmap == bitmap
    {
      c := new LevelBitmap.FromRows(w, h, bitmap);
    }

    // Panics for a negative coordinate, a column past 191 or a row past h.
    function GetV(v: Vector): bool
      reads this
      requires Valid() && InBitmap(h, v)
    {
      BitAt(bitmap, v)
    }

    method SetV(v: Vector)
      requires Valid() && InBitmap(h, v)
      modifies this
      ensures Valid() && bitmap == SetBitAt(old(bitmap), v)
      ensures GetV(v)
      ensures forall u :: InBitmap(h, u) && u != v ==> GetV(u) == old(GetV(u))
    {
      ghost var before := bitmap;
      bitmap := SetBitAt(bitmap, v);
      forall u | InBitmap(h, u)
        ensures GetV(u) == (u == v || BitAt(before, u))
      {
        SetBitAtFacts(before, v, u);
      }
    }

    method ClearV(v: Vector)
      requires Valid() && InBitmap(h, v)
      modifies this
      ensures Valid() && bitmap == ClearBitAt(old(bitmap), v)
      ensures !GetV(v)
      ensures forall u :: InBitmap(h, u) && u != v ==> GetV(u) == old(GetV(u))
    {
      ghost var before := bitmap;
      bitmap := ClearBitAt(bitmap, v);
      forall u | InBitmap(h, u)
        ensures GetV(u) == (u != v && BitAt(before, u))
      {
        ClearBitAtFacts(before, v, u);
      }
    }
  }

  // ---------------------------------------------------------------------
  // Reading a level from text

  const DUPLICATE_START: string := "More than one start found!"
  const DUPLICATE_END: string := "More than one end found!"
  const MISSING_START_OR_END: string := "Start and/or end not found in level!"
  const TOO_SMALL: string := "Width and Height must be at least 3!"

  predicate IsLevelChar(c: char) { c == 'S' || c == 'E' || IsObjChar(c) }

  // The object a level character stands for: the start and end marks lie on
  // open floor.
  function CellObj(c: char): (o: Obj)
    requires IsLevelChar(c)
    ensures o == Wall <==> c == '#'
  {
    if c == 'S' || c == 'E' then Space else FromChar(c)
  }

  // `CellObj` extended to every character, for stating what a scan has read.
  ghost function CellOf(c: char): Obj
  {
    if IsLevelChar(c) then CellObj(c) else Space
  }

  predicate LevelLine(s: string)
  {
    forall x :: 0 <= x < |s| ==> IsLevelChar(s[x])
  }

  // `from_str` reads the rows before h and the first i characters of row h
  // without panicking: every row it reaches is as long as the first (a row
  // of another width panics), every character it reads is a level character
  // (any other panics), and the width and row count fit in `u16`.
  predicate ReadableTo(lines: seq<string>, h: nat, i: nat)
  {
    h <= |lines| && h < 0x1_0000
    && (|lines| > 0 ==> |lines[0]| < 0x1_0000)
    && (forall y :: 0 <= y < h ==> |lines[y]| == |lines[0]| && LevelLine(lines[y]))
    && (h < |lines| ==> |lines[h]| == |lines[0]| && i <= |lines[h]| && forall x :: 0 <= x < i ==> IsLevelChar(lines[h][x]))
    && (h == |lines| ==> i == 0)
  }

  // The whole text reads without panicking.
  predicate WellFormedLines(lines: seq<string>)
  {
    ReadableTo(lines, |lines|, 0)
  }

  // Text readable up to a place is readable up to any earlier place.
  lemma ReadableEarlier(lines: seq<string>, h: nat, i: nat, h': nat, i': nat)
    requires ReadableTo(lines, h, i)
    requires (h' < h && i' <= |lines[h']|) || (h' == h && i' <= i)
    ensures ReadableTo(lines, h', i')
  {
    if h' < h {
      assert LevelLine(lines[h']);
    }
  }

  function Width(lines: seq<string>): nat
  {
    if |lines| == 0 then 0 else |lines[0]|
  }

  // The lines run together in reading order.
  function Flat(lines: seq<string>): string
  {
    if lines == [] then [] else Flat(lines[..|lines| - 1]) + lines[|lines| - 1]
  }

  // Where row h starts in the flat text: the lengths of the rows before it.
  function RowStart(lines: seq<string>, h: nat): nat
    requires h <= |lines|
  {
    if h == 0 then 0 else RowStart(lines, h - 1) + |lines[h - 1]|
  }

  lemma {:induction false} RowStartPrefix(lines: seq<string>, n: nat, h: nat)
    requires h <= n <= |lines|
    ensures RowStart(lines[..n], h) == RowStart(lines, h)
  {
    if h > 0 {
      RowStartPrefix(lines, n, h - 1);
    }
  }

  lemma {:induction false} FlatLength(lines: seq<string>)
    ensures |Flat(lines)| == RowStart(lines, |lines|)
  {
    if lines != [] {
      var init := lines[..|lines| - 1];
      FlatLength(init);
      RowStartPrefix(lines, |init|, |init|);
    }
  }

  // Character i of row h sits at the row's start plus i in the flat text.
  lemma {:induction false} FlatAt(lines: seq<string>, h: nat, i: nat)
    requires h < |lines| && i < |lines[h]|
    ensures RowStart(lines, h) + i < |Flat(lines)| && Flat(lines)[RowStart(lines, h) + i] == lines[h][i]
  {
    var init := lines[..|lines| - 1];
    FlatLength(init);
    RowStartPrefix(lines, |init|, h);
    if h < |init| {
      FlatAt(init, h, i);
    } else {
      RowStartPrefix(lines, |init|, |init|);
    }
  }

  // When the rows before h all have width w, row h starts at w * h.
  lemma {:induction false} RowStartRect(lines: seq<string>, w: nat, h: nat)
    requires h <= |lines| && forall r :: 0 <= r < h ==> |lines[r]| == w
    ensures RowStart(lines, h) == w * h
  {
    if h > 0 {
      RowStartRect(lines, w, h - 1);
      assert w * h == w * (h - 1) + w;
    }
  }

  // Occurrences of c among the first k characters of s.
  function CountTo(s: string, k: nat, c: char): nat
    requires k <= |s|
  {
    if k == 0 then 0 else CountTo(s, k - 1, c) + (if s[k - 1] == c then 1 else 0)
  }

  function Count(s: string, c: char): nat
  {
    CountTo(s, |s|, c)
  }

  lemma {:induction false} CountMono(s: string, i: nat, j: nat, c: char)
    requires i <= j <= |s|
    ensures CountTo(s, i, c) <= CountTo(s, j, c)
    decreases j - i
  {
    if i < j {
      CountMono(s, i, j - 1, c);
    }
  }

  // Position k of the text repeats mark a while b has not yet repeated: the
  // first repeated mark is an a at k.
  ghost predicate RepeatAt(f: string, k: int, a: char, b: char)
  {
    0 <= k < |f| && f[k] == a && CountTo(f, k, a) == 1 && CountTo(f, k, b) <= 1
  }

  // Position k of the text holds the first repeated start or end mark.
  ghost predicate RepeatMark(f: string, k: int)
  {
    RepeatAt(f, k, 'S', 'E') || RepeatAt(f, k, 'E', 'S')
  }

  // `from_str` gets to the end of the text, or to a first repeated mark,
  // which it reports before it looks at anything after it.
  ghost predicate Parsable(lines: seq<string>)
  {
    WellFormedLines(lines)
    || exists h: nat, i: nat :: 0 < i && ReadableTo(lines, h, i) && RepeatMark(Flat(lines), RowStart(lines, h) + i - 1)
  }

  // A repeat of a at p rules out an earlier or later first repeat of b.
  lemma FirstRepeatUnique(f: string, p: nat, a: char, b: char)
    requires a != b && RepeatAt(f, p, a, b)
    ensures forall k :: !RepeatAt(f, k, b, a)
    ensures Count(f, a) >= 2
  {
    CountMono(f, p + 1, |f|, a);
    forall k | 0 <= k < |f| && f[k] == b && CountTo(f, k, b) == 1
      ensures CountTo(f, k, a) > 1
    {
      if k < p {
        CountMono(f, k + 1, p, b);
      } else {
        CountMono(f, p + 1, k, a);
      }
    }
  }

  // With at most one a in the text, a never repeats.
  lemma NoRepeat(f: string, a: char, b: char)
    requires Count(f, a) <= 1
    ensures forall k :: !RepeatAt(f, k, a, b)
  {
    forall k | 0 <= k < |f| && f[k] == a && CountTo(f, k, a) == 1
      ensures false
    {
      CountMono(f, k + 1, |f|, a);
    }
  }

  // Cell (x, y) of the lines holds mark c.
  ghost predicate MarkAt(lines: seq<string>, v: Vector, c: char)
  {
    0 <= v.y < |lines| && 0 <= v.x < |lines[v.y]| && lines[v.y][v.x] == c
  }

  // The state of `from_str` after the first p characters in reading order:
  // the objects read so far and the marks found, each at most once.
  ghost predicate Scanned(lines: seq<string>, p: nat, data: seq<Obj>, startPos: Option<Vector>, endPos: Option<Vector>)
  {
    var f := Flat(lines);
    p <= |f| && |data| == p
    && (forall j :: 0 <= j < p ==> data[j] == CellOf(f[j]))
    && CountTo(f, p, 'S') <= 1 && CountTo(f, p, 'E') <= 1
    && (startPos.Some? <==> CountTo(f, p, 'S') == 1)
    && (endPos.Some? <==> CountTo(f, p, 'E') == 1)
    && (startPos.Some? ==> MarkAt(lines, startPos.value, 'S'))
    && (endPos.Some? ==> MarkAt(lines, endPos.value, 'E'))
  }

  // Error e is the one the scan reports: the first repeated mark.
  ghost predicate ScanError(lines: seq<string>, e: string)
  {
    var f := Flat(lines);
    (e == DUPLICATE_START || e == DUPLICATE_END)
    && (e == DUPLICATE_START <==> exists k :: RepeatAt(f, k, 'S', 'E'))
    && (e == DUPLICATE_END <==> exists k :: RepeatAt(f, k, 'E', 'S'))
    && (Count(f, 'S') >= 2 || Count(f, 'E') >= 2)
  }

  // Reading a character that is not a repeated mark extends the scan by
  // its object and, for a mark, records where it stands.
  lemma ScanAppend(lines: seq<string>, h: nat, i: nat, p: nat,
                   data: seq<Obj>, startPos: Option<Vector>, endPos: Option<Vector>)
    requires ReadableTo(lines, h, i + 1) && h < |lines| && p == RowStart(lines, h) + i
    requires Scanned(lines, p, data, startPos, endPos)
    requires lines[h][i] == 'S' ==> startPos.None?
    requires lines[h][i] == 'E' ==> endPos.None?
    ensures Scanned(lines, p + 1, data + [CellObj(lines[h][i])],
                    if lines[h][i] == 'S' then Some(Vector(i, h)) else startPos,
                    if lines[h][i] == 'E' then Some(Vector(i, h)) else endPos)
  {
    var f, c := Flat(lines), lines[h][i];
    FlatAt(lines, h, i);
    assert f[p] == c;
    assert IsLevelChar(c);
    var data' := data + [CellObj(c)];
    forall j | 0 <= j < p + 1
      ensures data'[j] == CellOf(f[j])
    {
      if j < p {
        assert data'[j] == data[j];
      }
    }
    assert CountTo(f, p + 1, 'S') == CountTo(f, p, 'S') + (if c == 'S' then 1 else 0);
    assert CountTo(f, p + 1, 'E') == CountTo(f, p, 'E') + (if c == 'E' then 1 else 0);
  }

  // Reading a mark that was already found is the first repeat.
  lemma ScanRepeat(lines: seq<string>, h: nat, i: nat, p: nat,
                   data: seq<Obj>, startPos: Option<Vector>, endPos: Option<Vector>)
    requires ReadableTo(lines, h, i + 1) && h < |lines| && p == RowStart(lines, h) + i
    requires Scanned(lines, p, data, startPos, endPos)
    requires (lines[h][i] == 'S' && startPos.Some?) || (lines[h][i] == 'E' && endPos.Some?)
    ensures ScanError(lines, if lines[h][i] == 'S' then DUPLICATE_START else DUPLICATE_END)
  {
    var f := Flat(lines);
    assert f[p] == lines[h][i] by {
      FlatAt(lines, h, i);
    }
    if lines[h][i] == 'S' {
      assert RepeatAt(f, p, 'S', 'E');
      RepeatIsError(lines, p, 'S', 'E', DUPLICATE_START);
    } else {
      assert RepeatAt(f, p, 'E', 'S');
      RepeatIsError(lines, p, 'E', 'S', DUPLICATE_END);
    }
  }

  // The first repeated mark names the error.
  lemma RepeatIsError(lines: seq<string>, p: nat, a: char, b: char, e: string)
    requires (a, b, e) == ('S', 'E', DUPLICATE_START) || (a, b, e) == ('E', 'S', DUPLICATE_END)
    requires RepeatAt(Flat(lines), p, a, b)
    ensures ScanError(lines, e)
  {
    assert DUPLICATE_START[14] != DUPLICATE_END[14];
    FirstRepeatUnique(Flat(lines), p, a, b);
  }

  // What `from_str` holds after reading a prefix of the text.
  datatype ScanState = ScanState(data: seq<Obj>, startPos: Option<Vector>, endPos: Option<Vector>)

  // Reading character c at column i of row h: a second start or end mark is
  // an error, anything else appends its object and records a mark.
  function ScanStep(st: ScanState, c: char, i: nat, h: nat): Result<ScanState, string>
    requires IsLevelChar(c)
  {
    if c == 'S' && st.startPos.Some? then Err(DUPLICATE_START)
    else if c == 'E' && st.endPos.Some? then Err(DUPLICATE_END)
    else Ok(ScanState(st.data + [CellObj(c)],
                      if c == 'S' then Some(Vector(i, h)) else st.startPos,
                      if c == 'E' then Some(Vector(i, h)) else st.endPos))
  }

  // The scan after the rows before h and the first i characters of row h.
  function ScanTo(lines: seq<string>, h: nat, i: nat): Result<ScanState, string>
    requires ReadableTo(lines, h, i)
    decreases h, i
  {
    if i == 0 then
      if h == 0 then Ok(ScanState([], None, None)) else ScanTo(lines, h - 1, Width(lines))
    else
      match ScanTo(lines, h, i - 1)
      case Err(e) => Err(e)
      case Ok(st) => ScanStep(st, lines[h][i - 1], i - 1, h)
  }

  // A scan result after p characters: a state as `Scanned` describes, or
  // the first repeated mark.
  ghost predicate ScanSound(lines: seq<string>, p: nat, r: Result<ScanState, string>)
  {
    (r.Ok? ==> Scanned(lines, p, r.value.data, r.value.startPos, r.value.endPos))
    && (r.Err? ==> ScanError(lines, r.error))
  }

  // Every prefix of the scan is sound.
  lemma {:induction false} ScanToFacts(lines: seq<string>, h: nat, i: nat)
    requires ReadableTo(lines, h, i)
    ensures ScanSound(lines, RowStart(lines, h) + i, ScanTo(lines, h, i))
    decreases h, i
  {
    if i == 0 && h == 0 {
    } else if i == 0 {
      ScanToFacts(lines, h - 1, Width(lines));
    } else {
      ScanToFacts(lines, h, i - 1);
      ScanStepSound(lines, h, i - 1, RowStart(lines, h) + i - 1, ScanTo(lines, h, i - 1), ScanTo(lines, h, i));
    }
  }

  // One character read by `ScanStep` keeps the scan sound.
  lemma ScanStepSound(lines: seq<string>, h: nat, i: nat, p: nat, prev: Result<ScanState, string>,
                      next: Result<ScanState, string>)
    requires ReadableTo(lines, h, i + 1) && h < |lines| && p == RowStart(lines, h) + i
    requires ScanSound(lines, p, prev)
    requires next == match prev case Err(e) => Err(e) case Ok(st) => ScanStep(st, lines[h][i], i, h)
    ensures ScanSound(lines, p + 1, next)
  {
    if prev.Ok? {
      var st := prev.value;
      var c := lines[h][i];
      if (c == 'S' && st.startPos.Some?) || (c == 'E' && st.endPos.Some?) {
        ScanRepeat(lines, h, i, p, st.data, st.startPos, st.endPos);
      } else {
        ScanAppend(lines, h, i, p, st.data, st.startPos, st.endPos);
      }
    }
  }

  // A character the scan reads without error is not a repeated mark.
  lemma ReadNoRepeat(lines: seq<string>, h: nat, i: nat, st: ScanState)
    requires h < |lines| && i < |lines[h]| && IsLevelChar(lines[h][i])
    requires Scanned(lines, RowStart(lines, h) + i, st.data, st.startPos, st.endPos)
    requires ScanStep(st, lines[h][i], i, h).Ok?
    ensures !RepeatMark(Flat(lines), RowStart(lines, h) + i)
  {
    FlatAt(lines, h, i);
  }

  // A scan that gets through the whole text has read every cell and found
  // each mark at most once.
  lemma ScanComplete(lines: seq<string>, data: seq<Obj>, startPos: Option<Vector>, endPos: Option<Vector>)
    requires WellFormedLines(lines) && ScanTo(lines, |lines|, 0) == Ok(ScanState(data, startPos, endPos))
    ensures |data| == Width(lines) * |lines|
    ensures Scanned(lines, |Flat(lines)|, data, startPos, endPos)
    ensures forall k :: !RepeatAt(Flat(lines), k, 'S', 'E') && !RepeatAt(Flat(lines), k, 'E', 'S')
    ensures Count(Flat(lines), 'S') == (if startPos.Some? then 1 else 0)
    ensures Count(Flat(lines), 'E') == (if endPos.Some? then 1 else 0)
  {
    ScanToFacts(lines, |lines|, 0);
    FlatLength(lines);
    RowStartRect(lines, Width(lines), |lines|);
    NoRepeat(Flat(lines), 'S', 'E');
    NoRepeat(Flat(lines), 'E', 'S');
  }

  // Once every line is read, the object of cell (x, y) sits at x + y * w.
  lemma ScannedCell(lines: seq<string>, data: seq<Obj>, startPos: Option<Vector>, endPos: Option<Vector>, v: Vector)
    requires WellFormedLines(lines) && Scanned(lines, |Flat(lines)|, data, startPos, endPos)
    requires 0 <= v.x < Width(lines) && 0 <= v.y < |lines|
    ensures v.x + v.y * Width(lines) < |data| && data[v.x + v.y * Width(lines)] == CellObj(lines[v.y][v.x])
  {
    var w := Width(lines);
    FlatAt(lines, v.y, v.x);
    RowStartRect(lines, w, v.y);
    assert RowStart(lines, v.y) + v.x == v.x + v.y * w;
  }

  // ---------------------------------------------------------------------
  // Paths laid out from a start point

  // Where a walk of `path` from `start` ends.
  function Walk(start: Vector, path: seq<Path2.Move2>): Vector
  {
    if path == [] then start
    else Path2.ApplyDir(Walk(start, path[..|path| - 1]), path[|path| - 1])
  }

  // The point reached after each prefix of the path, the start included.
  function PathPoints(start: Vector, path: seq<Path2.Move2>): seq<Vector>
  {
    seq(|path| + 1, i requires 0 <= i <= |path| => Walk(start, path[..i]))
  }

  lemma PathPointsFacts(start: Vector, path: seq<Path2.Move2>)
    ensures |PathPoints(start, path)| == |path| + 1
    ensures PathPoints(start, path)[0] == start
    ensures PathPoints(start, path)[|path|] == Walk(start, path)
    ensures forall i :: 0 <= i < |path| ==>
      PathPoints(start, path)[i + 1] == Path2.ApplyDir(PathPoints(start, path)[i], path[i])
  {
    assert path[..|path|] == path;
    forall i | 0 <= i < |path|
      ensures Walk(start, path[..i + 1]) == Path2.ApplyDir(Walk(start, path[..i]), path[i])
    {
      assert path[..i + 1][..i] == path[..i];
    }
  }

  lemma PathPointsSnoc(start: Vector, path: seq<Path2.Move2>, m: Path2.Move2)
    ensures PathPoints(start, path + [m]) == PathPoints(start, path) + [Walk(start, path + [m])]
  {
    var p := path + [m];
    assert p[..|p|] == p;
    forall i | 0 <= i <= |path|
      ensures p[..i] == path[..i]
    {
    }
  }

  // Row-major order: by row, then by column.
  predicate RowMajorBefore(a: Vector, b: Vector)
  {
    a.y < b.y || (a.y == b.y && a.x < b.x)
  }

  // ---------------------------------------------------------------------
  // The level

  class Level {
    const w: nat
    const h: nat
    var deerPos: Vector
    var deerDir: Path2.Move2
    var endPos: Vector
    var startPos: Vector
    var data: seq<Obj>
    var wallPts: seq<Vector>
    var wallBmp: LevelBitmap

    ghost predicate Valid()
      reads this, wallBmp
    {
      |data| == w * h && wallBmp.Valid() && wallBmp.w == w && wallBmp.h == h
    }

    constructor (w: nat, h: nat, deerPos: Vector, deerDir: Path2.Move2, startPos: Vector, endPos: Vector,
                 data: seq<Obj>, wallBmp: LevelBitmap)
      requires |data| == w * h && wallBmp.Valid() && wallBmp.w == w && wallBmp.h == h
      ensures Valid() && this.w == w && this.h == h && this.wallBmp == wallBmp && this.wallPts == []
      ensures this.deerPos == deerPos && this.deerDir == deerDir && this.startPos == startPos
      ensures this.endPos == endPos && this.data == data
    {
      this.w := w;
      this.h := h;
      this.deerPos := deerPos;
      this.deerDir := deerDir;
      this.startPos := startPos;
      this.endPos := endPos;
      this.data := data;
      this.wallPts := [];
      this.wallBmp := wallBmp;
    }

    // `vector_in_bounds_orig`: four comparisons.
    predicate VectorInBoundsOrig(v: Vector)
      reads this
    {
      v.x >= 0 && v.x < w && v.y >= 0 && v.y < h
    }

    // `vector_in_bounds`: the sign-bit test, which the subtractions restrict
    // to points whose coordinates fit in `i32`.
    function VectorInBounds(v: Vector): (r: bool)
      reads this
      requires IsI32(v.x) && IsI32(v.y) && IsI32(w - v.x - 1) && IsI32(h - v.y - 1)
      ensures r == VectorInBoundsOrig(v)
    {
      SignOrInBoundsAgrees(v, w, h);
      SignOrInBounds(v, w, h)
    }

    // Indexes the cells row by row without checking the column, so a point
    // left or right of the level reads a cell of a neighbouring row.
    function GetObjAtPt(pt: Vector): Obj
      reads this, wallBmp
      requires Valid() && pt.x >= 0 && pt.y >= 0 && pt.x + pt.y * w < |data|
    {
      data[pt.x + pt.y * w]
    }

    // Inside the level a point's cell index is in range.
    lemma InBoundsIndex(pt: Vector)
      requires Valid() && VectorInBoundsOrig(pt)
      ensures pt.x + pt.y * w < |data|
    {
      ToIndexInGrid(pt, pt, w, h);
    }

    // Points outside the level read as wall.
    function GetObjAtPtChecked(pt: Vector): (r: Obj)
      reads this, wallBmp
      requires Valid()
      ensures !VectorInBoundsOrig(pt) ==> r == Wall
      ensures VectorInBoundsOrig(pt) ==> pt.x + pt.y * w < |data| && r == GetObjAtPt(pt)
    {
      if pt.x < 0 || pt.x >= w || pt.y < 0 || pt.y >= h then Wall
      else InBoundsIndex(pt); data[pt.x + pt.y * w]
    }

    // Clamps x and then y into the level: a point inside is kept, and for a
    // level at least one cell wide and high the result is the point of the
    // level nearest to v, at least as near as v to any point of the level.
    function ForceVectorInBounds(v: Vector): (r: Vector)
      reads this
      ensures VectorInBoundsOrig(v) ==> r == v
      ensures w >= 1 && h >= 1 ==> VectorInBoundsOrig(r)
      ensures forall u :: VectorInBoundsOrig(u) ==> Distance(r, u) <= Distance(v, u)
    {
      var x := if v.x < 0 then 0 else v.x;
      var x := if x >= w then w - 1 else x;
      var y := if v.y < 0 then 0 else v.y;
      var y := if y >= h then h - 1 else y;
      Vector(x, y)
    }

    // The cell at a point of the level.
    function ObjAt(v: Vector): Obj
      reads this, wallBmp
      requires Valid() && VectorInBoundsOrig(v)
    {
      InBoundsIndex(v);
      GetObjAtPt(v)
    }

    // v is a wall cell of the level.
    predicate WallAt(v: Vector)
      reads this, wallBmp
      requires Valid()
    {
      VectorInBoundsOrig(v) && ObjAt(v) == Wall
    }

    // The bitmap has a bit for every wall of the level, and for nothing else.
    ghost predicate WallsMatch()
      reads this, wallBmp
      requires Valid()
    {
      forall v :: InBitmap(h, v) ==>
        (wallBmp.GetV(v) <==> WallAt(v))
    }

    // `wall_pts` lists the walls in row-major order.
    ghost predicate WallPtsMatch()
      reads this, wallBmp
      requires Valid()
    {
      (forall i :: 0 <= i < |wallPts| ==>
         WallAt(wallPts[i]))
      && (forall v :: WallAt(v) ==> v in wallPts)
      && (forall i, j :: 0 <= i < j < |wallPts| ==> RowMajorBefore(wallPts[i], wallPts[j]))
    }

    // Every wall of the level lies in the columns the bitmap can hold.
    ghost predicate WallsFitBitmap()
      reads this, wallBmp
      requires Valid()
    {
      forall v :: WallAt(v) ==> v.x < BITMAP_COLUMNS
    }

    // Reads the bitmap, so it panics outside the addressable points; while
    // the bitmap matches the level it says whether v is open floor.
    function HasSpaceAt(v: Vector): (r: bool)
      reads this, wallBmp
      requires Valid() && InBitmap(h, v)
      ensures WallsMatch() ==> (r <==> !(WallAt(v)))
    {
      !wallBmp.GetV(v)
    }

    function InWallPts(v: Vector): (r: bool)
      reads this, wallBmp
      requires Valid()
      ensures WallPtsMatch() ==> (r <==> WallAt(v))
    {
      v in wallPts
    }

    predicate HaveWinCondition()
      reads this
    {
      deerPos == endPos
    }

    // `from_str`: one row per line. A repeated start or end mark is reported
    // as soon as it is read, whatever follows it; then a missing mark; then
    // a level narrower or lower than 3. On success the deer stands on the
    // start facing right, the marks lie on open floor and the wall list and
    // bitmap are built.
    static method FromStr(lines: seq<string>) returns (r: Result<Level, string>)
      requires Parsable(lines)
      requires Count(Flat(lines), 'S') == 1 && Count(Flat(lines), 'E') == 1 && Width(lines) >= 3 && |lines| >= 3 ==>
        Width(lines) < 256 && |lines| < 256
        && forall y, x :: 0 <= y < |lines| && 0 <= x < |lines[y]| && lines[y][x] == '#' ==> x < BITMAP_COLUMNS
      ensures r == Err(DUPLICATE_START) <==> exists k :: RepeatAt(Flat(lines), k, 'S', 'E')
      ensures r == Err(DUPLICATE_END) <==> exists k :: RepeatAt(Flat(lines), k, 'E', 'S')
      ensures r == Err(MISSING_START_OR_END) <==>
        Count(Flat(lines), 'S') <= 1 && Count(Flat(lines), 'E') <= 1
        && (Count(Flat(lines), 'S') == 0 || Count(Flat(lines), 'E') == 0)
      ensures r == Err(TOO_SMALL) <==>
        Count(Flat(lines), 'S') == 1 && Count(Flat(lines), 'E') == 1 && (Width(lines) < 3 || |lines| < 3)
      ensures r.Ok? <==>
        Count(Flat(lines), 'S') == 1 && Count(Flat(lines), 'E') == 1 && Width(lines) >= 3 && |lines| >= 3
      ensures r.Ok? ==> WellFormedLines(lines)
      ensures r.Ok? ==> fresh(r.value) && fresh(r.value.wallBmp) && r.value.Valid()
      ensures r.Ok? ==> r.value.w == Width(lines) && r.value.h == |lines|
      ensures r.Ok? ==> forall v :: r.value.VectorInBoundsOrig(v) ==> r.value.ObjAt(v) == CellObj(lines[v.y][v.x])
      ensures r.Ok? ==> MarkAt(lines, r.value.startPos, 'S') && MarkAt(lines, r.value.endPos, 'E')
      ensures r.Ok? ==> r.value.deerPos == r.value.startPos && r.value.deerDir == Path2.Right
      ensures r.Ok? ==> r.value.WallsMatch() && r.value.WallPtsMatch()
    {
      var w, h, data, startPos, endPos, err := ScanLines(lines);
      if err.Some? {
        return Err(err.value);
      }
      if startPos.None? || endPos.None? {
        return Err(MISSING_START_OR_END);
      }
      if w < 3 || h < 3 {
        return Err(TOO_SMALL);
      }
      var bmp := new LevelBitmap(w, h);
      var level := new Level(w, h, startPos.value, Path2.Right, startPos.value, endPos.value, data, bmp);
      forall v | level.VectorInBoundsOrig(v)
        ensures level.ObjAt(v) == CellObj(lines[v.y][v.x])
      {
        ScannedCell(lines, data, startPos, endPos, v);
      }
      level.InitLevel();
      r := Ok(level);
    }

    // The loop of `from_str` over the lines and their characters; it stops
    // at the first repeated mark, and otherwise reads the whole text.
    static method ScanLines(lines: seq<string>)
      returns (w: nat, h: nat, data: seq<Obj>, startPos: Option<Vector>, endPos: Option<Vector>, err: Option<string>)
      requires Parsable(lines)
      ensures err.Some? ==> ScanError(lines, err.value)
      ensures err.None? ==> WellFormedLines(lines)
      ensures err.None? ==> w == Width(lines) && h == |lines| && |data| == w * h
      ensures err.None? ==> Scanned(lines, |Flat(lines)|, data, startPos, endPos)
      ensures err.None? ==> forall k :: !RepeatAt(Flat(lines), k, 'S', 'E') && !RepeatAt(Flat(lines), k, 'E', 'S')
      ensures err.None? ==> Count(Flat(lines), 'S') == (if startPos.Some? then 1 else 0)
      ensures err.None? ==> Count(Flat(lines), 'E') == (if endPos.Some? then 1 else 0)
    {
      ghost var W := Width(lines);
      // Where the scan is bound to stop: the end of the text, or just after
      // the first repeated mark.
      ghost var H: nat, I: nat := |lines|, 0;
      if !WellFormedLines(lines) {
        H, I :| 0 < I && ReadableTo(lines, H, I) && RepeatMark(Flat(lines), RowStart(lines, H) + I - 1);
      }
      h := 0;
      w := 0;
      data := [];
      startPos := None;
      endPos := None;
      while h < |lines|
        invariant 0 <= h <= H && ReadableTo(lines, H, I) && w == (if h == 0 then 0 else W)
        invariant H == |lines| || (0 < I && RepeatMark(Flat(lines), RowStart(lines, H) + I - 1))
        invariant ReadableTo(lines, h, 0) && ScanTo(lines, h, 0) == Ok(ScanState(data, startPos, endPos))
      {
        if h == 0 {
          w := |lines[h]|;
        }
        // Every row read is as wide as the first.
        assert |lines[h]| == w;
        ghost var stop := if h < H then |lines[h]| else I;
        ReadableEarlier(lines, H, I, h, stop);
        data, startPos, endPos, err := ScanLine(lines, h, data, startPos, endPos, stop);
        if err.Some? {
          return;
        }
        ReadableEarlier(lines, H, I, h + 1, 0);
        assert ScanTo(lines, h + 1, 0) == ScanTo(lines, h, stop);
        h := h + 1;
      }
      ScanComplete(lines, data, startPos, endPos);
      err := None;
    }

    // The characters of line h in order, as `from_str` reads them, up to the
    // end of the line; stop bounds what the line can be read to: its end, or
    // just after a first repeated mark.
    static method ScanLine(lines: seq<string>, h: nat, data0: seq<Obj>, startPos0: Option<Vector>, endPos0: Option<Vector>,
                           ghost stop: nat)
      returns (data: seq<Obj>, startPos: Option<Vector>, endPos: Option<Vector>, err: Option<string>)
      requires h < |lines| && ReadableTo(lines, h, stop)
      requires stop == |lines[h]| || (0 < stop && RepeatMark(Flat(lines), RowStart(lines, h) + stop - 1))
      requires ScanTo(lines, h, 0) == Ok(ScanState(data0, startPos0, endPos0))
      ensures err.Some? ==> ScanError(lines, err.value)
      ensures err.None? ==> stop == |lines[h]| && !(0 < stop && RepeatMark(Flat(lines), RowStart(lines, h) + stop - 1))
      ensures err.None? ==> ScanTo(lines, h, stop) == Ok(ScanState(data, startPos, endPos))
    {
      ghost var f := Flat(lines);
      ghost var repeats := 0 < stop && RepeatMark(f, RowStart(lines, h) + stop - 1);
      data, startPos, endPos, err := data0, startPos0, endPos0, None;
      var txt := lines[h];
      var i := 0;
      while i < |txt|
        invariant 0 <= i <= stop && err.None?
        invariant i < stop || (stop == |txt| && !repeats)
        invariant ScanTo(lines, h, i) == Ok(ScanState(data, startPos, endPos))
      {
        var c := txt[i];
        ReadableEarlier(lines, h, stop, h, i + 1);
        if c == 'S' && startPos.Some? {
          ScanToFacts(lines, h, i + 1);
          return data, startPos, endPos, Some(DUPLICATE_START);
        } else if c == 'E' && endPos.Some? {
          ScanToFacts(lines, h, i + 1);
          return data, startPos, endPos, Some(DUPLICATE_END);
        }
        ScanToFacts(lines, h, i);
        ReadNoRepeat(lines, h, i, ScanState(data, startPos, endPos));
        if c == 'S' {
          startPos := Some(Vector(i, h));
        } else if c == 'E' {
          endPos := Some(Vector(i, h));
        }
        // The start and end marks lie on open floor.
        data := data + [CellObj(c)];
        i := i + 1;
      }
    }

    // The points visited by following `path` from the start.
    method GetPathPts(path: seq<Path2.Move2>) returns (vecs: seq<Vector>)
      ensures vecs == PathPoints(startPos, path)
    {
      var pos := startPos;
      vecs := [pos];
      var i := 0;
      while i < |path|
        invariant 0 <= i <= |path|
        invariant pos == Walk(startPos, path[..i])
        invariant vecs == PathPoints(startPos, path[..i])
      {
        PathPointsSnoc(startPos, path[..i], path[i]);
        assert path[..i + 1] == path[..i] + [path[i]];
        pos := Path2.ApplyDir(pos, path[i]);
        vecs := vecs + [pos];
        i := i + 1;
      }
      assert path[..i] == path;
    }

    // Lists the walls and builds a fresh bitmap holding them.
    method InitLevel()
      requires Valid() && WallsFitBitmap()
      modifies this
      ensures Valid() && WallsMatch() && WallPtsMatch() && fresh(wallBmp)
      ensures data == old(data) && deerPos == old(deerPos) && deerDir == old(deerDir)
      ensures startPos == old(startPos) && endPos == old(endPos)
    {
      var pts := ListWalls();
      var bmp := WallBitmap();
      wallPts := pts;
      wallBmp := bmp;
    }

    // The second scan of `init_level`: a fresh bitmap with a bit set for
    // each wall.
    method WallBitmap() returns (bmp: LevelBitmap)
      requires Valid() && WallsFitBitmap()
      ensures fresh(bmp) && bmp.Valid() && bmp.w == w && bmp.h == h
      ensures forall v :: InBitmap(h, v) ==> (bmp.GetV(v) <==> WallAt(v))
    {
      bmp := new LevelBitmap(w, h);
      var y := 0;
      while y < h
        invariant 0 <= y <= h && bmp.Valid() && bmp.w == w && bmp.h == h && fresh(bmp)
        invariant forall v :: InBitmap(h, v) ==> (bmp.GetV(v) <==> v.y < y && WallAt(v))
      {
        var x := 0;
        while x < w
          invariant 0 <= x <= w && bmp.Valid() && bmp.w == w && bmp.h == h && fresh(bmp)
          invariant forall v :: InBitmap(h, v) ==> (bmp.GetV(v) <==> RowMajorBefore(v, Vector(x, y)) && WallAt(v))
        {
          InBoundsIndex(Vector(x, y));
          if GetObjAtPt(Vector(x, y)) == Wall {
            bmp.SetV(Vector(x, y));
          }
          x := x + 1;
        }
        y := y + 1;
      }
    }

    // The first of the two scans of `init_level`: the walls in row-major order.
    method ListWalls() returns (pts: seq<Vector>)
      requires Valid()
      ensures forall i :: 0 <= i < |pts| ==>
        WallAt(pts[i])
      ensures forall v :: WallAt(v) ==> v in pts
      ensures forall i, j :: 0 <= i < j < |pts| ==> RowMajorBefore(pts[i], pts[j])
    {
      pts := [];
      var y := 0;
      while y < h
        invariant 0 <= y <= h
        invariant forall i :: 0 <= i < |pts| ==>
          WallAt(pts[i]) && pts[i].y < y
        invariant forall v :: WallAt(v) && v.y < y ==> v in pts
        invariant forall i, j :: 0 <= i < j < |pts| ==> RowMajorBefore(pts[i], pts[j])
      {
        var x := 0;
        while x < w
          invariant 0 <= x <= w
          invariant forall i :: 0 <= i < |pts| ==>
            WallAt(pts[i]) && RowMajorBefore(pts[i], Vector(x, y))
          invariant forall v :: VectorInBoundsOrig(v) && RowMajorBefore(v, Vector(x, y)) && (InBoundsIndex(v); GetObjAtPt(v) == Wall) ==> v in pts
          invariant forall i, j :: 0 <= i < j < |pts| ==> RowMajorBefore(pts[i], pts[j])
        {
          InBoundsIndex(Vector(x, y));
          if GetObjAtPt(Vector(x, y)) == Wall {
            pts := pts + [Vector(x, y)];
          }
          x := x + 1;
        }
        y := y + 1;
      }
    }
  }

  // ---------------------------------------------------------------------
  // The compact level: a size and the deer's cell as bytes, read against a
  // shared base level

  // `as u8` on an `i32`: the low eight bits of the two's complement value.
  function AsU8(n: int): (r: nat)
    ensures r < 256 && (n - r) % 256 == 0
    ensures 0 <= n < 256 ==> r == n
  {
    n % 256
  }

  datatype CmpData = CmpData(score: nat, deerX: nat, deerY: nat)

  // `CmpData::new`.
  const EMPTY_CMP_DATA := CmpData(0, 0, 0)

  // `CmpData::from_data`: a deer inside the byte range is kept exactly.
  function CmpDataFromData(deerPos: Vector, score: nat): (c: CmpData)
    ensures c.score == score && c.deerX < 256 && c.deerY < 256
    ensures 0 <= deerPos.x < 256 && 0 <= deerPos.y < 256 ==> c.deerX == deerPos.x && c.deerY == deerPos.y
  {
    CmpData(score, AsU8(deerPos.x), AsU8(deerPos.y))
  }

  datatype SpLevel = SpLevel(w: nat, h: nat, cmpData: CmpData)
  {
    // Every field fits its byte.
    predicate Valid()
    {
      w < 256 && h < 256 && cmpData.deerX < 256 && cmpData.deerY < 256
    }

    // `from_level`: the size cut to bytes and the deer of the level.
    static function FromLevel(level: Level): (s: SpLevel)
      reads level
      ensures s.Valid() && s.cmpData.score == 0
      ensures level.w < 256 && level.h < 256 ==> s.w == level.w && s.h == level.h
      ensures 0 <= level.deerPos.x < 256 && 0 <= level.deerPos.y < 256 ==> s.GetDeerPos() == level.deerPos
    {
      SpLevel(AsU8(level.w), AsU8(level.h), CmpDataFromData(level.deerPos, 0))
    }

    function GetDeerPos(): (v: Vector)
      ensures Valid() ==> 0 <= v.x < 256 && 0 <= v.y < 256
    {
      Vector(cmpData.deerX, cmpData.deerY)
    }

    // Moves the deer without looking at the level; a point in the byte range
    // reads back unchanged and nothing else changes.
    function SetDeerPos(pt: Vector): (s: SpLevel)
      ensures s.w == w && s.h == h && s.cmpData.score == cmpData.score
      ensures Valid() ==> s.Valid()
      ensures 0 <= pt.x < 256 && 0 <= pt.y < 256 ==> s.GetDeerPos() == pt
    {
      SpLevel(w, h, CmpData(cmpData.score, AsU8(pt.x), AsU8(pt.y)))
    }

    // The base cell with the deer drawn on open floor; a base cell holding
    // a deer panics.
    function GetObjAtPt(pt: Vector, base: Level): (o: Obj)
      reads base, base.wallBmp
      requires base.Valid() && pt.x >= 0 && pt.y >= 0 && pt.x + pt.y * base.w < |base.data|
      requires base.GetObjAtPt(pt) != Deer
      ensures o == Deer <==> base.GetObjAtPt(pt) == Space && pt == GetDeerPos()
      ensures o == Wall <==> base.GetObjAtPt(pt) == Wall
    {
      match base.GetObjAtPt(pt)
      case Space => if pt == GetDeerPos() then Deer else Space
      case Wall => Wall
    }

    // The base cell, never a deer.
    function GetObjAtPtNodeer(pt: Vector, base: Level): (o: Obj)
      reads base, base.wallBmp
      requires base.Valid() && pt.x >= 0 && pt.y >= 0 && pt.x + pt.y * base.w < |base.data|
      requires base.GetObjAtPt(pt) != Deer
      ensures o != Deer && o == base.GetObjAtPt(pt)
    {
      match base.GetObjAtPt(pt)
      case Space => Space
      case Wall => Wall
    }

    // The sign test against this level's own size; a point outside reads
    // as wall.
    function GetObjAtPtChecked(pt: Vector, base: Level): (o: Obj)
      reads base, base.wallBmp
      requires base.Valid()
      requires IsI32(pt.x) && IsI32(pt.y) && IsI32(w - pt.x - 1) && IsI32(h - pt.y - 1)
      requires 0 <= pt.x < w && 0 <= pt.y < h ==>
        pt.x + pt.y * base.w < |base.data| && base.GetObjAtPt(pt) != Deer
      ensures !(0 <= pt.x < w && 0 <= pt.y < h) ==> o == Wall
      ensures 0 <= pt.x < w && 0 <= pt.y < h ==> o == GetObjAtPt(pt, base)
    {
      SignOrInBoundsAgrees(pt, w, h);
      if !SignOrInBounds(pt, w, h) then Wall else GetObjAtPt(pt, base)
    }

    function GetObjAtPtNodeerChecked(pt: Vector, base: Level): (o: Obj)
      reads base, base.wallBmp
      requires base.Valid()
      requires IsI32(pt.x) && IsI32(pt.y) && IsI32(w - pt.x - 1) && IsI32(h - pt.y - 1)
      requires 0 <= pt.x < w && 0 <= pt.y < h ==>
        pt.x + pt.y * base.w < |base.data| && base.GetObjAtPt(pt) != Deer
      ensures !(0 <= pt.x < w && 0 <= pt.y < h) ==> o == Wall
      ensures 0 <= pt.x < w && 0 <= pt.y < h ==> o == GetObjAtPtNodeer(pt, base)
    {
      SignOrInBoundsAgrees(pt, w, h);
      if !SignOrInBounds(pt, w, h) then Wall else GetObjAtPtNodeer(pt, base)
    }

    predicate HaveWinCondition(base: Level)
      reads base
    {
      base.endPos == GetDeerPos()
    }
  }
}
