// src/pathnodemap.rs: a breadth-first flood over the open cells of a level,
// each node remembering the node it was reached from and the move taken, and
// the paths read back from those links.
module PathNodeMaps {
  import opened Wrappers
  import opened Vectors
  import Moves
  import Path2
  import opened Objs
  import opened Levels

  // A cell reached by the flood: where it is, the node it was reached from
  // and the move that led here (none for the first node).
  datatype PathNode = PathNode(pt: Vector, prevNodeIdx: nat, moveTaken: Option<Path2.Move2>)

  // A push to try from node `pni`, in direction `moveDir`.
  datatype KeyMove2 = KeyMove2(pni: nat, moveDir: Path2.Move2)

  // ---------------------------------------------------------------------
  // Reading a path back from the links

  // Node 0 is its own parent and every other node's parent comes before it,
  // so following parents always ends.
  predicate Backward(nodes: seq<PathNode>)
  {
    |nodes| > 0 && nodes[0].prevNodeIdx == 0
    && forall i :: 0 < i < |nodes| ==> nodes[i].prevNodeIdx < i
  }

  function OptMoves(m: Option<Path2.Move2>): seq<Path2.Move2>
  {
    if m.Some? then [m.value] else []
  }

  // The moves that `backtrace_moves` reads back for node i, in forward
  // order: parents are followed until a node without a move, or a node whose
  // parent is node 0, whose own move (if any) then comes first.
  function Trace(nodes: seq<PathNode>, i: nat): seq<Path2.Move2>
    requires Backward(nodes) && i < |nodes|
    decreases i
  {
    var n := nodes[i];
    if n.moveTaken.None? then []
    else if n.prevNodeIdx == 0 then OptMoves(nodes[0].moveTaken) + [n.moveTaken.value]
    else Trace(nodes, n.prevNodeIdx) + [n.moveTaken.value]
  }

  // Move codes as the backtrace collects them, last move first, read back in
  // forward order.
  function Unstack(codes: seq<nat>): (p: seq<Path2.Move2>)
    requires Codes(codes)
    ensures |p| == |codes|
  {
    if codes == [] then [] else Unstack(codes[1..]) + [Path2.FromU8Unchecked(codes[0])]
  }

  // A code stacked later is a move that comes earlier.
  lemma {:induction false} UnstackSnoc(codes: seq<nat>, c: nat)
    requires Codes(codes)
    requires c < 4
    ensures Unstack(codes + [c]) == [Path2.FromU8Unchecked(c)] + Unstack(codes)
  {
    if codes != [] {
      assert (codes + [c])[1..] == codes[1..] + [c];
      UnstackSnoc(codes[1..], c);
    } else {
      assert (codes + [c])[1..] == [];
    }
  }

  // `backtrace_moves2`: collects the codes of the moves from node pni back
  // towards node 0 on a stack, then pushes them onto `spath` from the top of
  // that stack, so `spath` gains the trace of pni in forward order.
  method BacktraceMoves2(nodes: seq<PathNode>, pni: nat, spath: Path2.ShrunkPath)
    requires Backward(nodes) && pni < |nodes| && spath.Valid()
    requires spath.Len() + |Trace(nodes, pni)| <= Path2.MAX_MOVES
    modifies spath, spath.data, spath.data.stack
    ensures spath.Valid() && spath.Path() == old(spath.Path()) + Trace(nodes, pni)
  {
    var collected := CollectMoves(nodes, pni);
    ghost var start := spath.Path();
    for i := 1 to |collected| + 1
      invariant spath.Valid() && spath.count == |start| + i - 1
      invariant spath.Path() == start + Unstack(collected[|collected| - i + 1..])
    {
      var rev := |collected| - i;
      var c := collected[rev..];
      assert c[1..] == collected[|collected| - i + 1..];
      spath.Room();
      spath.PushU8(collected[rev]);
    }
    assert collected[0..] == collected;
  }

  // The first loop of the backtrace: the codes of the moves from node pni
  // back towards node 0, as they are stacked.
  method CollectMoves(nodes: seq<PathNode>, pni: nat) returns (collected: seq<nat>)
    requires Backward(nodes) && pni < |nodes|
    ensures Codes(collected) && Unstack(collected) == Trace(nodes, pni)
  {
    collected := [];
    var j: nat := pni;
    var done := false;
    while !done
      invariant j < |nodes| && Codes(collected)
      invariant !done ==> Trace(nodes, pni) == Trace(nodes, j) + Unstack(collected)
      invariant done ==> Trace(nodes, pni) == Unstack(collected)
      decreases if done then 0 else j + 1
    {
      var n := nodes[j];
      if n.moveTaken.Some? {
        CollectStep(nodes, j, collected);
        collected := collected + [Path2.Code(n.moveTaken.value)];
        if n.prevNodeIdx == 0 {
          var m := nodes[0].moveTaken;
          if m.Some? {
            CollectLast(collected, m.value);
            collected := collected + [Path2.Code(m.value)];
          }
          done := true;
        } else {
          j := n.prevNodeIdx;
        }
      } else {
        done := true;
      }
    }
  }

  predicate Codes(codes: seq<nat>)
  {
    forall k :: 0 <= k < |codes| ==> codes[k] < 4
  }

  // Collecting the move of node j moves it from the part of the trace still
  // to read to the codes already stacked.
  lemma CollectStep(nodes: seq<PathNode>, j: nat, collected: seq<nat>)
    requires Backward(nodes) && j < |nodes| && nodes[j].moveTaken.Some? && Codes(collected)
    ensures Codes(collected + [Path2.Code(nodes[j].moveTaken.value)])
    ensures Trace(nodes, j) + Unstack(collected) ==
      (if nodes[j].prevNodeIdx == 0 then OptMoves(nodes[0].moveTaken) else Trace(nodes, nodes[j].prevNodeIdx))
      + Unstack(collected + [Path2.Code(nodes[j].moveTaken.value)])
  {
    var mv := nodes[j].moveTaken.value;
    var rest := if nodes[j].prevNodeIdx == 0 then OptMoves(nodes[0].moveTaken) else Trace(nodes, nodes[j].prevNodeIdx);
    Path2.Move2Facts(mv);
    UnstackSnoc(collected, Path2.Code(mv));
    assert Trace(nodes, j) == rest + [mv];
    Regroup(rest, mv, Unstack(collected));
  }

  lemma Regroup(a: seq<Path2.Move2>, m: Path2.Move2, b: seq<Path2.Move2>)
    ensures (a + [m]) + b == a + ([m] + b)
  {
  }

  // The move of node 0, stacked last, comes first.
  lemma CollectLast(collected: seq<nat>, m: Path2.Move2)
    requires Codes(collected)
    ensures Codes(collected + [Path2.Code(m)])
    ensures OptMoves(Some(m)) + Unstack(collected) == Unstack(collected + [Path2.Code(m)])
  {
    Path2.Move2Facts(m);
    UnstackSnoc(collected, Path2.Code(m));
  }

  // ---------------------------------------------------------------------
  // The flood

  // The neighbour `add_dir` gives: the move's code decoded as written
  // (src/vector.rs:45-47) when `written`, the intended unit step otherwise.
  function Step(written: bool, v: Vector, m: Moves.Move): Vector
  {
    if written then Moves.AddDirAsWritten(v, m) else Moves.AddDir(v, m)
  }

  // v is a cell of the base level that is not a wall.
  predicate Open(base: Level, v: Vector)
    reads base, base.wallBmp
    requires base.Valid()
  {
    base.VectorInBoundsOrig(v) && base.ObjAt(v) != Wall
  }

  function Pts(nodes: seq<PathNode>): set<Vector>
  {
    set i | 0 <= i < |nodes| :: nodes[i].pt
  }

  // Node i was reached from an earlier node by its move and is open.
  ghost predicate LinkedAt(base: Level, written: bool, nodes: seq<PathNode>, i: nat)
    reads base, base.wallBmp
    requires base.Valid() && 0 < i < |nodes|
  {
    var n := nodes[i];
    n.prevNodeIdx < i && n.moveTaken.Some?
    && n.pt == Step(written, nodes[n.prevNodeIdx].pt, Path2.AsMove(n.moveTaken.value))
    && Open(base, n.pt)
  }

  // The node list grows from the start, every later node linked to an
  // earlier one.
  ghost predicate Linked(base: Level, written: bool, nodes: seq<PathNode>, start: Vector)
    reads base, base.wallBmp
    requires base.Valid()
  {
    |nodes| > 0 && nodes[0] == PathNode(start, 0, None)
    && forall i :: 0 < i < |nodes| ==> LinkedAt(base, written, nodes, i)
  }

  ghost predicate Distinct(nodes: seq<PathNode>)
  {
    forall i, j :: 0 <= i < j < |nodes| ==> nodes[i].pt != nodes[j].pt
  }

  // Every open neighbour of node i is a node.
  ghost predicate ClosedAt(base: Level, written: bool, nodes: seq<PathNode>, i: nat)
    reads base, base.wallBmp
    requires base.Valid() && i < |nodes|
  {
    forall m: Moves.Move :: Handled(base, written, nodes[i].pt, m, nodes)
  }

  // The tail of a round: the nodes from lo on, in order.
  ghost predicate IsRange(tail: seq<nat>, lo: nat, hi: nat)
  {
    lo <= hi && |tail| == hi - lo && forall k :: 0 <= k < |tail| ==> tail[k] == lo + k
  }

  lemma LinkedBackward(base: Level, written: bool, nodes: seq<PathNode>, start: Vector)
    requires base.Valid() && Linked(base, written, nodes, start)
    ensures Backward(nodes)
  {
    forall i | 0 < i < |nodes|
      ensures nodes[i].prevNodeIdx < i
    {
      assert LinkedAt(base, written, nodes, i);
    }
  }

  // A longer list keeps every point of a shorter one it extends.
  lemma ClosedGrows(base: Level, written: bool, a: seq<PathNode>, b: seq<PathNode>, i: nat)
    requires base.Valid() && i < |a| <= |b| && b[..|a|] == a && ClosedAt(base, written, a, i)
    ensures ClosedAt(base, written, b, i)
  {
    assert b[i] == a[i];
    forall m: Moves.Move
      ensures Handled(base, written, a[i].pt, m, b)
    {
      assert Handled(base, written, a[i].pt, m, a);
      if Open(base, Step(written, a[i].pt, m)) {
        var k :| 0 <= k < |a| && a[k].pt == Step(written, a[i].pt, m);
        assert b[k] == a[k];
      }
    }
  }

  // Whether some node stands at p: the scan over the nodes that skips a
  // move already taken.
  method HasPt(nodes: seq<PathNode>, p: Vector) returns (found: bool)
    ensures found <==> p in Pts(nodes)
  {
    for k := 0 to |nodes|
      invariant forall j :: 0 <= j < k ==> nodes[j].pt != p
    {
      if nodes[k].pt == p {
        return true;
      }
    }
    return false;
  }

  // Points of nodes lie in the byte range: the start by assumption, every
  // other node inside a level narrower and lower than 256.
  lemma NodesInBytes(base: Level, written: bool, nodes: seq<PathNode>, start: Vector, i: nat)
    requires base.Valid() && Linked(base, written, nodes, start) && i < |nodes|
    requires 0 <= start.x < 256 && 0 <= start.y < 256
    ensures 0 <= nodes[i].pt.x < 256 && 0 <= nodes[i].pt.y < 256
  {
    if i > 0 {
      assert LinkedAt(base, written, nodes, i);
    }
  }

  // The moves of node t: every open neighbour not yet in the list becomes a
  // new node linked to t and joins the next round's tail.
  method ExpandNode(base: Level, written: bool, start: Vector, nodes0: seq<PathNode>, tail0: seq<nat>, hi: nat, t: nat)
    returns (nodes: seq<PathNode>, tail: seq<nat>)
    requires base.Valid() && 0 <= start.x < 256 && 0 <= start.y < 256
    requires Linked(base, written, nodes0, start) && Distinct(nodes0) && t < |nodes0|
    requires IsRange(tail0, hi, |nodes0|)
    ensures Linked(base, written, nodes, start) && Distinct(nodes)
    ensures |nodes0| <= |nodes| && nodes[..|nodes0|] == nodes0
    ensures IsRange(tail, hi, |nodes|)
    ensures ClosedAt(base, written, nodes, t)
  {
    nodes, tail := nodes0, tail0;
    var pt := nodes[t].pt;
    NodesInBytes(base, written, nodes, start, t);
    for k := 0 to 4
      invariant Linked(base, written, nodes, start) && Distinct(nodes) && t < |nodes| && nodes[t].pt == pt
      invariant |nodes0| <= |nodes| && nodes[..|nodes0|] == nodes0
      invariant IsRange(tail, hi, |nodes|)
      invariant forall j :: 0 <= j < k ==> Handled(base, written, pt, Moves.ALLMOVES[j], nodes)
    {
      var m := Moves.ALLMOVES[k];
      var npt := Step(written, pt, m);
      if !base.VectorInBounds(npt) {
        continue;
      }
      base.InBoundsIndex(npt);
      if base.GetObjAtPt(npt) != Wall {
        var found := HasPt(nodes, npt);
        if !found {
          ghost var before := nodes;
          AppendNode(base, written, nodes, start, t, m);
          tail := tail + [|nodes|];
          nodes := nodes + [PathNode(npt, t, Some(Path2.AsMove2(m)))];
          assert nodes[..|nodes0|] == before[..|nodes0|];
          forall j | 0 <= j < k
            ensures Handled(base, written, pt, Moves.ALLMOVES[j], nodes)
          {
            assert Handled(base, written, pt, Moves.ALLMOVES[j], before);
          }
        }
      }
    }
    HandledAll(base, written, nodes, t);
  }

  // Move m from pt is out of the level, a wall, or leads to a node.
  ghost predicate Handled(base: Level, written: bool, pt: Vector, m: Moves.Move, nodes: seq<PathNode>)
    reads base, base.wallBmp
    requires base.Valid()
  {
    Open(base, Step(written, pt, m)) ==> Step(written, pt, m) in Pts(nodes)
  }

  lemma HandledAll(base: Level, written: bool, nodes: seq<PathNode>, t: nat)
    requires base.Valid() && t < |nodes|
    requires forall j :: 0 <= j < 4 ==> Handled(base, written, nodes[t].pt, Moves.ALLMOVES[j], nodes)
    ensures ClosedAt(base, written, nodes, t)
  {
    var pt := nodes[t].pt;
    assert Handled(base, written, pt, Moves.ALLMOVES[0], nodes);
    assert Handled(base, written, pt, Moves.ALLMOVES[1], nodes);
    assert Handled(base, written, pt, Moves.ALLMOVES[2], nodes);
    assert Handled(base, written, pt, Moves.ALLMOVES[3], nodes);
    forall m: Moves.Move
      ensures Handled(base, written, pt, m, nodes)
    {
      match m
      case Up =>
      case Right =>
      case Down =>
      case Left =>
    }
  }

  // A new node for an open neighbour of node t that is not yet a node keeps
  // the list linked and distinct.
  lemma AppendNode(base: Level, written: bool, nodes: seq<PathNode>, start: Vector, t: nat, m: Moves.Move)
    requires base.Valid() && Linked(base, written, nodes, start) && Distinct(nodes) && t < |nodes|
    requires Open(base, Step(written, nodes[t].pt, m)) && Step(written, nodes[t].pt, m) !in Pts(nodes)
    ensures var nodes' := nodes + [PathNode(Step(written, nodes[t].pt, m), t, Some(Path2.AsMove2(m)))];
      Linked(base, written, nodes', start) && Distinct(nodes') && Pts(nodes') == Pts(nodes) + {Step(written, nodes[t].pt, m)}
  {
    var npt := Step(written, nodes[t].pt, m);
    var nodes' := nodes + [PathNode(npt, t, Some(Path2.AsMove2(m)))];
    Path2.MoveFacts(m);
    Path2.Move2Facts(Path2.AsMove2(m));
    assert LinkedAt(base, written, nodes', |nodes|);
    forall i | 0 < i < |nodes|
      ensures LinkedAt(base, written, nodes', i)
    {
      assert LinkedAt(base, written, nodes, i);
    }
    forall i | 0 <= i < |nodes|
      ensures nodes'[i].pt != npt
    {
    }
    forall v
      ensures v in Pts(nodes') <==> v in Pts(nodes) || v == npt
    {
      if v in Pts(nodes') {
        var k :| 0 <= k < |nodes'| && nodes'[k].pt == v;
        if k < |nodes| {
          assert nodes[k].pt == v;
        }
      }
      if v in Pts(nodes) {
        var k :| 0 <= k < |nodes| && nodes[k].pt == v;
        assert nodes'[k].pt == v;
      }
      if v == npt {
        assert nodes'[|nodes|].pt == v;
      }
    }
    assert Pts(nodes') == Pts(nodes) + {npt};
  }

  // `complete_map_solve` and `complete_solve_2`: rounds of expanding the
  // nodes added in the round before, until a round adds none. The nodes are
  // distinct, each linked to an earlier one, every open neighbour of every
  // node is a node, and node indices fit the `u16` they are stored in.
  method Flood(base: Level, written: bool, start: Vector) returns (nodes: seq<PathNode>)
    requires base.Valid() && 0 <= start.x < 256 && 0 <= start.y < 256
    ensures Linked(base, written, nodes, start) && Distinct(nodes)
    ensures forall i :: 0 <= i < |nodes| ==> ClosedAt(base, written, nodes, i)
    ensures |nodes| <= base.w * base.h + 1 < 0x1_0000
  {
    nodes := [PathNode(start, 0, None)];
    var tail: seq<nat> := [0];
    var lo: nat := 0;
    SizeBound(base);
    while |tail| != 0
      invariant Linked(base, written, nodes, start) && Distinct(nodes)
      invariant |nodes| <= base.w * base.h + 1
      invariant IsRange(tail, lo, |nodes|)
      invariant forall i :: 0 <= i < lo ==> ClosedAt(base, written, nodes, i)
      decreases base.w * base.h + 1 - |nodes|, |tail|
    {
      var hi := |nodes|;
      var newTail: seq<nat> := [];
      for idx := 0 to |tail|
        invariant Linked(base, written, nodes, start) && Distinct(nodes)
        invariant hi <= |nodes| && IsRange(newTail, hi, |nodes|)
        invariant forall i :: 0 <= i < lo + idx ==> ClosedAt(base, written, nodes, i)
      {
        ghost var before := nodes;
        nodes, newTail := ExpandNode(base, written, start, nodes, newTail, hi, tail[idx]);
        forall i | 0 <= i < lo + idx
          ensures ClosedAt(base, written, nodes, i)
        {
          ClosedGrows(base, written, before, nodes, i);
        }
      }
      NodeCount(base, written, nodes, start);
      tail := newTail;
      lo := hi;
    }
  }

  // ---------------------------------------------------------------------
  // Counting the nodes

  // The points of the w by h rectangle.
  ghost function Grid(w: nat, h: nat): set<Vector>
  {
    set x, y | 0 <= x < w && 0 <= y < h :: Vector(x, y)
  }

  ghost function Row(w: nat, y: int): set<Vector>
  {
    set x | 0 <= x < w :: Vector(x, y)
  }

  lemma {:induction false} RowCard(w: nat, y: int)
    ensures |Row(w, y)| == w
  {
    if w > 0 {
      RowCard(w - 1, y);
      assert Row(w, y) == Row(w - 1, y) + {Vector(w - 1, y)};
    }
  }

  lemma {:induction false} GridCard(w: nat, h: nat)
    ensures |Grid(w, h)| == w * h
  {
    if h > 0 {
      GridCard(w, h - 1);
      RowCard(w, h - 1);
      GridSplit(w, h);
      MulStep(w, h);
    }
  }

  // The rectangle is the one a row shorter plus its last row.
  lemma GridSplit(w: nat, h: nat)
    requires h > 0
    ensures Grid(w, h) == Grid(w, h - 1) + Row(w, h - 1)
    ensures Grid(w, h - 1) * Row(w, h - 1) == {}
  {
  }

  lemma MulStep(w: nat, h: nat)
    requires h > 0
    ensures w * h == w * (h - 1) + w
  {
  }

  lemma {:induction false} SubsetCard(a: set<Vector>, b: set<Vector>)
    requires a <= b
    ensures |a| <= |b|
    decreases a
  {
    if a != {} {
      var x :| x in a;
      SubsetCard(a - {x}, b - {x});
    }
  }

  // Distinct nodes have as many points as there are nodes.
  lemma {:induction false} PtsCard(nodes: seq<PathNode>)
    requires Distinct(nodes)
    ensures |Pts(nodes)| == |nodes|
  {
    if nodes != [] {
      var init := nodes[..|nodes| - 1];
      PtsCard(init);
      assert Pts(nodes) == Pts(init) + {nodes[|nodes| - 1].pt};
    }
  }

  // Apart from the start, the nodes are distinct cells of the level.
  lemma NodeCount(base: Level, written: bool, nodes: seq<PathNode>, start: Vector)
    requires base.Valid() && Linked(base, written, nodes, start) && Distinct(nodes)
    ensures |nodes| <= base.w * base.h + 1
  {
    var rest := nodes[1..];
    PtsCard(rest);
    forall v | v in Pts(rest)
      ensures v in Grid(base.w, base.h)
    {
      var k :| 0 <= k < |rest| && rest[k].pt == v;
      assert LinkedAt(base, written, nodes, k + 1);
    }
    SubsetCard(Pts(rest), Grid(base.w, base.h));
    GridCard(base.w, base.h);
  }

  lemma SizeBound(base: Level)
    requires base.Valid()
    ensures base.w * base.h + 1 < 0x1_0000
  {
    ByteProduct(base.w, base.h);
  }

  lemma {:induction false} ByteProduct(a: nat, b: nat)
    requires a < 256 && b < 256
    ensures a * b <= 255 * 255
  {
    if b > 0 {
      ByteProduct(a, b - 1);
      assert a * b == a * (b - 1) + a;
    }
  }

  // ---------------------------------------------------------------------
  // What the flood finds

  // Every step of a walk from the start lands on an open cell.
  ghost predicate OpenWalk(base: Level, start: Vector, path: seq<Path2.Move2>)
    reads base, base.wallBmp
    requires base.Valid()
  {
    forall k :: 1 <= k <= |path| ==> Open(base, Walk(start, path[..k]))
  }

  // The trace of a node walks from the start through open cells to the node.
  lemma {:induction false} TraceWalks(base: Level, nodes: seq<PathNode>, start: Vector, i: nat)
    requires base.Valid() && Linked(base, false, nodes, start) && i < |nodes|
    ensures Backward(nodes)
    ensures Walk(start, Trace(nodes, i)) == nodes[i].pt
    ensures OpenWalk(base, start, Trace(nodes, i))
    decreases i
  {
    LinkedBackward(base, false, nodes, start);
    if i > 0 {
      assert LinkedAt(base, false, nodes, i);
      var n := nodes[i];
      var p := n.prevNodeIdx;
      var prefix := if p == 0 then [] else Trace(nodes, p);
      if p > 0 {
        TraceWalks(base, nodes, start, p);
      }
      var t := prefix + [n.moveTaken.value];
      assert Trace(nodes, i) == t;
      OpenWalkSnoc(base, start, prefix, n.moveTaken.value);
    }
  }

  // An open walk stays open when its next step lands on an open cell.
  lemma OpenWalkSnoc(base: Level, start: Vector, prefix: seq<Path2.Move2>, m: Path2.Move2)
    requires base.Valid() && OpenWalk(base, start, prefix) && Open(base, Walk(start, prefix + [m]))
    ensures OpenWalk(base, start, prefix + [m])
  {
    var t := prefix + [m];
    forall k | 1 <= k <= |t|
      ensures Open(base, Walk(start, t[..k]))
    {
      if k < |t| {
        assert t[..k] == prefix[..k];
      } else {
        assert t[..k] == t;
      }
    }
  }

  // Every cell reachable from the start by an open walk is a node.
  lemma {:induction false} FloodReachesAll(base: Level, nodes: seq<PathNode>, start: Vector, path: seq<Path2.Move2>)
    requires base.Valid() && Linked(base, false, nodes, start)
    requires forall i :: 0 <= i < |nodes| ==> ClosedAt(base, false, nodes, i)
    requires OpenWalk(base, start, path)
    ensures Walk(start, path) in Pts(nodes)
  {
    if path == [] {
      assert nodes[0].pt == start;
    } else {
      var init := path[..|path| - 1];
      var m := path[|path| - 1];
      forall k | 1 <= k <= |init|
        ensures Open(base, Walk(start, init[..k]))
      {
        assert init[..k] == path[..k];
      }
      FloodReachesAll(base, nodes, start, init);
      var i :| 0 <= i < |nodes| && nodes[i].pt == Walk(start, init);
      assert path[..|path|] == path;
      Path2.Move2Facts(m);
      assert Walk(start, path) == Moves.AddDir(nodes[i].pt, Path2.AsMove(m));
      assert Open(base, Walk(start, path[..|path|]));
      assert ClosedAt(base, false, nodes, i);
      assert Handled(base, false, nodes[i].pt, Path2.AsMove(m), nodes);
    }
  }

  // The flood's nodes are exactly the start and the cells an open walk from
  // the start reaches.
  lemma FloodExact(base: Level, nodes: seq<PathNode>, start: Vector, v: Vector)
    requires base.Valid() && Linked(base, false, nodes, start)
    requires forall i :: 0 <= i < |nodes| ==> ClosedAt(base, false, nodes, i)
    ensures v in Pts(nodes) <==> exists path :: OpenWalk(base, start, path) && Walk(start, path) == v
  {
    if v in Pts(nodes) {
      var i :| 0 <= i < |nodes| && nodes[i].pt == v;
      TraceWalks(base, nodes, start, i);
    }
    forall path | OpenWalk(base, start, path) && Walk(start, path) == v
      ensures v in Pts(nodes)
    {
      FloodReachesAll(base, nodes, start, path);
    }
  }

  // As written, every move either stays put or steps right or down, so the
  // flood never reaches a cell left of or above the start, open or not.
  lemma {:induction false} FloodOneWay(base: Level, nodes: seq<PathNode>, start: Vector, i: nat)
    requires base.Valid() && Linked(base, true, nodes, start) && i < |nodes|
    ensures nodes[i].pt.x >= start.x && nodes[i].pt.y >= start.y
    decreases i
  {
    if i > 0 {
      assert LinkedAt(base, true, nodes, i);
      var n := nodes[i];
      FloodOneWay(base, nodes, start, n.prevNodeIdx);
      Moves.AddDirAsWrittenDisplacement(nodes[n.prevNodeIdx].pt, Path2.AsMove(n.moveTaken.value));
    }
  }

  lemma FloodMissesLeft(base: Level, nodes: seq<PathNode>, start: Vector)
    requires base.Valid() && Linked(base, true, nodes, start)
    ensures Vector(start.x - 1, start.y) !in Pts(nodes) && Vector(start.x, start.y - 1) !in Pts(nodes)
  {
    forall i | 0 <= i < |nodes|
      ensures nodes[i].pt != Vector(start.x - 1, start.y) && nodes[i].pt != Vector(start.x, start.y - 1)
    {
      FloodOneWay(base, nodes, start, i);
    }
  }


  // ---------------------------------------------------------------------
  // Maps and the key pushes applied to them

  class PathNodeMap {
    var nodes: seq<PathNode>
    var keyMoves: seq<KeyMove2>

    constructor (nodes: seq<PathNode>, keyMoves: seq<KeyMove2>)
      ensures this.nodes == nodes && this.keyMoves == keyMoves
    {
      this.nodes := nodes;
      this.keyMoves := keyMoves;
    }

    // `backtrace_moves`: the same walk back over this map's nodes.
    method BacktraceMoves(pni: nat, spath: Path2.ShrunkPath)
      requires Backward(nodes) && pni < |nodes| && spath.Valid()
      requires spath.Len() + |Trace(nodes, pni)| <= Path2.MAX_MOVES
      modifies spath, spath.data, spath.data.stack
      ensures spath.Valid() && spath.Path() == old(spath.Path()) + Trace(nodes, pni)
    {
      BacktraceMoves2(nodes, pni, spath);
    }

    // `apply_key_pushes`: one new map per key move, in the order of the key
    // moves, each the base map with that key push applied.
    method ApplyKeyPushes(pm: PathMap) returns (nmaps: seq<PathMap>)
      requires pm.Valid() && Backward(nodes)
      requires forall k :: 0 <= k < |keyMoves| ==>
        keyMoves[k].pni < |nodes| && pm.path.Len() + |Trace(nodes, keyMoves[k].pni)| < Path2.MAX_MOVES
      ensures |nmaps| == |keyMoves|
      ensures forall k :: 0 <= k < |nmaps| ==> fresh(nmaps[k]) && KeyPushed(nmaps[k], pm, nodes, keyMoves[k])
    {
      nmaps := [];
      for i := 0 to |keyMoves|
        invariant |nmaps| == i
        invariant forall k :: 0 <= k < i ==> fresh(nmaps[k]) && KeyPushed(nmaps[k], pm, nodes, keyMoves[k])
      {
        var m := PathMap.NewByApplyingKeyPush(this, pm, keyMoves[i]);
        nmaps := nmaps + [m];
      }
    }
  }

  // mapB is pm after the key push km over nodes: the deer moved one step
  // from the key node, the path extended by that node's trace and the step,
  // score and flag kept.
  ghost predicate KeyPushed(mapB: PathMap, pm: PathMap, nodes: seq<PathNode>, km: KeyMove2)
    reads mapB, mapB.path, mapB.path.data, mapB.path.data.stack, pm, pm.path, pm.path.data, pm.path.data.stack
  {
    Backward(nodes) && km.pni < |nodes| && pm.Valid() && mapB.Valid()
    && mapB.score == pm.score && mapB.flag == pm.flag
    && mapB.level == pm.level.SetDeerPos(Moves.AddDirAsWritten(nodes[km.pni].pt, Path2.AsMove(km.moveDir)))
    && mapB.path.Path() == pm.path.Path() + Trace(nodes, km.pni) + [km.moveDir]
  }

  class PathMap {
    var level: SpLevel
    const path: Path2.ShrunkPath
    var score: nat
    var flag: bool

    ghost predicate Valid()
      reads this, path, path.data, path.data.stack
    {
      level.Valid() && path.Valid()
    }

    // `PathMap::new`: an empty level and path.
    constructor ()
      ensures Valid() && level == SpLevel(0, 0, EMPTY_CMP_DATA) && path.Path() == []
      ensures score == 0 && !flag && fresh(path) && fresh(path.data) && fresh(path.data.stack)
    {
      level := SpLevel(0, 0, EMPTY_CMP_DATA);
      path := new Path2.ShrunkPath();
      score := 0;
      flag := false;
    }

    // `new_from_level`: the compact view of the level and an empty path.
    constructor FromLevel(base: Level)
      ensures Valid() && level == SpLevel.FromLevel(base) && path.Path() == []
      ensures score == 0 && !flag && fresh(path) && fresh(path.data) && fresh(path.data.stack)
    {
      level := SpLevel.FromLevel(base);
      path := new Path2.ShrunkPath();
      score := 0;
      flag := false;
    }

    constructor FromParts(level: SpLevel, path: Path2.ShrunkPath, score: nat, flag: bool)
      ensures this.level == level && this.path == path && this.score == score && this.flag == flag
    {
      this.level := level;
      this.path := path;
      this.score := score;
      this.flag := flag;
    }

    // `clone`: the same level, score and flag, and a copy of the path.
    method Clone() returns (c: PathMap)
      requires Valid()
      ensures fresh(c) && fresh(c.path) && fresh(c.path.data) && fresh(c.path.data.stack)
      ensures c.Valid() && c.level == level && c.path.Path() == path.Path()
      ensures c.score == score && c.flag == flag
    {
      var p := path.Clone();
      c := new PathMap.FromParts(level, p, score, flag);
    }

    // `to_pnm`: a node map holding only the deer's cell.
    method ToPnm() returns (pnm: PathNodeMap)
      ensures fresh(pnm) && pnm.nodes == [PathNode(level.GetDeerPos(), 0, None)] && pnm.keyMoves == []
    {
      pnm := new PathNodeMap([PathNode(level.GetDeerPos(), 0, None)], []);
    }

    // `complete_map_solve`: the flood from the deer's cell over the base
    // level, as a node map with no key moves.
    method CompleteMapSolve(base: Level) returns (pnm: PathNodeMap)
      requires Valid() && base.Valid()
      ensures fresh(pnm) && pnm.keyMoves == []
      ensures Linked(base, true, pnm.nodes, level.GetDeerPos()) && Distinct(pnm.nodes)
      ensures forall i :: 0 <= i < |pnm.nodes| ==> ClosedAt(base, true, pnm.nodes, i)
    {
      pnm := ToPnm();
      var nodes := Flood(base, true, pnm.nodes[0].pt);
      pnm.nodes := nodes;
    }

    // `complete_solve_2`: the same flood into a local list, which is then
    // dropped; the output list is left as it was.
    method CompleteSolve2(base: Level) returns (ghost nodes: seq<PathNode>)
      requires Valid() && base.Valid()
      ensures Linked(base, true, nodes, level.GetDeerPos()) && Distinct(nodes)
      ensures forall i :: 0 <= i < |nodes| ==> ClosedAt(base, true, nodes, i)
    {
      var flooded := Flood(base, true, level.GetDeerPos());
      nodes := flooded;
    }

    // `apply_key_push_2`: a copy of this map with the deer moved one step
    // from the key node in the key direction, and the path extended by the
    // key node's trace and that step.
    method ApplyKeyPush2(nodes: seq<PathNode>, km: KeyMove2) returns (mapB: PathMap)
      requires Valid() && Backward(nodes) && km.pni < |nodes|
      requires path.Len() + |Trace(nodes, km.pni)| < Path2.MAX_MOVES
      ensures fresh(mapB) && fresh(mapB.path) && fresh(mapB.path.data) && fresh(mapB.path.data.stack)
      ensures mapB.Valid() && mapB.score == score && mapB.flag == flag
      ensures mapB.level == level.SetDeerPos(Moves.AddDirAsWritten(nodes[km.pni].pt, Path2.AsMove(km.moveDir)))
      ensures mapB.path.Path() == path.Path() + Trace(nodes, km.pni) + [km.moveDir]
    {
      ghost var before := path.Path();
      mapB := Clone();
      var np := Moves.AddDirAsWritten(nodes[km.pni].pt, Path2.AsMove(km.moveDir));
      mapB.level := mapB.level.SetDeerPos(np);
      BacktraceMoves2(nodes, km.pni, mapB.path);
      assert mapB.path.Path() == before + Trace(nodes, km.pni);
      PushMove(mapB.path, km.moveDir);
      assert path.Path() == before;
    }

    // `new_by_applying_key_push`: the same, reading the nodes of a node map.
    static method NewByApplyingKeyPush(pnm: PathNodeMap, pm: PathMap, km: KeyMove2) returns (mapB: PathMap)
      requires pm.Valid() && Backward(pnm.nodes) && km.pni < |pnm.nodes|
      requires pm.path.Len() + |Trace(pnm.nodes, km.pni)| < Path2.MAX_MOVES
      ensures fresh(mapB) && fresh(mapB.path) && fresh(mapB.path.data) && fresh(mapB.path.data.stack)
      ensures mapB.Valid() && mapB.score == pm.score && mapB.flag == pm.flag
      ensures mapB.level == pm.level.SetDeerPos(Moves.AddDirAsWritten(pnm.nodes[km.pni].pt, Path2.AsMove(km.moveDir)))
      ensures mapB.path.Path() == pm.path.Path() + Trace(pnm.nodes, km.pni) + [km.moveDir]
    {
      ghost var before := pm.path.Path();
      mapB := pm.Clone();
      var np := Moves.AddDirAsWritten(pnm.nodes[km.pni].pt, Path2.AsMove(km.moveDir));
      mapB.level := mapB.level.SetDeerPos(np);
      pnm.BacktraceMoves(km.pni, mapB.path);
      assert mapB.path.Path() == before + Trace(pnm.nodes, km.pni);
      PushMove(mapB.path, km.moveDir);
      assert pm.path.Path() == before;
    }
  }

  // `ShrunkPath::push` on a valid path below the limit, by its effect on the
  // moves.
  method PushMove(sp: Path2.ShrunkPath, m: Path2.Move2)
    requires sp.Valid() && sp.Len() < Path2.MAX_MOVES
    modifies sp, sp.data, sp.data.stack
    ensures sp.Valid() && sp.Path() == old(sp.Path()) + [m]
  {
    sp.Room();
    sp.Push(m);
  }

  // After a key push on a flooded map, the moves added to the path walk from
  // the deer's old cell to its new one.
  lemma KeyPushWalk(base: Level, nodes: seq<PathNode>, start: Vector, km: KeyMove2)
    requires base.Valid() && Linked(base, false, nodes, start) && km.pni < |nodes|
    ensures Backward(nodes)
    ensures Walk(start, Trace(nodes, km.pni) + [km.moveDir])
         == Moves.AddDir(nodes[km.pni].pt, Path2.AsMove(km.moveDir))
  {
    TraceWalks(base, nodes, start, km.pni);
    var t := Trace(nodes, km.pni) + [km.moveDir];
    assert t[..|t| - 1] == Trace(nodes, km.pni);
    Path2.Move2Facts(km.moveDir);
  }
}
