// src/solve.rs: the maze search engine. Rounds of expansion from the deer's
// position over the open floor of the wall bitmap: each round expands every
// node queued in the round before, keeping for each key the best score seen,
// and the round count is capped by `max_depth`.
//
// Paths are kept as move sequences: the `ShrunkPath` a node holds is pushed
// one move at a time, and `ShrunkPath.Push` ensures its decoded path grows by
// exactly that move.
module Solve {
  import opened Wrappers
  import opened Vectors
  import opened Path2
  import opened Levels

  /** What a search returns: the score, the path, the cells visited and
    * whether the round limit was reached. */
  datatype Solution = Solution(score: nat, path: seq<Move2>, visited: seq<Vector>, maxDepthHit: bool)

  // ---------------------------------------------------------------------
  // The floor the search walks on

  // `has_space_at`: no wall bit at an addressable point of the bitmap.
  predicate Space(rows: seq<seq<bv64>>, v: Vector)
    requires RowsShape(rows)
  {
    InBitmap(|rows|, v) && !BitAt(rows, v)
  }

  // A point whose four neighbours the bitmap can address.
  predicate Inside(rows: seq<seq<bv64>>, v: Vector)
  {
    1 <= v.x && v.x + 1 < BITMAP_COLUMNS && 1 <= v.y && v.y + 1 < |rows|
  }

  // Every step of the path lands on open floor.
  ghost predicate SpaceWalk(rows: seq<seq<bv64>>, start: Vector, path: seq<Move2>)
    requires RowsShape(rows)
    decreases |path|
  {
    path == [] || (SpaceWalk(rows, start, path[..|path| - 1]) && Space(rows, Walk(start, path)))
  }

  // A walk on open floor from start to end.
  ghost predicate WalkTo(rows: seq<seq<bv64>>, start: Vector, end: Vector, path: seq<Move2>)
    requires RowsShape(rows)
  {
    SpaceWalk(rows, start, path) && Walk(start, path) == end
  }

  // The open floor reachable from start stays off the bitmap's edges, so
  // that probing the neighbours of a reached point never panics.
  ghost predicate Enclosed(rows: seq<seq<bv64>>, start: Vector)
    requires RowsShape(rows)
  {
    forall path {:trigger SpaceWalk(rows, start, path)} :: SpaceWalk(rows, start, path) ==> Inside(rows, Walk(start, path))
  }

  // Extending a walk by one move.
  lemma WalkSnoc(rows: seq<seq<bv64>>, start: Vector, path: seq<Move2>, m: Move2)
    requires RowsShape(rows)
    ensures Walk(start, path + [m]) == ApplyDir(Walk(start, path), m)
    ensures SpaceWalk(rows, start, path + [m]) <==>
              SpaceWalk(rows, start, path) && Space(rows, ApplyDir(Walk(start, path), m))
  {
    assert (path + [m])[..|path|] == path;
  }

  // The neighbours of an inside point are addressable, and distinct moves
  // reach distinct neighbours.
  lemma Neighbours(rows: seq<seq<bv64>>, v: Vector)
    requires Inside(rows, v)
    ensures forall m :: InBitmap(|rows|, ApplyDir(v, m))
    ensures forall a, b :: ApplyDir(v, a) == ApplyDir(v, b) ==> a == b
    ensures forall m :: ApplyDir(v, m) != v
  {
    forall m
      ensures InBitmap(|rows|, ApplyDir(v, m)) && ApplyDir(v, m) != v
    {
      match m
      case Up =>
      case Right =>
      case Down =>
      case Left =>
    }
  }

  // The order `ALLMOVES2` lists the moves in.
  lemma AllMovesCodes(k: nat)
    requires k < 4
    ensures Code(ALLMOVES2[k]) == k
  {
  }

  // Moves listed in `ALLMOVES2` order, each at most once.
  predicate Increasing(ms: seq<Move2>)
  {
    forall i, j :: 0 <= i < j < |ms| ==> Code(ms[i]) < Code(ms[j])
  }

  lemma IncreasingSnoc(ms: seq<Move2>, m: Move2)
    requires Increasing(ms) && forall x :: x in ms ==> Code(x) < Code(m)
    ensures Increasing(ms + [m])
  {
    var ms' := ms + [m];
    forall i, j | 0 <= i < j < |ms'|
      ensures Code(ms'[i]) < Code(ms'[j])
    {
      assert ms'[i] in ms;
    }
  }

  // Keys of queued (key, data) pairs.
  ghost function Ids<K, D>(es: seq<(K, D)>): set<K>
  {
    set e | e in es :: e.0
  }

  lemma IdsSnoc<K, D>(es: seq<(K, D)>, i: nat)
    requires i < |es|
    ensures Ids(es[..i + 1]) == Ids(es[..i]) + {es[i].0}
  {
    assert es[..i + 1] == es[..i] + [es[i]];
  }

  // ---------------------------------------------------------------------
  // find_best_path_18 and find_any_path_18: keys are points, a step costs 1

  datatype NodeData18 = NodeData18(s: nat, path: seq<Move2>)

  // What a node reached by move m from (id, data) holds.
  function Child18(id: Vector, data: NodeData18, m: Move2): (Vector, NodeData18)
  {
    (ApplyDir(id, m), NodeData18(data.s + 1, data.path + [m]))
  }

  ghost predicate IsChild18(rows: seq<seq<bv64>>, id: Vector, data: NodeData18, e: (Vector, NodeData18))
    requires RowsShape(rows)
  {
    exists m :: Space(rows, ApplyDir(id, m)) && e == Child18(id, data, m)
  }

  // A node reached from start by its path over open floor, scored by its length.
  ghost predicate Sound18(rows: seq<seq<bv64>>, start: Vector, p: Vector, d: NodeData18)
    requires RowsShape(rows)
  {
    d.s == |d.path| && WalkTo(rows, start, p, d.path)
  }

  lemma ChildSound18(rows: seq<seq<bv64>>, start: Vector, id: Vector, data: NodeData18, e: (Vector, NodeData18))
    requires RowsShape(rows) && Sound18(rows, start, id, data) && IsChild18(rows, id, data, e)
    ensures Sound18(rows, start, e.0, e.1)
  {
    var m :| Space(rows, ApplyDir(id, m)) && e == Child18(id, data, m);
    WalkSnoc(rows, start, data.path, m);
  }

  // After the filter has looked at move m: an open neighbour is held with a
  // score no worse than this path's, or is listed as not held yet.
  ghost predicate Looked18(rows: seq<seq<bv64>>, id: Vector, data: NodeData18, nodes: map<Vector, NodeData18>,
                           cur: map<Vector, NodeData18>, unseen: seq<Move2>, m: Move2)
    requires RowsShape(rows)
  {
    Space(rows, ApplyDir(id, m)) ==>
      (ApplyDir(id, m) in cur && cur[ApplyDir(id, m)].s <= data.s + 1) ||
      (m in unseen && ApplyDir(id, m) !in nodes)
  }

  // Every node the filter changed was lowered and queued with its new data.
  ghost predicate LoweredQueued18(nodes: map<Vector, NodeData18>, cur: map<Vector, NodeData18>,
                                  added: seq<(Vector, NodeData18)>)
    requires nodes.Keys <= cur.Keys
  {
    forall p :: p in nodes && cur[p] != nodes[p] ==> cur[p].s < nodes[p].s && (p, cur[p]) in added
  }

  /** One edge node expanded (src/solve.rs:179-214): each open neighbour is
    * inserted when new and overwritten when reached more cheaply, and every
    * inserted or overwritten node is queued, as `added`. */
  method Expand18(rows: seq<seq<bv64>>, id: Vector, data: NodeData18, nodes: map<Vector, NodeData18>)
    returns (nodes': map<Vector, NodeData18>, added: seq<(Vector, NodeData18)>)
    requires RowsShape(rows) && Inside(rows, id)
    ensures nodes.Keys <= nodes'.Keys
    ensures forall p :: p in nodes && nodes'[p] != nodes[p] ==> nodes'[p].s < nodes[p].s
    ensures forall m :: Space(rows, ApplyDir(id, m)) ==>
              ApplyDir(id, m) in nodes' && nodes'[ApplyDir(id, m)].s <= data.s + 1
    ensures forall e :: e in added ==> IsChild18(rows, id, data, e)
    ensures forall p :: p in nodes' && (p in nodes ==> nodes'[p] != nodes[p]) ==> (p, nodes'[p]) in added
  {
    var mid, lowered, unseen := Relax18(rows, id, data, nodes);
    var inserted;
    nodes', inserted := Insert18(rows, id, data, mid, unseen);
    added := lowered + inserted;
    forall m | Space(rows, ApplyDir(id, m))
      ensures ApplyDir(id, m) in nodes' && nodes'[ApplyDir(id, m)].s <= data.s + 1
    {
      assert Looked18(rows, id, data, nodes, mid, unseen, m);
    }
  }

  // The filter over the four neighbours (src/solve.rs:180-204): nodes already
  // held are lowered where this path is cheaper, and the open neighbours not
  // held yet are returned in `ALLMOVES2` order.
  method Relax18(rows: seq<seq<bv64>>, id: Vector, data: NodeData18, nodes: map<Vector, NodeData18>)
    returns (nodes': map<Vector, NodeData18>, added: seq<(Vector, NodeData18)>, unseen: seq<Move2>)
    requires RowsShape(rows) && Inside(rows, id)
    ensures nodes'.Keys == nodes.Keys
    ensures LoweredQueued18(nodes, nodes', added)
    ensures forall m :: Looked18(rows, id, data, nodes, nodes', unseen, m)
    ensures Increasing(unseen)
    ensures forall m :: m in unseen ==> Space(rows, ApplyDir(id, m)) && ApplyDir(id, m) !in nodes
    ensures forall e :: e in added ==> IsChild18(rows, id, data, e)
  {
    Neighbours(rows, id);
    nodes', added, unseen := nodes, [], [];
    for k := 0 to 4
      invariant nodes'.Keys == nodes.Keys
      invariant LoweredQueued18(nodes, nodes', added)
      invariant forall m :: Code(m) < k ==> Looked18(rows, id, data, nodes, nodes', unseen, m)
      invariant Increasing(unseen)
      invariant forall x :: x in unseen ==> Code(x) < k
      invariant forall m :: m in unseen ==> Space(rows, ApplyDir(id, m)) && ApplyDir(id, m) !in nodes
      invariant forall e :: e in added ==> IsChild18(rows, id, data, e)
    {
      AllMovesCodes(k);
      var m := ALLMOVES2[k];
      var q := ApplyDir(id, m);
      ghost var before, unseen0 := nodes', unseen;
      if !BitAt(rows, q) {
        if q in nodes' {
          nodes', added := Lower18(rows, id, data, nodes, nodes', added, m);
        } else {
          IncreasingSnoc(unseen, m);
          unseen := unseen + [m];
        }
      }
      forall m' | Code(m') < k + 1
        ensures Looked18(rows, id, data, nodes, nodes', unseen, m')
      {
        if m' != m {
          assert Looked18(rows, id, data, nodes, before, unseen0, m');
        }
      }
    }
  }

  // A held neighbour reached more cheaply than before gets this path, and is queued.
  method Lower18(rows: seq<seq<bv64>>, id: Vector, data: NodeData18, nodes: map<Vector, NodeData18>,
                 cur: map<Vector, NodeData18>, added: seq<(Vector, NodeData18)>, m: Move2)
    returns (cur': map<Vector, NodeData18>, added': seq<(Vector, NodeData18)>)
    requires RowsShape(rows) && Space(rows, ApplyDir(id, m)) && ApplyDir(id, m) in cur
    requires cur.Keys == nodes.Keys && LoweredQueued18(nodes, cur, added)
    requires forall e :: e in added ==> IsChild18(rows, id, data, e)
    ensures cur'.Keys == nodes.Keys && LoweredQueued18(nodes, cur', added')
    ensures forall p :: p != ApplyDir(id, m) && p in cur ==> cur'[p] == cur[p]
    ensures cur'[ApplyDir(id, m)].s <= data.s + 1
    ensures forall e :: e in added' ==> IsChild18(rows, id, data, e)
  {
    var q := ApplyDir(id, m);
    var s := data.s + 1;
    cur', added' := cur, added;
    if s < cur[q].s {
      var val := NodeData18(s, data.path + [m]);
      cur' := cur[q := val];
      added' := added + [(q, val)];
      assert IsChild18(rows, id, data, (q, val)) by {
        assert (q, val) == Child18(id, data, m);
      }
    }
  }

  // The insertion of the neighbours not held yet (src/solve.rs:206-214).
  method Insert18(rows: seq<seq<bv64>>, id: Vector, data: NodeData18, nodes: map<Vector, NodeData18>,
                  unseen: seq<Move2>)
    returns (nodes': map<Vector, NodeData18>, added: seq<(Vector, NodeData18)>)
    requires RowsShape(rows) && Inside(rows, id)
    requires Increasing(unseen)
    requires forall m :: m in unseen ==> Space(rows, ApplyDir(id, m)) && ApplyDir(id, m) !in nodes
    ensures nodes.Keys <= nodes'.Keys
    ensures forall p :: p in nodes ==> nodes'[p] == nodes[p]
    ensures forall m :: m in unseen ==> ApplyDir(id, m) in nodes' && nodes'[ApplyDir(id, m)].s == data.s + 1
    ensures forall p :: p in nodes' && p !in nodes ==> (p, nodes'[p]) in added
    ensures forall e :: e in added ==> IsChild18(rows, id, data, e)
  {
    Neighbours(rows, id);
    nodes', added := nodes, [];
    for k := 0 to |unseen|
      invariant nodes.Keys <= nodes'.Keys
      invariant forall p :: p in nodes ==> nodes'[p] == nodes[p]
      invariant forall i :: 0 <= i < k ==>
                  ApplyDir(id, unseen[i]) in nodes' && nodes'[ApplyDir(id, unseen[i])].s == data.s + 1
      invariant forall i :: k <= i < |unseen| ==> ApplyDir(id, unseen[i]) !in nodes'
      invariant forall p :: p in nodes' && p !in nodes ==> (p, nodes'[p]) in added
      invariant forall e :: e in added ==> IsChild18(rows, id, data, e)
    {
      var m := unseen[k];
      var q := ApplyDir(id, m);
      var val := NodeData18(data.s + 1, data.path + [m]);
      nodes' := nodes'[q := val];
      added := added + [(q, val)];
      assert IsChild18(rows, id, data, (q, val)) by {
        assert (q, val) == Child18(id, data, m);
      }
      forall i | k < i < |unseen|
        ensures ApplyDir(id, unseen[i]) != q
      {
        assert Code(unseen[k]) < Code(unseen[i]);
      }
    }
    forall m | m in unseen
      ensures ApplyDir(id, m) in nodes' && nodes'[ApplyDir(id, m)].s == data.s + 1
    {
      var i :| 0 <= i < |unseen| && unseen[i] == m;
    }
  }

  // ---------------------------------------------------------------------
  // The state the 18 searches keep between visits

  ghost predicate NodesSound18(rows: seq<seq<bv64>>, start: Vector, nodes: map<Vector, NodeData18>)
    requires RowsShape(rows)
  {
    forall p :: p in nodes ==> Sound18(rows, start, p, nodes[p])
  }

  // Queued nodes are sound and all carry the score s.
  ghost predicate QueueSound18(rows: seq<seq<bv64>>, start: Vector, es: seq<(Vector, NodeData18)>, s: nat)
    requires RowsShape(rows)
  {
    forall e :: e in es ==> Sound18(rows, start, e.0, e.1) && e.1.s == s
  }

  // Every open neighbour of a visited point is held.
  ghost predicate Closed18(rows: seq<seq<bv64>>, nodes: map<Vector, NodeData18>, done: set<Vector>)
    requires RowsShape(rows)
  {
    forall q, m :: q in done && Space(rows, ApplyDir(q, m)) ==> ApplyDir(q, m) in nodes
  }

  // Every held point is visited already or still queued.
  ghost predicate Covered18(nodes: map<Vector, NodeData18>, done: set<Vector>,
                            a: seq<(Vector, NodeData18)>, b: seq<(Vector, NodeData18)>)
  {
    forall p :: p in nodes ==> p in done || p in Ids(a) || p in Ids(b)
  }

  // Every point a walk shorter than depth reaches is visited.
  ghost predicate Layers18(rows: seq<seq<bv64>>, start: Vector, done: set<Vector>, depth: nat)
    requires RowsShape(rows)
  {
    forall path {:trigger SpaceWalk(rows, start, path)} :: SpaceWalk(rows, start, path) && |path| < depth ==> Walk(start, path) in done
  }

  // The recorded solutions: all at end with one score, below bound, and no
  // walk to end is shorter.
  ghost predicate Best18(rows: seq<seq<bv64>>, start: Vector, end: Vector,
                         solutions: seq<(Vector, NodeData18)>, bound: nat)
    requires RowsShape(rows)
  {
    |solutions| > 0 ==>
      Sound18(rows, start, end, solutions[0].1) && solutions[0].1.s < bound &&
      (forall e :: e in solutions ==> e.0 == end && e.1.s == solutions[0].1.s) &&
      (forall p :: WalkTo(rows, start, end, p) ==> solutions[0].1.s <= |p|)
  }

  // What a visit's expansion leaves: the held nodes sound, the queue sound,
  // the visited point closed and every changed node queued.
  lemma Visited18(rows: seq<seq<bv64>>, start: Vector, id: Vector, data: NodeData18,
                  nodes: map<Vector, NodeData18>, nodes': map<Vector, NodeData18>, added: seq<(Vector, NodeData18)>,
                  extra: seq<(Vector, NodeData18)>, done: set<Vector>, edges: seq<(Vector, NodeData18)>)
    requires RowsShape(rows) && Sound18(rows, start, id, data)
    requires NodesSound18(rows, start, nodes) && QueueSound18(rows, start, extra, data.s + 1)
    requires Closed18(rows, nodes, done) && Covered18(nodes, done, edges, extra)
    requires nodes.Keys <= nodes'.Keys
    requires forall m :: Space(rows, ApplyDir(id, m)) ==> ApplyDir(id, m) in nodes'
    requires forall e :: e in added ==> IsChild18(rows, id, data, e)
    requires forall p :: p in nodes' && (p in nodes ==> nodes'[p] != nodes[p]) ==> (p, nodes'[p]) in added
    ensures NodesSound18(rows, start, nodes') && QueueSound18(rows, start, extra + added, data.s + 1)
    ensures Closed18(rows, nodes', done + {id}) && Covered18(nodes', done + {id}, edges, extra + added)
  {
    forall e | e in added
      ensures Sound18(rows, start, e.0, e.1) && e.1.s == data.s + 1
    {
      ChildSound18(rows, start, id, data, e);
    }
    forall p | p in nodes'
      ensures Sound18(rows, start, p, nodes'[p])
      ensures p in done || p in Ids(edges) || p in Ids(extra + added)
    {
      if p in nodes && nodes'[p] == nodes[p] {
        assert p in done || p in Ids(edges) || p in Ids(extra);
        if p in Ids(extra) {
          var e :| e in extra && e.0 == p;
          assert e in extra + added;
        }
      } else {
        assert (p, nodes'[p]) in extra + added;
      }
    }
  }

  // Before a round: every point a walk of at most depth moves reaches is
  // visited or queued for the round.
  lemma NextLayer18(rows: seq<seq<bv64>>, start: Vector, nodes: map<Vector, NodeData18>, done: set<Vector>,
                    edges: seq<(Vector, NodeData18)>, depth: nat)
    requires RowsShape(rows) && start in nodes
    requires Closed18(rows, nodes, done) && Covered18(nodes, done, edges, []) && Layers18(rows, start, done, depth)
    ensures forall path {:trigger SpaceWalk(rows, start, path)} :: SpaceWalk(rows, start, path) && |path| <= depth ==>
              Walk(start, path) in done || Walk(start, path) in Ids(edges)
  {
    assert Ids<Vector, NodeData18>([]) == {};
    forall path | SpaceWalk(rows, start, path) && |path| <= depth
      ensures Walk(start, path) in done || Walk(start, path) in Ids(edges)
    {
      if |path| == depth && path != [] {
        var q, m := path[..|path| - 1], path[|path| - 1];
        assert path == q + [m];
        WalkSnoc(rows, start, q, m);
        assert Walk(start, q) in done;
      }
    }
  }

  // With nothing left queued, every point reachable over open floor is visited.
  lemma {:induction false} Exhausted18(rows: seq<seq<bv64>>, start: Vector, nodes: map<Vector, NodeData18>,
                                       done: set<Vector>, path: seq<Move2>)
    requires RowsShape(rows) && start in nodes && Closed18(rows, nodes, done)
    requires forall p :: p in nodes ==> p in done
    requires SpaceWalk(rows, start, path)
    ensures Walk(start, path) in done
    decreases |path|
  {
    if path != [] {
      var q, m := path[..|path| - 1], path[|path| - 1];
      assert path == q + [m];
      WalkSnoc(rows, start, q, m);
      Exhausted18(rows, start, nodes, done, q);
    }
  }

  // A visit to the end point at the depth of its round: the first one found
  // is a shortest walk, and later ones are kept only when shorter still or
  // added when as short.
  lemma Record18(rows: seq<seq<bv64>>, start: Vector, end: Vector, data: NodeData18,
                 solutions: seq<(Vector, NodeData18)>, done0: set<Vector>, done: set<Vector>, depth: nat)
    requires RowsShape(rows) && Sound18(rows, start, end, data) && data.s == depth
    requires Layers18(rows, start, done0, depth) && done0 <= done
    requires end in done ==> |solutions| > 0
    requires Best18(rows, start, end, solutions, depth + 1)
    requires |solutions| == 0 || data.s < solutions[0].1.s
    ensures Best18(rows, start, end, [(end, data)], depth + 1)
  {
    forall p | WalkTo(rows, start, end, p)
      ensures data.s <= |p|
    {
      if |solutions| == 0 {
        assert Walk(start, p) !in done0;
      }
    }
  }

  // The state between rounds: everything held is sound, the round's queue
  // carries the depth as score, visited points are closed, walks shorter
  // than depth reach only visited points, and the solutions are shortest.
  ghost predicate Between18(rows: seq<seq<bv64>>, start: Vector, end: Vector, nodes: map<Vector, NodeData18>,
                            edges: seq<(Vector, NodeData18)>, solutions: seq<(Vector, NodeData18)>,
                            done: set<Vector>, depth: nat)
    requires RowsShape(rows)
  {
    start in nodes &&
    NodesSound18(rows, start, nodes) && QueueSound18(rows, start, edges, depth) &&
    Closed18(rows, nodes, done) && Covered18(nodes, done, edges, []) &&
    Layers18(rows, start, done, depth) &&
    (end in done ==> |solutions| > 0) &&
    Best18(rows, start, end, solutions, depth)
  }

  // The state within a round after some of its queue was visited.
  ghost predicate Within18(rows: seq<seq<bv64>>, start: Vector, end: Vector, nodes: map<Vector, NodeData18>,
                           edges: seq<(Vector, NodeData18)>, extra: seq<(Vector, NodeData18)>,
                           solutions: seq<(Vector, NodeData18)>, done0: set<Vector>, done: set<Vector>, depth: nat)
    requires RowsShape(rows)
  {
    start in nodes && done0 <= done &&
    NodesSound18(rows, start, nodes) && QueueSound18(rows, start, edges, depth) &&
    QueueSound18(rows, start, extra, depth + 1) &&
    Closed18(rows, nodes, done) && Covered18(nodes, done, edges, extra) &&
    Layers18(rows, start, done0, depth) && Reaches18(rows, start, done0, edges, depth) &&
    (end in done ==> |solutions| > 0) &&
    Best18(rows, start, end, solutions, depth + 1)
  }

  // Every point a walk of at most depth moves reaches is visited or queued.
  ghost predicate Reaches18(rows: seq<seq<bv64>>, start: Vector, done: set<Vector>,
                            edges: seq<(Vector, NodeData18)>, depth: nat)
    requires RowsShape(rows)
  {
    forall path {:trigger SpaceWalk(rows, start, path)} :: SpaceWalk(rows, start, path) && |path| <= depth ==>
      Walk(start, path) in done || Walk(start, path) in Ids(edges)
  }

  // A round starts from the state between rounds.
  lemma BeginRound18(rows: seq<seq<bv64>>, start: Vector, end: Vector, nodes: map<Vector, NodeData18>,
                     edges: seq<(Vector, NodeData18)>, solutions: seq<(Vector, NodeData18)>,
                     done: set<Vector>, depth: nat)
    requires RowsShape(rows) && Between18(rows, start, end, nodes, edges, solutions, done, depth)
    ensures Within18(rows, start, end, nodes, edges, [], solutions, done, done, depth)
  {
    NextLayer18(rows, start, nodes, done, edges, depth);
    assert Ids<Vector, NodeData18>([]) == {};
  }

  // A round whose whole queue was visited ends in the state between rounds.
  lemma EndRound18(rows: seq<seq<bv64>>, start: Vector, end: Vector, nodes: map<Vector, NodeData18>,
                   edges: seq<(Vector, NodeData18)>, extra: seq<(Vector, NodeData18)>,
                   solutions: seq<(Vector, NodeData18)>, done0: set<Vector>, done: set<Vector>, depth: nat)
    requires RowsShape(rows) && Within18(rows, start, end, nodes, edges, extra, solutions, done0, done, depth)
    requires Ids(edges) <= done
    ensures Between18(rows, start, end, nodes, extra, solutions, done, depth + 1)
  {
    Advance18(rows, start, nodes, done0, done, edges, extra, depth);
  }

  /** One round of `find_best_path_18` (src/solve.rs:164-221): every queued
    * node is visited in turn; the nodes the visits insert or lower are
    * queued for the next round. */
  method Round18(rows: seq<seq<bv64>>, start: Vector, end: Vector, nodes: map<Vector, NodeData18>,
                 edges: seq<(Vector, NodeData18)>, solutions: seq<(Vector, NodeData18)>,
                 ghost done: set<Vector>, depth: nat)
    returns (nodes': map<Vector, NodeData18>, extra: seq<(Vector, NodeData18)>,
             solutions': seq<(Vector, NodeData18)>, ghost done': set<Vector>)
    requires RowsShape(rows) && Enclosed(rows, start)
    requires Between18(rows, start, end, nodes, edges, solutions, done, depth)
    ensures Between18(rows, start, end, nodes', extra, solutions', done', depth + 1)
  {
    BeginRound18(rows, start, end, nodes, edges, solutions, done, depth);
    nodes', extra, solutions', done' := nodes, [], solutions, done;
    for i := 0 to |edges|
      invariant Within18(rows, start, end, nodes', edges, extra, solutions', done, done', depth)
      invariant Ids(edges[..i]) <= done'
    {
      nodes', extra, solutions', done' :=
        Visit18(rows, start, end, nodes', edges, extra, solutions', done, done', depth, i);
      IdsSnoc(edges, i);
    }
    assert edges[..|edges|] == edges;
    EndRound18(rows, start, end, nodes', edges, extra, solutions', done, done', depth);
  }

  /** A visit to queued node i (src/solve.rs:164-214): recorded as a solution
    * when it is at the end point and no recorded one is cheaper, then expanded. */
  method Visit18(rows: seq<seq<bv64>>, start: Vector, end: Vector, nodes: map<Vector, NodeData18>,
                 edges: seq<(Vector, NodeData18)>, extra: seq<(Vector, NodeData18)>,
                 solutions: seq<(Vector, NodeData18)>, ghost done0: set<Vector>, ghost done: set<Vector>,
                 depth: nat, i: nat)
    returns (nodes': map<Vector, NodeData18>, extra': seq<(Vector, NodeData18)>,
             solutions': seq<(Vector, NodeData18)>, ghost done': set<Vector>)
    requires RowsShape(rows) && Enclosed(rows, start) && i < |edges|
    requires Within18(rows, start, end, nodes, edges, extra, solutions, done0, done, depth)
    ensures Within18(rows, start, end, nodes', edges, extra', solutions', done0, done', depth)
    ensures done' == done + {edges[i].0}
    ensures edges[i].0 != end ==> solutions' == solutions
  {
    var (id, data) := edges[i];
    assert (id, data) in edges;
    solutions' := solutions;
    if id == end {
      if |solutions| == 0 || data.s < solutions[0].1.s {
        Record18(rows, start, end, data, solutions, done0, done, depth);
        solutions' := [(id, data)];
      } else if data.s == solutions[0].1.s {
        Tie18(rows, start, end, data, solutions, depth + 1);
        solutions' := solutions + [(id, data)];
      }
    }
    var added;
    nodes', added := Expand18(rows, id, data, nodes);
    Visited18(rows, start, id, data, nodes, nodes', added, extra, done, edges);
    extra', done' := extra + added, done + {id};
  }

  // The end of a round: all of its queue visited, walks of depth moves reach
  // visited points only.
  lemma Advance18(rows: seq<seq<bv64>>, start: Vector, nodes: map<Vector, NodeData18>, done0: set<Vector>,
                  done: set<Vector>, edges: seq<(Vector, NodeData18)>, extra: seq<(Vector, NodeData18)>, depth: nat)
    requires RowsShape(rows)
    requires forall path {:trigger SpaceWalk(rows, start, path)} :: SpaceWalk(rows, start, path) && |path| <= depth ==>
               Walk(start, path) in done0 || Walk(start, path) in Ids(edges)
    requires done0 <= done && Ids(edges) <= done
    requires Covered18(nodes, done, edges, extra)
    ensures Layers18(rows, start, done, depth + 1) && Covered18(nodes, done, extra, [])
  {
    assert Ids<Vector, NodeData18>([]) == {};
  }

  // With the queue empty, or depth rounds done, no walk shorter than depth
  // reaches an unvisited end point.
  // A round queue run dry: every walk to the end was recorded.
  lemma Dry18(rows: seq<seq<bv64>>, start: Vector, end: Vector, nodes: map<Vector, NodeData18>,
              solutions: seq<(Vector, NodeData18)>, done: set<Vector>, depth: nat)
    requires RowsShape(rows) && Between18(rows, start, end, nodes, [], solutions, done, depth)
    ensures forall p :: WalkTo(rows, start, end, p) ==> |solutions| > 0
  {
    assert Ids<Vector, NodeData18>([]) == {};
    forall p | WalkTo(rows, start, end, p)
      ensures |solutions| > 0
    {
      Exhausted18(rows, start, nodes, done, p);
    }
  }

  lemma NoWalk18(rows: seq<seq<bv64>>, start: Vector, end: Vector, nodes: map<Vector, NodeData18>,
                 edges: seq<(Vector, NodeData18)>, solutions: seq<(Vector, NodeData18)>,
                 done: set<Vector>, depth: nat, maxDepth: nat)
    requires RowsShape(rows) && Between18(rows, start, end, nodes, edges, solutions, done, depth)
    requires |edges| == 0 || depth >= maxDepth
    requires |solutions| == 0
    ensures forall p :: WalkTo(rows, start, end, p) ==> |p| >= maxDepth
  {
    assert Ids<Vector, NodeData18>([]) == {};
    forall p | WalkTo(rows, start, end, p)
      ensures |p| >= maxDepth
    {
      if |edges| == 0 {
        Exhausted18(rows, start, nodes, done, p);
      }
    }
  }

  // Another walk to the end point as short as the recorded ones joins them.
  lemma Tie18(rows: seq<seq<bv64>>, start: Vector, end: Vector, data: NodeData18,
              solutions: seq<(Vector, NodeData18)>, bound: nat)
    requires RowsShape(rows) && Best18(rows, start, end, solutions, bound)
    requires |solutions| > 0 && data.s == solutions[0].1.s
    ensures Best18(rows, start, end, solutions + [(end, data)], bound)
  {
    var sols := solutions + [(end, data)];
    assert sols[0] == solutions[0];
    forall e | e in sols
      ensures e.0 == end && e.1.s == sols[0].1.s
    {
      if e != (end, data) {
        assert e in solutions;
      }
    }
  }

  // The state before the first round: only the deer's point held and queued.
  lemma Start18(rows: seq<seq<bv64>>, start: Vector, end: Vector)
    requires RowsShape(rows)
    ensures Between18(rows, start, end, map[start := NodeData18(0, [])], [(start, NodeData18(0, []))], [], {}, 0)
  {
    var first := NodeData18(0, []);
    assert Sound18(rows, start, start, first);
    assert start in Ids([(start, first)]);
  }

  /** `find_best_path_18`: rounds of unit-cost expansion from the deer. A
    * result is a shortest walk over open floor from the deer to the end,
    * found within max_depth rounds, with the cells it visits; no result
    * means no walk of fewer than max_depth moves reaches the end. `rounds`
    * counts the rounds run: the limit is reported hit exactly when all
    * max_depth of them ran, and a search that stops before the limit has
    * run out of floor, so it finds the end whenever any walk reaches it. */
  method FindBestPath18(level: Level, maxDepth: nat) returns (r: Option<Solution>, ghost rounds: nat)
    requires level.Valid() && Enclosed(level.wallBmp.bitmap, level.deerPos)
    requires maxDepth <= MAX_MOVES
    ensures rounds <= maxDepth
    ensures r.Some? ==> (r.value.maxDepthHit <==> 0 < rounds == maxDepth)
    ensures rounds < maxDepth ==> forall p :: WalkTo(level.wallBmp.bitmap, level.deerPos, level.endPos, p) ==> r.Some?
    ensures r.Some? ==> WalkTo(level.wallBmp.bitmap, level.deerPos, level.endPos, r.value.path)
    ensures r.Some? ==> r.value.score == |r.value.path| < maxDepth
    ensures r.Some? ==> forall p :: WalkTo(level.wallBmp.bitmap, level.deerPos, level.endPos, p) ==>
                          r.value.score <= |p|
    ensures r.Some? ==> r.value.visited == PathPoints(level.startPos, r.value.path)
    ensures r.None? ==> forall p :: WalkTo(level.wallBmp.bitmap, level.deerPos, level.endPos, p) ==>
                          |p| >= maxDepth
  {
    var rows, start, end := level.wallBmp.bitmap, level.deerPos, level.endPos;
    var depth: nat := 0;
    var maxDepthHit := false;
    var first := NodeData18(0, []);
    var nodes := map[start := first];
    var edges := [(start, first)];
    var solutions: seq<(Vector, NodeData18)> := [];
    ghost var done: set<Vector> := {};
    Start18(rows, start, end);
    while |edges| > 0 && depth < maxDepth
      invariant depth <= maxDepth
      decreases maxDepth - depth
      invariant Between18(rows, start, end, nodes, edges, solutions, done, depth)
      invariant maxDepthHit <==> 0 < depth == maxDepth
    {
      nodes, edges, solutions, done := Round18(rows, start, end, nodes, edges, solutions, done, depth);
      depth := depth + 1;
      if depth >= maxDepth {
        maxDepthHit := true;
      }
    }
    rounds := depth;
    if depth < maxDepth {
      Dry18(rows, start, end, nodes, solutions, done, depth);
    }
    if |solutions| > 0 {
      var path := solutions[0].1.path;
      var pts := level.GetPathPts(path);
      r := Some(Solution(solutions[0].1.s, path, pts, maxDepthHit));
    } else {
      NoWalk18(rows, start, end, nodes, edges, solutions, done, depth, maxDepth);
      r := None;
    }
  }

  /** One round of `find_any_path_18` (src/solve.rs:250-297): as a round of
    * `find_best_path_18`, but the first queued node at the end point is
    * recorded and ends the round before it is expanded. */
  method RoundAny18(rows: seq<seq<bv64>>, start: Vector, end: Vector, nodes: map<Vector, NodeData18>,
                    edges: seq<(Vector, NodeData18)>, ghost done: set<Vector>, depth: nat)
    returns (nodes': map<Vector, NodeData18>, extra: seq<(Vector, NodeData18)>,
             solutions: seq<(Vector, NodeData18)>, ghost done': set<Vector>)
    requires RowsShape(rows) && Enclosed(rows, start)
    requires Between18(rows, start, end, nodes, edges, [], done, depth)
    ensures |solutions| == 0 ==> Between18(rows, start, end, nodes', extra, solutions, done', depth + 1)
    ensures Best18(rows, start, end, solutions, depth + 1)
  {
    BeginRound18(rows, start, end, nodes, edges, [], done, depth);
    nodes', extra, solutions, done' := nodes, [], [], done;
    for i := 0 to |edges|
      invariant |solutions| == 0
      invariant Within18(rows, start, end, nodes', edges, extra, solutions, done, done', depth)
      invariant Ids(edges[..i]) <= done'
    {
      var (id, data) := edges[i];
      if id == end {
        assert (id, data) in edges;
        Record18(rows, start, end, data, solutions, done, done', depth);
        solutions := [(id, data)];
        break;
      }
      nodes', extra, solutions, done' :=
        Visit18(rows, start, end, nodes', edges, extra, solutions, done, done', depth, i);
      IdsSnoc(edges, i);
    }
    if |solutions| == 0 {
      assert edges[..|edges|] == edges;
      EndRound18(rows, start, end, nodes', edges, extra, solutions, done, done', depth);
    }
  }

  /** `find_any_path_18`: the search stops at the first round that reaches
    * the end point, so its walk is a shortest one too. A result has no
    * visited cells and always reports the round limit as hit; no result
    * means no walk of fewer than max_depth moves reaches the end. */
  method FindAnyPath18(level: Level, maxDepth: nat) returns (r: Option<Solution>)
    requires level.Valid() && Enclosed(level.wallBmp.bitmap, level.deerPos)
    requires maxDepth <= MAX_MOVES
    ensures r.Some? ==> WalkTo(level.wallBmp.bitmap, level.deerPos, level.endPos, r.value.path)
    ensures r.Some? ==> r.value.score == |r.value.path| < maxDepth
    ensures r.Some? ==> forall p :: WalkTo(level.wallBmp.bitmap, level.deerPos, level.endPos, p) ==>
                          r.value.score <= |p|
    ensures r.Some? ==> r.value.visited == [] && r.value.maxDepthHit
    ensures r.None? ==> forall p :: WalkTo(level.wallBmp.bitmap, level.deerPos, level.endPos, p) ==>
                          |p| >= maxDepth
  {
    var rows, start, end := level.wallBmp.bitmap, level.deerPos, level.endPos;
    var depth: nat := 0;
    var maxDepthHit := false;
    var first := NodeData18(0, []);
    var nodes := map[start := first];
    var edges := [(start, first)];
    var solutions: seq<(Vector, NodeData18)> := [];
    ghost var done: set<Vector> := {};
    Start18(rows, start, end);
    while |edges| > 0 && depth < maxDepth
      invariant depth <= maxDepth + 1
      invariant |solutions| == 0 ==> depth <= maxDepth && Between18(rows, start, end, nodes, edges, solutions, done, depth)
      invariant |solutions| > 0 ==> Best18(rows, start, end, solutions, maxDepth) && maxDepthHit && depth > maxDepth
      decreases maxDepth + 1 - depth
    {
      nodes, edges, solutions, done := RoundAny18(rows, start, end, nodes, edges, done, depth);
      if |solutions| > 0 {
        depth := maxDepth;
      }
      depth := depth + 1;
      if depth >= maxDepth {
        maxDepthHit := true;
      }
    }
    if |solutions| > 0 {
      var path := solutions[0].1.path;
      r := Some(Solution(solutions[0].1.s, path, [], maxDepthHit));
    } else {
      NoWalk18(rows, start, end, nodes, edges, solutions, done, depth, maxDepth);
      r := None;
    }
  }

  // ---------------------------------------------------------------------
  // find_best_path_16: keys are (point, facing), a step costs calc_score

  /** The maze as the weighted search sees it: the wall bitmap, the deer's
    * point and facing, the end point, and the point `get_path_pts` lays
    * paths out from. */
  datatype Maze = Maze(rows: seq<seq<bv64>>, start: Vector, facing: Move2, end: Vector, origin: Vector)

  datatype NodeId = NodeId(p: Vector, d: Move2)

  datatype NodeData = NodeData(s: nat, path: seq<Move2>, pts: seq<Vector>)

  // The direction faced after walking path, starting out facing d.
  function Facing(d: Move2, path: seq<Move2>): Move2
  {
    if path == [] then d else path[|path| - 1]
  }

  // The key a move from id leads to: the neighbour, facing the move.
  function Step16(id: NodeId, m: Move2): NodeId
  {
    NodeId(ApplyDir(id.p, m), m)
  }

  // The key a walk from the deer ends in.
  function WalkKey(mz: Maze, path: seq<Move2>): NodeId
  {
    NodeId(Walk(mz.start, path), Facing(mz.facing, path))
  }

  // Every cell the path steps onto, laid out from `from`, is listed in pts.
  ghost predicate Covers(from: Vector, path: seq<Move2>, pts: seq<Vector>)
    decreases |path|
  {
    path == [] || (Covers(from, path[..|path| - 1], pts) && Walk(from, path) in pts)
  }

  // Covering is about the listed cells only, whatever else is listed.
  lemma {:induction false} CoversMore(from: Vector, path: seq<Move2>, a: seq<Vector>, b: seq<Vector>)
    requires Covers(from, path, a) && forall u :: u in a ==> u in b
    ensures Covers(from, path, b)
    decreases |path|
  {
    if path != [] {
      CoversMore(from, path[..|path| - 1], a, b);
    }
  }

  // The cells the path steps onto are listed: each prefix's end point.
  lemma {:induction false} CoversPrefixes(from: Vector, path: seq<Move2>, pts: seq<Vector>)
    requires Covers(from, path, pts)
    ensures forall k :: 1 <= k <= |path| ==> Walk(from, path[..k]) in pts
    decreases |path|
  {
    if path != [] {
      var q := path[..|path| - 1];
      CoversPrefixes(from, q, pts);
      forall k | 1 <= k <= |path|
        ensures Walk(from, path[..k]) in pts
      {
        if k < |path| {
          assert path[..k] == q[..k];
        } else {
          assert path[..k] == path;
        }
      }
    }
  }

  // A node reached by its path over open floor from the deer, facing its
  // key's direction, scored by the walk's cost, with its cells listed.
  ghost predicate Sound16(mz: Maze, id: NodeId, d: NodeData)
    requires RowsShape(mz.rows)
  {
    d.s == WalkCost(mz.facing, d.path) && WalkTo(mz.rows, mz.start, id.p, d.path) &&
    Facing(mz.facing, d.path) == id.d && Covers(mz.origin, d.path, d.pts)
  }

  // One more move costs the turn from the direction faced so far.
  lemma WalkCostSnoc(d: Move2, path: seq<Move2>, m: Move2)
    ensures WalkCost(d, path + [m]) == WalkCost(d, path) + CalcScore(m, Facing(d, path))
    ensures Facing(d, path + [m]) == m
  {
    var p := path + [m];
    assert p[..|p| - 1] == path;
    CalcScoreSymmetric(m, Facing(d, path));
  }

  // A list holding the cells `get_path_pts` lists covers the path.
  lemma {:induction false} CoversPathPoints(from: Vector, path: seq<Move2>, pts: seq<Vector>)
    requires forall u :: u in PathPoints(from, path) ==> u in pts
    ensures Covers(from, path, pts)
    decreases |path|
  {
    if path != [] {
      var q := path[..|path| - 1];
      assert PathPoints(from, path)[|path|] == Walk(from, path) by {
        assert path[..|path|] == path;
      }
      forall u | u in PathPoints(from, q)
        ensures u in pts
      {
        var i :| 0 <= i < |PathPoints(from, q)| && PathPoints(from, q)[i] == u;
        assert q[..i] == path[..i];
        assert PathPoints(from, path)[i] == u;
      }
      CoversPathPoints(from, q, pts);
    }
  }

  // A sound node's move onto open floor gives a sound node, whatever cell
  // list covering the longer path it carries.
  lemma ChildSound16(mz: Maze, id: NodeId, data: NodeData, m: Move2, pts: seq<Vector>)
    requires RowsShape(mz.rows) && Sound16(mz, id, data) && Space(mz.rows, ApplyDir(id.p, m))
    requires Covers(mz.origin, data.path + [m], pts)
    ensures Sound16(mz, Step16(id, m), NodeData(data.s + CalcScore(m, id.d), data.path + [m], pts))
  {
    WalkSnoc(mz.rows, mz.start, data.path, m);
    WalkCostSnoc(mz.facing, data.path, m);
  }

  // ---------------------------------------------------------------------
  // The sorted, deduplicated cell lists of `sort` followed by `dedup`

  // Strictly increasing in the derived order of `Vector`: sorted, no repeats.
  predicate StrictlySorted(s: seq<Vector>)
  {
    forall i, j :: 0 <= i < j < |s| ==> Less(s[i], s[j])
  }

  /** v put in its place in a strictly sorted sequence, kept once. */
  function InsertSorted(s: seq<Vector>, v: Vector): (r: seq<Vector>)
    requires StrictlySorted(s)
    ensures StrictlySorted(r)
    ensures forall u :: u in r <==> u in s || u == v
  {
    if s == [] || Less(v, s[0]) then [v] + s
    else if v == s[0] then s
    else
      var t := InsertSorted(s[1..], v);
      assert forall u :: u in t ==> Less(s[0], u);
      [s[0]] + t
  }

  /** A sequence's elements, sorted and deduplicated. */
  function SortDedup(s: seq<Vector>): (r: seq<Vector>)
    ensures StrictlySorted(r)
    ensures forall u :: u in r <==> u in s
  {
    if s == [] then [] else InsertSorted(SortDedup(s[..|s| - 1]), s[|s| - 1])
  }

  // The head of a strictly sorted sequence is its least element.
  lemma SortedHead(s: seq<Vector>, u: Vector)
    requires StrictlySorted(s) && u in s
    ensures u == s[0] || Less(s[0], u)
  {
  }

  // A strictly sorted sequence is determined by its elements, so the cells
  // a node lists are the same whatever order they were gathered in.
  lemma {:induction false} SortedUnique(a: seq<Vector>, b: seq<Vector>)
    requires StrictlySorted(a) && StrictlySorted(b)
    requires forall u :: u in a <==> u in b
    ensures a == b
    decreases |a|
  {
    assert a != [] ==> a[0] in b;
    assert b != [] ==> b[0] in a;
    if a != [] && b != [] {
      SortedHead(b, a[0]);
      SortedHead(a, b[0]);
      forall u
        ensures u in a[1..] <==> u in b[1..]
      {
        if u in a[1..] { SortedHead(b, u); }
        if u in b[1..] { SortedHead(a, u); }
      }
      SortedUnique(a[1..], b[1..]);
      assert a == [a[0]] + a[1..] && b == [b[0]] + b[1..];
    }
  }

  // ---------------------------------------------------------------------
  // One expansion of find_best_path_16

  // The (key, score) pairs of queued entries.
  ghost function Tokens(es: seq<(NodeId, NodeData)>): set<(NodeId, nat)>
  {
    set e | e in es :: (e.0, e.1.s)
  }

  ghost predicate NodesSound16(mz: Maze, nodes: map<NodeId, NodeData>)
    requires RowsShape(mz.rows)
  {
    forall K :: K in nodes ==> Sound16(mz, K, nodes[K])
  }

  ghost predicate QueueSound16(mz: Maze, es: seq<(NodeId, NodeData)>)
    requires RowsShape(mz.rows)
  {
    forall e :: e in es ==> Sound16(mz, e.0, e.1)
  }

  // Queued entries are held, with a score no better than the held one.
  ghost predicate Above16(nodes: map<NodeId, NodeData>, es: seq<(NodeId, NodeData)>)
  {
    forall e :: e in es ==> e.0 in nodes && nodes[e.0].s <= e.1.s
  }

  // After the filter has looked at move m: an open neighbour key is held
  // with a score no worse than through id, or is listed as not held yet.
  ghost predicate Looked16(rows: seq<seq<bv64>>, id: NodeId, data: NodeData, nodes: map<NodeId, NodeData>,
                           cur: map<NodeId, NodeData>, unseen: seq<Move2>, m: Move2)
    requires RowsShape(rows)
  {
    Space(rows, ApplyDir(id.p, m)) ==>
      (Step16(id, m) in cur && cur[Step16(id, m)].s <= data.s + CalcScore(m, id.d)) ||
      (m in unseen && Step16(id, m) !in nodes)
  }

  // Every node whose score the filter changed was lowered and queued with
  // its new score.
  ghost predicate LoweredQueued16(nodes: map<NodeId, NodeData>, cur: map<NodeId, NodeData>,
                                  added: seq<(NodeId, NodeData)>)
    requires nodes.Keys <= cur.Keys
  {
    forall K :: K in nodes && cur[K].s != nodes[K].s ==> cur[K].s < nodes[K].s && (K, cur[K].s) in Tokens(added)
  }

  /** The filter's handling of a held neighbour key (src/solve.rs:84-116): a
    * cheaper arrival takes the node over with its own path and cells; an
    * arrival as cheap adds its cells to the node's, sorted and deduplicated,
    * keeps the node's path, and is queued only when it brings a cell the
    * node did not list; a dearer arrival changes nothing. */
  method Meet16(origin: Vector, id: NodeId, data: NodeData, cur: map<NodeId, NodeData>, m: Move2)
    returns (cur': map<NodeId, NodeData>, queued: seq<(NodeId, NodeData)>)
    requires Step16(id, m) in cur
    ensures cur'.Keys == cur.Keys
    ensures forall K :: K in cur && K != Step16(id, m) ==> cur'[K] == cur[K]
    ensures queued == [] ==> cur' == cur
    ensures var K, s, path := Step16(id, m), data.s + CalcScore(m, id.d), data.path + [m];
      && (s < cur[K].s ==>
            cur'[K] == NodeData(s, path, PathPoints(origin, path)) && queued == [(K, cur'[K])])
      && (s > cur[K].s ==> queued == [])
      && (s == cur[K].s ==>
            cur'[K].s == s && cur'[K].path == cur[K].path &&
            (forall v :: v in cur'[K].pts <==> v in cur[K].pts || v in PathPoints(origin, path)) &&
            (queued != [] <==> exists v :: v in PathPoints(origin, path) && v !in cur[K].pts) &&
            (queued != [] ==> StrictlySorted(cur'[K].pts) && queued == [(K, NodeData(s, path, cur'[K].pts))]))
  {
    var key := Step16(id, m);
    var s := data.s + CalcScore(m, id.d);
    var existing := cur[key];
    cur', queued := cur, [];
    if s < existing.s {
      var path := data.path + [m];
      var pts := PathPoints(origin, path);
      cur' := cur[key := NodeData(s, path, pts)];
      queued := [(key, NodeData(s, path, pts))];
    } else if s == existing.s {
      var path := data.path + [m];
      var pts, grew := MergePts(existing.pts, PathPoints(origin, path));
      if grew {
        cur' := cur[key := existing.(pts := pts)];
        queued := [(key, NodeData(s, path, pts))];
      }
    }
  }

  // The cell list of an equal-score arrival: the held cells and the new
  // path's cells, sorted without repeats, and whether any cell was new.
  method MergePts(held: seq<Vector>, extra: seq<Vector>) returns (pts: seq<Vector>, grew: bool)
    ensures grew <==> exists v :: v in extra && v !in held
    ensures grew ==> StrictlySorted(pts) && forall v :: v in pts <==> v in held || v in extra
  {
    pts, grew := held, exists v :: v in extra && v !in held;
    if grew {
      pts := SortDedup(held + extra);
    }
  }

  // A node made by a move from (id, data) onto open floor: the longer path,
  // its cost, and a cell list holding the path's cells.
  ghost predicate Child16(mz: Maze, id: NodeId, data: NodeData, K: NodeId, v: NodeData)
    requires RowsShape(mz.rows)
  {
    var m := K.d;
    Space(mz.rows, ApplyDir(id.p, m)) && K == Step16(id, m) &&
    v.s == data.s + CalcScore(m, id.d) && v.path == data.path + [m] && Covers(mz.origin, v.path, v.pts)
  }

  // A held node kept, perhaps with more cells listed.
  ghost predicate Grown16(held: NodeData, v: NodeData)
  {
    v.s == held.s && v.path == held.path && forall u :: u in held.pts ==> u in v.pts
  }

  // Every node held after part of an expansion is a held one grown or a child.
  ghost predicate Derived16(mz: Maze, id: NodeId, data: NodeData, nodes: map<NodeId, NodeData>,
                            cur: map<NodeId, NodeData>)
    requires RowsShape(mz.rows)
  {
    forall K :: K in cur ==> (K in nodes && Grown16(nodes[K], cur[K])) || Child16(mz, id, data, K, cur[K])
  }

  ghost predicate Children16(mz: Maze, id: NodeId, data: NodeData, es: seq<(NodeId, NodeData)>)
    requires RowsShape(mz.rows)
  {
    forall e :: e in es ==> Child16(mz, id, data, e.0, e.1)
  }

  // What an expansion holds and queues is sound when what it started from is.
  lemma ExpandSound16(mz: Maze, id: NodeId, data: NodeData, nodes: map<NodeId, NodeData>,
                      nodes': map<NodeId, NodeData>, added: seq<(NodeId, NodeData)>)
    requires RowsShape(mz.rows) && Sound16(mz, id, data) && NodesSound16(mz, nodes)
    requires Derived16(mz, id, data, nodes, nodes') && Children16(mz, id, data, added)
    ensures NodesSound16(mz, nodes') && QueueSound16(mz, added)
  {
    forall K, v | Child16(mz, id, data, K, v)
      ensures Sound16(mz, K, v)
    {
      ChildSound16(mz, id, data, K.d, v.pts);
    }
    forall K | K in nodes'
      ensures Sound16(mz, K, nodes'[K])
    {
      if !Child16(mz, id, data, K, nodes'[K]) {
        assert Sound16(mz, K, nodes[K]);
        CoversMore(mz.origin, nodes[K].path, nodes[K].pts, nodes'[K].pts);
      }
    }
  }

  // A node grown from one derived from the held ones is derived too.
  lemma GrowDerived16(mz: Maze, id: NodeId, data: NodeData, nodes: map<NodeId, NodeData>,
                      K: NodeId, held: NodeData, stored: NodeData)
    requires RowsShape(mz.rows)
    requires (K in nodes && Grown16(nodes[K], held)) || Child16(mz, id, data, K, held)
    requires Grown16(held, stored)
    ensures (K in nodes && Grown16(nodes[K], stored)) || Child16(mz, id, data, K, stored)
  {
    if !(K in nodes && Grown16(nodes[K], held)) {
      CoversMore(mz.origin, held.path, held.pts, stored.pts);
    }
  }

  // Storing a derived node keeps every held node derived.
  lemma DerivedStore16(mz: Maze, id: NodeId, data: NodeData, nodes: map<NodeId, NodeData>,
                       cur: map<NodeId, NodeData>, K: NodeId, v: NodeData)
    requires RowsShape(mz.rows) && Derived16(mz, id, data, nodes, cur)
    requires (K in nodes && Grown16(nodes[K], v)) || Child16(mz, id, data, K, v)
    ensures Derived16(mz, id, data, nodes, cur[K := v])
  {
  }

  // A held neighbour met through id (src/solve.rs:84-116), with what the
  // filter keeps track of: every change is a child or a grown node, and
  // every lowered score is queued.
  method Lower16(mz: Maze, id: NodeId, data: NodeData, nodes: map<NodeId, NodeData>,
                 cur: map<NodeId, NodeData>, added: seq<(NodeId, NodeData)>, m: Move2)
    returns (cur': map<NodeId, NodeData>, added': seq<(NodeId, NodeData)>)
    requires RowsShape(mz.rows) && Space(mz.rows, ApplyDir(id.p, m))
    requires Step16(id, m) in cur && cur.Keys == nodes.Keys
    requires Derived16(mz, id, data, nodes, cur) && LoweredQueued16(nodes, cur, added)
    requires Children16(mz, id, data, added) && Above16(cur, added)
    ensures cur'.Keys == nodes.Keys && Derived16(mz, id, data, nodes, cur') && LoweredQueued16(nodes, cur', added')
    ensures Children16(mz, id, data, added') && Above16(cur', added')
    ensures forall K :: K in cur && K != Step16(id, m) ==> cur'[K] == cur[K]
    ensures cur'[Step16(id, m)].s <= data.s + CalcScore(m, id.d)
  {
    var K := Step16(id, m);
    var queued;
    cur', queued := Meet16(mz.origin, id, data, cur, m);
    added' := added + queued;
    if queued != [] {
      var held, stored, sent := cur[K], cur'[K], queued[0].1;
      assert queued == [(K, sent)] && cur' == cur[K := stored];
      assert Child16(mz, id, data, K, sent) by {
        CoversPathPoints(mz.origin, sent.path, sent.pts);
      }
      assert Derived16(mz, id, data, nodes, cur') by {
        if stored != sent {
          GrowDerived16(mz, id, data, nodes, K, held, stored);
        }
        DerivedStore16(mz, id, data, nodes, cur, K, stored);
      }
      assert Children16(mz, id, data, added') && Tokens(added') == Tokens(added) + {(K, sent.s)} by {
        QueueChild16(mz, id, data, added, K, sent);
      }
      assert Above16(cur', added') by {
        StoreChild16(mz, id, data, cur, added, K, stored);
      }
    }
  }

  // The filter over the four neighbours (src/solve.rs:74-118): held keys are
  // met as above, and the open neighbours whose keys are not held yet are
  // returned in `ALLMOVES2` order.
  method Relax16(mz: Maze, id: NodeId, data: NodeData, nodes: map<NodeId, NodeData>)
    returns (nodes': map<NodeId, NodeData>, added: seq<(NodeId, NodeData)>, unseen: seq<Move2>)
    requires RowsShape(mz.rows) && Inside(mz.rows, id.p)
    ensures nodes'.Keys == nodes.Keys && Derived16(mz, id, data, nodes, nodes')
    ensures LoweredQueued16(nodes, nodes', added)
    ensures forall m :: Looked16(mz.rows, id, data, nodes, nodes', unseen, m)
    ensures Increasing(unseen)
    ensures forall m :: m in unseen ==> Space(mz.rows, ApplyDir(id.p, m)) && Step16(id, m) !in nodes
    ensures Children16(mz, id, data, added) && Above16(nodes', added)
    ensures forall K :: K in nodes && K.p == id.p ==> nodes'[K] == nodes[K]
  {
    Neighbours(mz.rows, id.p);
    nodes', added, unseen := nodes, [], [];
    for k := 0 to 4
      invariant nodes'.Keys == nodes.Keys && Derived16(mz, id, data, nodes, nodes')
      invariant LoweredQueued16(nodes, nodes', added)
      invariant forall m :: Code(m) < k ==> Looked16(mz.rows, id, data, nodes, nodes', unseen, m)
      invariant Increasing(unseen)
      invariant forall x :: x in unseen ==> Code(x) < k
      invariant forall m :: m in unseen ==> Space(mz.rows, ApplyDir(id.p, m)) && Step16(id, m) !in nodes
      invariant Children16(mz, id, data, added) && Above16(nodes', added)
      invariant forall K :: K in nodes && K.p == id.p ==> nodes'[K] == nodes[K]
    {
      AllMovesCodes(k);
      var m := ALLMOVES2[k];
      var q := ApplyDir(id.p, m);
      ghost var before, unseen0 := nodes', unseen;
      if !BitAt(mz.rows, q) {
        if Step16(id, m) in nodes' {
          nodes', added := Lower16(mz, id, data, nodes, nodes', added, m);
        } else {
          IncreasingSnoc(unseen, m);
          unseen := unseen + [m];
        }
      }
      forall m' | Code(m') < k + 1
        ensures Looked16(mz.rows, id, data, nodes, nodes', unseen, m')
      {
        if m' != m {
          assert Looked16(mz.rows, id, data, nodes, before, unseen0, m');
        }
      }
    }
  }

  // The insertion of the neighbours whose keys are not held yet
  // (src/solve.rs:120-128), each with its path's cells.
  method Insert16(mz: Maze, id: NodeId, data: NodeData, nodes: map<NodeId, NodeData>, unseen: seq<Move2>)
    returns (nodes': map<NodeId, NodeData>, added: seq<(NodeId, NodeData)>)
    requires RowsShape(mz.rows)
    requires forall m :: m in unseen ==> Space(mz.rows, ApplyDir(id.p, m)) && Step16(id, m) !in nodes
    ensures nodes.Keys <= nodes'.Keys && forall K :: K in nodes ==> nodes'[K] == nodes[K]
    ensures forall m :: m in unseen ==>
              Step16(id, m) in nodes' && nodes'[Step16(id, m)].s == data.s + CalcScore(m, id.d)
    ensures NewQueued16(mz, id, data, nodes, nodes', added)
    ensures Children16(mz, id, data, added) && Above16(nodes', added)
  {
    nodes', added := nodes, [];
    for k := 0 to |unseen|
      invariant nodes.Keys <= nodes'.Keys && forall K :: K in nodes ==> nodes'[K] == nodes[K]
      invariant forall i :: 0 <= i < k ==>
                  Step16(id, unseen[i]) in nodes' && nodes'[Step16(id, unseen[i])].s == data.s + CalcScore(unseen[i], id.d)
      invariant NewQueued16(mz, id, data, nodes, nodes', added)
      invariant Children16(mz, id, data, added) && Above16(nodes', added)
    {
      var m := unseen[k];
      assert m in unseen;
      ghost var before := nodes';
      nodes', added := Place16(mz, id, data, nodes, nodes', added, m);
      forall i | 0 <= i < k + 1
        ensures Step16(id, unseen[i]) in nodes' &&
                nodes'[Step16(id, unseen[i])].s == data.s + CalcScore(unseen[i], id.d)
      {
        if unseen[i] != m {
          assert Step16(id, unseen[i]) in before;
        }
      }
    }
    forall m | m in unseen
      ensures Step16(id, m) in nodes' && nodes'[Step16(id, m)].s == data.s + CalcScore(m, id.d)
    {
      var i :| 0 <= i < |unseen| && unseen[i] == m;
    }
  }

  // Every node held that was not held before is a child, queued with its score.
  ghost predicate NewQueued16(mz: Maze, id: NodeId, data: NodeData, nodes: map<NodeId, NodeData>,
                              cur: map<NodeId, NodeData>, added: seq<(NodeId, NodeData)>)
    requires RowsShape(mz.rows)
  {
    forall K :: K in cur && K !in nodes ==> Child16(mz, id, data, K, cur[K]) && (K, cur[K].s) in Tokens(added)
  }

  // One neighbour not held before inserted with its path's cells, and queued.
  method Place16(mz: Maze, id: NodeId, data: NodeData, nodes: map<NodeId, NodeData>,
                 cur: map<NodeId, NodeData>, added: seq<(NodeId, NodeData)>, m: Move2)
    returns (cur': map<NodeId, NodeData>, added': seq<(NodeId, NodeData)>)
    requires RowsShape(mz.rows) && Space(mz.rows, ApplyDir(id.p, m)) && Step16(id, m) !in nodes
    requires nodes.Keys <= cur.Keys && NewQueued16(mz, id, data, nodes, cur, added)
    requires Children16(mz, id, data, added) && Above16(cur, added)
    ensures cur'.Keys == cur.Keys + {Step16(id, m)}
    ensures forall K :: K in cur && K != Step16(id, m) ==> cur'[K] == cur[K]
    ensures cur'[Step16(id, m)].s == data.s + CalcScore(m, id.d)
    ensures NewQueued16(mz, id, data, nodes, cur', added')
    ensures Children16(mz, id, data, added') && Above16(cur', added')
  {
    var key := Step16(id, m);
    var path := data.path + [m];
    var pp := PathPoints(mz.origin, path);
    var val := NodeData(data.s + CalcScore(m, id.d), path, pp);
    cur' := cur[key := val];
    added' := added + [(key, val)];
    assert Child16(mz, id, data, key, val) by {
      CoversPathPoints(mz.origin, path, pp);
    }
    assert NewQueued16(mz, id, data, nodes, cur', added') && Children16(mz, id, data, added') by {
      QueueChild16(mz, id, data, added, key, val);
      NewStore16(mz, id, data, nodes, cur, added, key, val);
    }
    assert Above16(cur', added') by {
      StoreChild16(mz, id, data, cur, added, key, val);
    }
  }

  // Queueing a child keeps the queue made of children, and adds its token.
  lemma QueueChild16(mz: Maze, id: NodeId, data: NodeData, added: seq<(NodeId, NodeData)>, K: NodeId, v: NodeData)
    requires RowsShape(mz.rows) && Children16(mz, id, data, added) && Child16(mz, id, data, K, v)
    ensures Children16(mz, id, data, added + [(K, v)])
    ensures Tokens(added + [(K, v)]) == Tokens(added) + {(K, v.s)}
  {
    var added' := added + [(K, v)];
    assert forall e :: e in added' ==> e in added || e == (K, v);
    assert (K, v) in added';
  }

  // Storing a new child keeps every node not held before a queued child.
  lemma NewStore16(mz: Maze, id: NodeId, data: NodeData, nodes: map<NodeId, NodeData>,
                   cur: map<NodeId, NodeData>, added: seq<(NodeId, NodeData)>, K: NodeId, v: NodeData)
    requires RowsShape(mz.rows) && NewQueued16(mz, id, data, nodes, cur, added)
    requires K !in nodes && Child16(mz, id, data, K, v)
    requires Tokens(added + [(K, v)]) == Tokens(added) + {(K, v.s)}
    ensures NewQueued16(mz, id, data, nodes, cur[K := v], added + [(K, v)])
  {
  }

  // Storing a node as cheap as the children for its key keeps the queue of
  // children above the held nodes: all children for one key carry one score.
  lemma StoreChild16(mz: Maze, id: NodeId, data: NodeData, cur: map<NodeId, NodeData>,
                     added: seq<(NodeId, NodeData)>, K: NodeId, v: NodeData)
    requires RowsShape(mz.rows) && Children16(mz, id, data, added) && Above16(cur, added)
    requires v.s == data.s + CalcScore(K.d, id.d)
    ensures Above16(cur[K := v], added + [(K, v)])
  {
    var added' := added + [(K, v)];
    forall e | e in added'
      ensures e.0 in cur[K := v] && cur[K := v][e.0].s <= e.1.s
    {
      if e != (K, v) {
        assert e in added;
      }
    }
  }

  /** One edge node expanded (src/solve.rs:70-129): every open neighbour's
    * key ends up held with a score no worse than through this node; scores
    * only ever go down, and every node inserted or lowered is queued with
    * its new score. */
  method Expand16(mz: Maze, id: NodeId, data: NodeData, nodes: map<NodeId, NodeData>)
    returns (nodes': map<NodeId, NodeData>, added: seq<(NodeId, NodeData)>)
    requires RowsShape(mz.rows) && Inside(mz.rows, id.p)
    requires Sound16(mz, id, data) && NodesSound16(mz, nodes)
    ensures nodes.Keys <= nodes'.Keys && NodesSound16(mz, nodes')
    ensures forall K :: K in nodes ==> nodes'[K].s <= nodes[K].s
    ensures forall K :: K in nodes' && (K in nodes ==> nodes'[K].s != nodes[K].s) ==>
              (K, nodes'[K].s) in Tokens(added)
    ensures forall m :: Space(mz.rows, ApplyDir(id.p, m)) ==>
              Step16(id, m) in nodes' && nodes'[Step16(id, m)].s <= data.s + CalcScore(m, id.d)
    ensures QueueSound16(mz, added) && Above16(nodes', added)
    ensures forall K :: K in nodes && K.p == id.p ==> nodes'[K] == nodes[K]
  {
    var mid, lowered, unseen := Relax16(mz, id, data, nodes);
    var inserted;
    nodes', inserted := Insert16(mz, id, data, mid, unseen);
    added := lowered + inserted;
    assert Tokens(added) == Tokens(lowered) + Tokens(inserted);
    assert Derived16(mz, id, data, nodes, nodes');
    ExpandSound16(mz, id, data, nodes, nodes', added);
    forall m | Space(mz.rows, ApplyDir(id.p, m))
      ensures Step16(id, m) in nodes' && nodes'[Step16(id, m)].s <= data.s + CalcScore(m, id.d)
    {
      assert Looked16(mz.rows, id, data, nodes, mid, unseen, m);
    }
  }

  // ---------------------------------------------------------------------
  // The state find_best_path_16 keeps between visits

  // The deer's own key, where the search starts.
  function StartKey(mz: Maze): NodeId
  {
    NodeId(mz.start, mz.facing)
  }

  // Every open neighbour of a relaxed key is held with a score no worse
  // than through that key.
  ghost predicate Relaxed16(mz: Maze, nodes: map<NodeId, NodeData>, R: set<NodeId>)
    requires RowsShape(mz.rows)
  {
    R <= nodes.Keys &&
    forall K, m :: K in R && Space(mz.rows, ApplyDir(K.p, m)) ==>
      Step16(K, m) in nodes && nodes[Step16(K, m)].s <= nodes[K].s + CalcScore(m, K.d)
  }

  // Every held key is relaxed, or queued with the score it is held with.
  ghost predicate Covered16(nodes: map<NodeId, NodeData>, R: set<NodeId>,
                            a: seq<(NodeId, NodeData)>, b: seq<(NodeId, NodeData)>)
  {
    forall K :: K in nodes ==> K in R || (K, nodes[K].s) in Tokens(a) || (K, nodes[K].s) in Tokens(b)
  }

  // The recorded solutions are sound walks to the end point with one score,
  // held no worse; every relaxed key at the end point is matched by them.
  ghost predicate Best16(mz: Maze, nodes: map<NodeId, NodeData>, R: set<NodeId>, sols: seq<(NodeId, NodeData)>)
    requires RowsShape(mz.rows)
  {
    (forall e :: e in sols ==>
       e.0.p == mz.end && Sound16(mz, e.0, e.1) && e.1.s == sols[0].1.s && e.0 in nodes && nodes[e.0].s <= e.1.s) &&
    (forall K :: K in R && K in nodes && K.p == mz.end ==> |sols| > 0 && sols[0].1.s <= nodes[K].s)
  }

  // The state within a round: the deer's key held at score 0, everything
  // held or queued sound, the queues above the held scores, and the
  // relaxed keys, queued keys and solutions as above.
  ghost predicate Within16(mz: Maze, nodes: map<NodeId, NodeData>, pending: seq<(NodeId, NodeData)>,
                           extra: seq<(NodeId, NodeData)>, sols: seq<(NodeId, NodeData)>, R: set<NodeId>)
    requires RowsShape(mz.rows)
  {
    StartKey(mz) in nodes && nodes[StartKey(mz)].s == 0 &&
    NodesSound16(mz, nodes) && QueueSound16(mz, pending) && QueueSound16(mz, extra) &&
    Above16(nodes, pending) && Above16(nodes, extra) &&
    Relaxed16(mz, nodes, R) && Covered16(nodes, R, pending, extra) && Best16(mz, nodes, R, sols)
  }

  // The relaxed keys whose scores a visit left alone.
  ghost function Kept16(R: set<NodeId>, nodes: map<NodeId, NodeData>, nodes': map<NodeId, NodeData>): set<NodeId>
  {
    set K | K in R && K in nodes && K in nodes' && nodes'[K].s == nodes[K].s
  }

  // After a visit, the relaxed keys are those left alone, and the visited
  // key when its queued score was its held one.
  lemma RelaxKeep16(mz: Maze, id: NodeId, data: NodeData, nodes: map<NodeId, NodeData>,
                    nodes': map<NodeId, NodeData>, R: set<NodeId>)
    requires RowsShape(mz.rows) && Relaxed16(mz, nodes, R) && id in nodes
    requires nodes.Keys <= nodes'.Keys && forall K :: K in nodes ==> nodes'[K].s <= nodes[K].s
    requires nodes'[id] == nodes[id]
    requires forall m :: Space(mz.rows, ApplyDir(id.p, m)) ==>
               Step16(id, m) in nodes' && nodes'[Step16(id, m)].s <= data.s + CalcScore(m, id.d)
    ensures Relaxed16(mz, nodes', Kept16(R, nodes, nodes') + (if data.s == nodes[id].s then {id} else {}))
  {
  }

  // After a visit, every held key is relaxed or still queued.
  lemma CoverKeep16(nodes: map<NodeId, NodeData>, nodes': map<NodeId, NodeData>, R: set<NodeId>,
                    pending: seq<(NodeId, NodeData)>, extra: seq<(NodeId, NodeData)>,
                    added: seq<(NodeId, NodeData)>, id: NodeId, data: NodeData)
    requires |pending| > 0 && pending[0] == (id, data) && id in nodes
    requires Covered16(nodes, R, pending, extra) && R <= nodes.Keys
    requires nodes.Keys <= nodes'.Keys && nodes'[id] == nodes[id]
    requires forall K :: K in nodes' && (K in nodes ==> nodes'[K].s != nodes[K].s) ==>
               (K, nodes'[K].s) in Tokens(added)
    ensures Covered16(nodes', Kept16(R, nodes, nodes') + (if data.s == nodes[id].s then {id} else {}),
                      pending[1..], extra + added)
  {
    var R' := Kept16(R, nodes, nodes') + (if data.s == nodes[id].s then {id} else {});
    forall K | K in nodes'
      ensures K in R' || (K, nodes'[K].s) in Tokens(pending[1..]) || (K, nodes'[K].s) in Tokens(extra + added)
    {
      if K in nodes && nodes'[K].s == nodes[K].s {
        if K !in R && (K, nodes[K].s) in Tokens(pending) {
          var e :| e in pending && (e.0, e.1.s) == (K, nodes[K].s);
          if e != pending[0] {
            assert pending == [pending[0]] + pending[1..];
            assert e in pending[1..];
          }
        } else if K !in R {
          var e :| e in extra && (e.0, e.1.s) == (K, nodes[K].s);
          assert e in extra + added;
        }
      } else {
        var e :| e in added && (e.0, e.1.s) == (K, nodes'[K].s);
        assert e in extra + added;
      }
    }
  }

  // A visit's record of solutions (src/solve.rs:57-67): a cheaper arrival at
  // the end point replaces them, one as cheap joins them.
  lemma BestKeep16(mz: Maze, id: NodeId, data: NodeData, nodes: map<NodeId, NodeData>,
                   nodes': map<NodeId, NodeData>, R: set<NodeId>, sols: seq<(NodeId, NodeData)>,
                   sols': seq<(NodeId, NodeData)>)
    requires RowsShape(mz.rows) && Best16(mz, nodes, R, sols) && R <= nodes.Keys
    requires Sound16(mz, id, data) && id in nodes && nodes[id].s <= data.s
    requires nodes.Keys <= nodes'.Keys && forall K :: K in nodes ==> nodes'[K].s <= nodes[K].s
    requires nodes'[id] == nodes[id]
    requires (id.p != mz.end && sols' == sols) ||
             (id.p == mz.end && (|sols| == 0 || data.s < sols[0].1.s) && sols' == [(id, data)]) ||
             (id.p == mz.end && |sols| > 0 && data.s == sols[0].1.s && sols' == sols + [(id, data)]) ||
             (id.p == mz.end && |sols| > 0 && data.s > sols[0].1.s && sols' == sols)
    ensures Best16(mz, nodes', Kept16(R, nodes, nodes') + (if data.s == nodes[id].s then {id} else {}), sols')
  {
    assert |sols'| > 0 ==> sols'[0] == (id, data) || sols'[0] == sols[0];
    forall e | e in sols'
      ensures e.0.p == mz.end && Sound16(mz, e.0, e.1) && e.1.s == sols'[0].1.s &&
              e.0 in nodes' && nodes'[e.0].s <= e.1.s
    {
      if e != (id, data) {
        assert e in sols;
      }
    }
  }

  /** A visit to the first pending node (src/solve.rs:52-129): recorded as a
    * solution when it is at the end point and no recorded one is cheaper,
    * then expanded. */
  method Visit16(mz: Maze, nodes: map<NodeId, NodeData>, pending: seq<(NodeId, NodeData)>,
                 extra: seq<(NodeId, NodeData)>, sols: seq<(NodeId, NodeData)>, ghost R: set<NodeId>)
    returns (nodes': map<NodeId, NodeData>, extra': seq<(NodeId, NodeData)>,
             sols': seq<(NodeId, NodeData)>, ghost R': set<NodeId>)
    requires RowsShape(mz.rows) && Enclosed(mz.rows, mz.start) && |pending| > 0
    requires Within16(mz, nodes, pending, extra, sols, R)
    ensures Within16(mz, nodes', pending[1..], extra', sols', R')
  {
    var (id, data) := pending[0];
    assert pending[0] in pending;
    sols' := sols;
    if id.p == mz.end {
      if |sols| == 0 || data.s < sols[0].1.s {
        sols' := [(id, data)];
      } else if data.s == sols[0].1.s {
        sols' := sols + [(id, data)];
      }
    }
    assert Inside(mz.rows, id.p) by {
      assert SpaceWalk(mz.rows, mz.start, data.path);
    }
    var added;
    nodes', added := Expand16(mz, id, data, nodes);
    extra' := extra + added;
    R' := Kept16(R, nodes, nodes') + (if data.s == nodes[id].s then {id} else {});
    RelaxKeep16(mz, id, data, nodes, nodes', R);
    CoverKeep16(nodes, nodes', R, pending, extra, added, id, data);
    BestKeep16(mz, id, data, nodes, nodes', R, sols, sols');
    QueueKeep16(mz, nodes, nodes', pending, extra, added);
  }

  // Lowered scores keep the queues above the held ones; the visited entry
  // leaves the pending queue and the expansion's entries join the next.
  lemma QueueKeep16(mz: Maze, nodes: map<NodeId, NodeData>, nodes': map<NodeId, NodeData>,
                    pending: seq<(NodeId, NodeData)>, extra: seq<(NodeId, NodeData)>, added: seq<(NodeId, NodeData)>)
    requires RowsShape(mz.rows) && |pending| > 0
    requires QueueSound16(mz, pending) && QueueSound16(mz, extra) && QueueSound16(mz, added)
    requires Above16(nodes, pending) && Above16(nodes, extra) && Above16(nodes', added)
    requires nodes.Keys <= nodes'.Keys && forall K :: K in nodes ==> nodes'[K].s <= nodes[K].s
    ensures QueueSound16(mz, pending[1..]) && QueueSound16(mz, extra + added)
    ensures Above16(nodes', pending[1..]) && Above16(nodes', extra + added)
  {
    assert forall e :: e in pending[1..] ==> e in pending;
    assert forall e :: e in extra + added ==> e in extra || e in added;
  }

  // The queue for the next round is what the round queued.
  lemma SwapQueues16(mz: Maze, nodes: map<NodeId, NodeData>, extra: seq<(NodeId, NodeData)>,
                     sols: seq<(NodeId, NodeData)>, R: set<NodeId>)
    requires RowsShape(mz.rows) && Within16(mz, nodes, [], extra, sols, R)
    ensures Within16(mz, nodes, extra, [], sols, R)
  {
    assert Tokens([]) == {};
  }

  /** One round of `find_best_path_16` (src/solve.rs:49-133): every queued
    * node is visited in turn; the nodes the visits insert, lower or reach
    * with new cells are queued for the next round. */
  method Round16(mz: Maze, nodes: map<NodeId, NodeData>, edges: seq<(NodeId, NodeData)>,
                 sols: seq<(NodeId, NodeData)>, ghost R: set<NodeId>)
    returns (nodes': map<NodeId, NodeData>, extra: seq<(NodeId, NodeData)>,
             sols': seq<(NodeId, NodeData)>, ghost R': set<NodeId>)
    requires RowsShape(mz.rows) && Enclosed(mz.rows, mz.start)
    requires Within16(mz, nodes, edges, [], sols, R)
    ensures Within16(mz, nodes', extra, [], sols', R')
  {
    nodes', extra, sols', R' := nodes, [], sols, R;
    assert edges[0..] == edges;
    for i := 0 to |edges|
      invariant Within16(mz, nodes', edges[i..], extra, sols', R')
    {
      nodes', extra, sols', R' := Visit16(mz, nodes', edges[i..], extra, sols', R');
      assert edges[i..][1..] == edges[i + 1..];
    }
    assert edges[|edges|..] == [];
    SwapQueues16(mz, nodes', extra, sols', R');
  }

  // With nothing queued, every key a walk over open floor ends in is held
  // no worse than the walk's cost.
  lemma {:induction false} Exhausted16(mz: Maze, nodes: map<NodeId, NodeData>, R: set<NodeId>, path: seq<Move2>)
    requires RowsShape(mz.rows) && StartKey(mz) in nodes && nodes[StartKey(mz)].s == 0
    requires Relaxed16(mz, nodes, R) && nodes.Keys <= R
    requires SpaceWalk(mz.rows, mz.start, path)
    ensures WalkKey(mz, path) in nodes && nodes[WalkKey(mz, path)].s <= WalkCost(mz.facing, path)
    decreases |path|
  {
    if path != [] {
      var q, m := path[..|path| - 1], path[|path| - 1];
      assert path == q + [m];
      WalkSnoc(mz.rows, mz.start, q, m);
      WalkCostSnoc(mz.facing, q, m);
      Exhausted16(mz, nodes, R, q);
      assert WalkKey(mz, path) == Step16(WalkKey(mz, q), m);
    }
  }

  // With nothing queued, the solutions are at least as cheap as every walk
  // from the deer to the end point.
  lemma Optimal16(mz: Maze, nodes: map<NodeId, NodeData>, sols: seq<(NodeId, NodeData)>, R: set<NodeId>)
    requires RowsShape(mz.rows) && Within16(mz, nodes, [], [], sols, R)
    ensures forall p :: WalkTo(mz.rows, mz.start, mz.end, p) ==> |sols| > 0 && sols[0].1.s <= WalkCost(mz.facing, p)
  {
    assert Tokens([]) == {};
    forall p | WalkTo(mz.rows, mz.start, mz.end, p)
      ensures |sols| > 0 && sols[0].1.s <= WalkCost(mz.facing, p)
    {
      Exhausted16(mz, nodes, R, p);
    }
  }

  // The state before the first round: only the deer's key held and queued.
  lemma Start16(mz: Maze, first: NodeData)
    requires RowsShape(mz.rows) && first.s == 0 && first.path == []
    ensures Within16(mz, map[StartKey(mz) := first], [(StartKey(mz), first)], [], [], {})
  {
    var K := StartKey(mz);
    assert Sound16(mz, K, first);
    assert (K, first) in [(K, first)];
    assert (K, 0) in Tokens([(K, first)]);
  }

  /** `find_best_path_16`: rounds of expansion from the deer over (point,
    * facing) keys, each move costing 1 plus 1000 per quarter turn. A result
    * is a walk over open floor from the deer to the end, scored by its cost,
    * never reporting the round limit as hit, whose visited cells cover a
    * walk to the end no dearer than it. When the queue empties before the
    * round limit (the ghost `exhausted`), a result is a cheapest walk and no
    * result means no walk reaches the end. */
  method FindBestPath16(level: Level, maxDepth: nat) returns (r: Option<Solution>, ghost exhausted: bool)
    requires level.Valid() && Enclosed(level.wallBmp.bitmap, level.deerPos)
    requires maxDepth <= MAX_MOVES
    ensures r.Some? ==> WalkTo(level.wallBmp.bitmap, level.deerPos, level.endPos, r.value.path)
    ensures r.Some? ==> r.value.score == WalkCost(level.deerDir, r.value.path) && !r.value.maxDepthHit
    ensures r.Some? ==> exists p :: WalkTo(level.wallBmp.bitmap, level.deerPos, level.endPos, p) &&
                          WalkCost(level.deerDir, p) <= r.value.score &&
                          forall k :: 1 <= k <= |p| ==> Walk(level.startPos, p[..k]) in r.value.visited
    ensures exhausted && r.Some? ==> forall p :: WalkTo(level.wallBmp.bitmap, level.deerPos, level.endPos, p) ==>
                                       r.value.score <= WalkCost(level.deerDir, p)
    ensures exhausted && r.None? ==> forall p :: !WalkTo(level.wallBmp.bitmap, level.deerPos, level.endPos, p)
  {
    var mz := Maze(level.wallBmp.bitmap, level.deerPos, level.deerDir, level.endPos, level.startPos);
    var depth: nat := 0;
    var first := NodeData(0, [], [level.deerPos]);
    var nodes := map[StartKey(mz) := first];
    var edges := [(StartKey(mz), first)];
    var solutions: seq<(NodeId, NodeData)> := [];
    ghost var R: set<NodeId> := {};
    Start16(mz, first);
    while |edges| > 0 && depth < maxDepth
      invariant Within16(mz, nodes, edges, [], solutions, R)
      decreases maxDepth - depth
    {
      nodes, edges, solutions, R := Round16(mz, nodes, edges, solutions, R);
      depth := depth + 1;
    }
    exhausted := |edges| == 0;
    if exhausted {
      Optimal16(mz, nodes, solutions, R);
    }
    if |solutions| > 0 {
      var (key, data) := solutions[0];
      assert solutions[0] in solutions;
      var pts := nodes[key].pts;
      CoversPrefixes(mz.origin, nodes[key].path, pts);
      r := Some(Solution(data.s, data.path, pts, false));
    } else {
      r := None;
    }
  }
}
