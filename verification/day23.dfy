// src/day23.rs: a network of computers named by two bytes. Each input line
// `ab-cd` links two computers both ways. Part one lists the trios of
// mutually linked computers, each once, and counts those with a member
// whose name starts with 't'. Part two grows, from every computer, a set of
// computers that share most of their links and keeps the largest such set,
// answering its names joined by commas.
//
// The ordered map and ordered sets of src/day23.rs are modelled by ascending
// sequences, so iteration happens in the same (ascending) order.
module Day23 {

  datatype Id = Id(first: char, second: char)

  // The byte order the ordered containers sort by.
  predicate Less(x: Id, y: Id)
  {
    x.first < y.first || (x.first == y.first && x.second < y.second)
  }

  predicate Ascending(s: seq<Id>)
  {
    forall i, j :: 0 <= i < j < |s| ==> Less(s[i], s[j])
  }

  // Inserting into an ordered set.
  function Insert(s: seq<Id>, x: Id): (r: seq<Id>)
    requires Ascending(s)
    ensures Ascending(r)
    ensures forall y :: y in r <==> y in s || y == x
    ensures x in s ==> r == s
    ensures x !in s ==> |r| == |s| + 1
    decreases |s|
  {
    if s == [] then [x]
    else if x == s[0] then s
    else if Less(x, s[0]) then [x] + s
    else
      var rest := Insert(s[1..], x);
      assert s == [s[0]] + s[1..];
      assert Less(s[0], x);
      assert forall y :: y in rest ==> Less(s[0], y) by {
        forall y | y in rest
          ensures Less(s[0], y)
        {
          if y != x {
            var j :| 0 <= j < |s[1..]| && s[1..][j] == y;
            assert s[j + 1] == y;
          }
        }
      }
      [s[0]] + rest
  }

  // `a.intersection(b)`: the members of a that are in b, in a's order.
  function Common(a: seq<Id>, b: seq<Id>): (r: seq<Id>)
    ensures forall y :: y in r <==> y in a && y in b
    ensures |r| <= |a|
    ensures Ascending(a) ==> Ascending(r)
    decreases |a|
  {
    if a == [] then []
    else
      var rest := Common(a[..|a| - 1], b);
      var last := a[|a| - 1];
      assert a == a[..|a| - 1] + [last];
      if last in b then
        assert Ascending(a) ==> forall y :: y in rest ==> Less(y, last) by {
          if Ascending(a) {
            forall y | y in rest
              ensures Less(y, last)
            {
              var j :| 0 <= j < |a| - 1 && a[j] == y;
            }
          }
        }
        rest + [last]
      else rest
  }

  // ---------------------------------------------------------------------
  // The graph

  // The ordered map: its keys in ascending order and, per key, the ordered
  // set of linked computers.
  datatype Graph = Graph(keys: seq<Id>, conns: map<Id, seq<Id>>)

  ghost predicate Valid(g: Graph)
  {
    Ascending(g.keys) && (forall k :: k in g.conns <==> k in g.keys) &&
    forall k :: k in g.conns ==> Ascending(g.conns[k])
  }

  predicate Edge(g: Graph, a: Id, b: Id)
  {
    a in g.conns && b in g.conns[a]
  }

  ghost predicate Symmetric(g: Graph)
  {
    forall a, b :: Edge(g, a, b) ==> Edge(g, b, a)
  }

  // Adds b to a's links, making a's node when it is new.
  function Link(g: Graph, a: Id, b: Id): (r: Graph)
    requires Valid(g)
    ensures Valid(r)
  {
    if a in g.conns then Graph(g.keys, g.conns[a := Insert(g.conns[a], b)])
    else Graph(Insert(g.keys, a), g.conns[a := [b]])
  }

  lemma LinkEdges(g: Graph, a: Id, b: Id)
    requires Valid(g)
    ensures forall x, y :: Edge(Link(g, a, b), x, y) <==> Edge(g, x, y) || (x == a && y == b)
  {
  }

  function AddPair(g: Graph, p: (Id, Id)): (r: Graph)
    requires Valid(g)
    ensures Valid(r)
  {
    Link(Link(g, p.0, p.1), p.1, p.0)
  }

  // The graph after the given pairs.
  function Built(pairs: seq<(Id, Id)>): (g: Graph)
    ensures Valid(g)
    decreases |pairs|
  {
    if pairs == [] then Graph([], map[])
    else AddPair(Built(pairs[..|pairs| - 1]), pairs[|pairs| - 1])
  }

  // Some pair joins a and b, in either order.
  predicate Linked(pairs: seq<(Id, Id)>, a: Id, b: Id)
    decreases |pairs|
  {
    pairs != [] &&
    (Linked(pairs[..|pairs| - 1], a, b) || pairs[|pairs| - 1] == (a, b) || pairs[|pairs| - 1] == (b, a))
  }

  lemma {:induction false} LinkedSymmetric(pairs: seq<(Id, Id)>, a: Id, b: Id)
    ensures Linked(pairs, a, b) <==> Linked(pairs, b, a)
    decreases |pairs|
  {
    if pairs != [] {
      LinkedSymmetric(pairs[..|pairs| - 1], a, b);
    }
  }

  // The links are exactly the input pairs, both ways.
  lemma {:induction false} BuiltEdges(pairs: seq<(Id, Id)>, a: Id, b: Id)
    ensures Edge(Built(pairs), a, b) <==> Linked(pairs, a, b)
    decreases |pairs|
  {
    if pairs != [] {
      var prev := Built(pairs[..|pairs| - 1]);
      var p := pairs[|pairs| - 1];
      BuiltEdges(pairs[..|pairs| - 1], a, b);
      LinkEdges(prev, p.0, p.1);
      LinkEdges(Link(prev, p.0, p.1), p.1, p.0);
    }
  }

  // Adjacency is symmetric.
  lemma BuiltSymmetric(pairs: seq<(Id, Id)>)
    ensures Symmetric(Built(pairs))
  {
    forall a, b | Edge(Built(pairs), a, b)
      ensures Edge(Built(pairs), b, a)
    {
      BuiltEdges(pairs, a, b);
      LinkedSymmetric(pairs, a, b);
      BuiltEdges(pairs, b, a);
    }
  }

  // ---------------------------------------------------------------------
  // Reading the input

  // Every non-empty line has the five bytes `ab-cd` the parser indexes.
  predicate Readable(lines: seq<string>)
  {
    forall i :: 0 <= i < |lines| ==> |lines[i]| == 0 || |lines[i]| >= 5
  }

  function Pairs(lines: seq<string>): (ps: seq<(Id, Id)>)
    requires Readable(lines)
    ensures |ps| <= |lines|
    decreases |lines|
  {
    if lines == [] then []
    else
      var l := lines[|lines| - 1];
      var rest := Pairs(lines[..|lines| - 1]);
      if |l| == 0 then rest else rest + [(Id(l[0], l[1]), Id(l[3], l[4]))]
  }

  // The graph-building loop, with the two `get_mut` lookups.
  method BuildGraph(pairs: seq<(Id, Id)>) returns (g: Graph)
    ensures g == Built(pairs)
  {
    g := Graph([], map[]);
    for i := 0 to |pairs|
      invariant g == Built(pairs[..i])
    {
      assert pairs[..i + 1][..i] == pairs[..i];
      var (a, b) := pairs[i];
      if a in g.conns {
        g := g.(conns := g.conns[a := Insert(g.conns[a], b)]);
      } else {
        g := Graph(Insert(g.keys, a), g.conns[a := [b]]);
      }
      if b in g.conns {
        g := g.(conns := g.conns[b := Insert(g.conns[b], a)]);
      } else {
        g := Graph(Insert(g.keys, b), g.conns[b := [a]]);
      }
    }
    assert pairs[..|pairs|] == pairs;
  }

  // ---------------------------------------------------------------------
  // Part one: trios

  // `permutations(3)` of [a, b, c], in the iterator's order.
  function Permutations(t: seq<Id>): (ps: seq<seq<Id>>)
    requires |t| == 3
    ensures |ps| == 6 && t in ps
  {
    var a, b, c := t[0], t[1], t[2];
    assert t == [a, b, c];
    [[a, b, c], [a, c, b], [b, a, c], [b, c, a], [c, a, b], [c, b, a]]
  }

  // Being a permutation of each other is symmetric.
  lemma PermutationsSymmetric(t: seq<Id>, u: seq<Id>)
    requires |t| == 3 && |u| == 3
    ensures u in Permutations(t) <==> t in Permutations(u)
  {
    assert t == [t[0], t[1], t[2]] && u == [u[0], u[1], u[2]];
  }

  // Three computers linked to each other.
  predicate IsTrio(g: Graph, t: seq<Id>)
  {
    |t| == 3 && Edge(g, t[0], t[1]) && Edge(g, t[0], t[2]) && Edge(g, t[1], t[2])
  }

  // u is t in some order.
  predicate Reordered(u: seq<Id>, t: seq<Id>)
  {
    |t| == 3 && u in Permutations(t)
  }

  // No recorded trio is a permutation of an earlier one.
  predicate NoRepeats(trios: seq<seq<Id>>)
  {
    forall i, j :: 0 <= i < j < |trios| ==> !Reordered(trios[i], trios[j])
  }

  // The pairs of `combinations(2)` over the links cs whose first member
  // links to the second, in the iterator's order.
  method LinkedPairs(g: Graph, cs: seq<Id>) returns (ps: seq<(Id, Id)>)
    requires forall x :: x in cs ==> x in g.conns
    ensures forall p :: p in ps <==>
      exists j, k :: 0 <= j < k < |cs| && p == (cs[j], cs[k]) && Edge(g, cs[j], cs[k])
  {
    ps := [];
    for j := 0 to |cs|
      invariant forall p :: p in ps <==>
        exists j', k :: 0 <= j' < j && j' < k < |cs| && p == (cs[j'], cs[k]) && Edge(g, cs[j'], cs[k])
    {
      for k := j + 1 to |cs|
        invariant forall p :: p in ps <==>
          (exists j', k' :: 0 <= j' < j && j' < k' < |cs| && p == (cs[j'], cs[k']) && Edge(g, cs[j'], cs[k'])) ||
          (exists k' :: j < k' < k && p == (cs[j], cs[k']) && Edge(g, cs[j], cs[k']))
      {
        if cs[k] in g.conns[cs[j]] {
          ps := ps + [(cs[j], cs[k])];
        }
      }
    }
  }

  // Some recorded trio is t in some order.
  ghost predicate Covered(trios: seq<seq<Id>>, t: seq<Id>)
  {
    exists u :: u in trios && Reordered(u, t)
  }

  // Every pair of linked computers among id's links is recorded with id,
  // in some order.
  ghost predicate KeyCovered(g: Graph, trios: seq<seq<Id>>, id: Id)
  {
    id in g.conns &&
    forall j, k :: 0 <= j < k < |g.conns[id]| && Edge(g, g.conns[id][j], g.conns[id][k]) ==>
      Covered(trios, [id, g.conns[id][j], g.conns[id][k]])
  }

  // The trio loop: every recorded trio is linked all round, none repeats
  // an earlier one in another order, and every three computers linked all
  // round (two of them distinct) are recorded in some order.
  method FindTrios(g: Graph) returns (trios: seq<seq<Id>>)
    requires Valid(g) && Symmetric(g)
    ensures forall t :: t in trios ==> IsTrio(g, t)
    ensures NoRepeats(trios)
    ensures forall a, b, c :: b != c && Edge(g, a, b) && Edge(g, a, c) && Edge(g, b, c) ==> Covered(trios, [a, b, c])
  {
    trios := [];
    for n := 0 to |g.keys|
      invariant forall t :: t in trios ==> IsTrio(g, t)
      invariant NoRepeats(trios)
      invariant forall n' :: 0 <= n' < n ==> KeyCovered(g, trios, g.keys[n'])
    {
      var id := g.keys[n];
      var cs := g.conns[id];
      if |cs| < 2 {
        continue;
      }
      forall x | x in cs
        ensures x in g.conns
      {
        assert Edge(g, id, x);
      }
      var ps := LinkedPairs(g, cs);
      for q := 0 to |ps|
        invariant forall t :: t in trios ==> IsTrio(g, t)
        invariant NoRepeats(trios)
        invariant forall n' :: 0 <= n' < n ==> KeyCovered(g, trios, g.keys[n'])
        invariant forall q' :: 0 <= q' < q ==> Covered(trios, [id, ps[q'].0, ps[q'].1])
      {
        var t := [id, ps[q].0, ps[q].1];
        assert ps[q] in ps;
        var ok := forall c | c in Permutations(t) :: c !in trios;
        ghost var before := trios;
        if ok {
          AppendTrio(g, trios, t);
          trios := trios + [t];
          assert Reordered(t, t);
        }
        CoveredGrows(g, before, trios, n, q, id, ps);
      }
      forall j, k | 0 <= j < k < |cs| && Edge(g, cs[j], cs[k])
        ensures Covered(trios, [id, cs[j], cs[k]])
      {
        assert (cs[j], cs[k]) in ps;
      }
    }
    forall a, b, c | b != c && Edge(g, a, b) && Edge(g, a, c) && Edge(g, b, c)
      ensures Covered(trios, [a, b, c])
    {
      TriangleCovered(g, trios, a, b, c);
    }
  }

  // Recording more trios keeps everything recorded before covered, and the
  // step just taken covers candidate q.
  lemma CoveredGrows(g: Graph, before: seq<seq<Id>>, trios: seq<seq<Id>>, n: nat, q: nat, id: Id, ps: seq<(Id, Id)>)
    requires n <= |g.keys| && q < |ps|
    requires forall u :: u in before ==> u in trios
    requires forall n' :: 0 <= n' < n ==> KeyCovered(g, before, g.keys[n'])
    requires forall q' :: 0 <= q' < q ==> Covered(before, [id, ps[q'].0, ps[q'].1])
    requires Covered(before, [id, ps[q].0, ps[q].1]) || Covered(trios, [id, ps[q].0, ps[q].1])
    ensures forall n' :: 0 <= n' < n ==> KeyCovered(g, trios, g.keys[n'])
    ensures forall q' :: 0 <= q' < q + 1 ==> Covered(trios, [id, ps[q'].0, ps[q'].1])
  {
  }

  // A triangle is found from its first corner: the other two are among its
  // links, in one order or the other.
  lemma TriangleCovered(g: Graph, trios: seq<seq<Id>>, a: Id, b: Id, c: Id)
    requires Valid(g) && b != c && Edge(g, a, b) && Edge(g, a, c) && Edge(g, b, c) && Symmetric(g)
    requires forall n' :: 0 <= n' < |g.keys| ==> KeyCovered(g, trios, g.keys[n'])
    ensures Covered(trios, [a, b, c])
  {
    var n :| 0 <= n < |g.keys| && g.keys[n] == a;
    assert KeyCovered(g, trios, a);
    var cs := g.conns[a];
    var j :| 0 <= j < |cs| && cs[j] == b;
    var k :| 0 <= k < |cs| && cs[k] == c;
    if j < k {
      assert Covered(trios, [a, cs[j], cs[k]]);
    } else {
      assert Edge(g, c, b);
      assert Covered(trios, [a, cs[k], cs[j]]);
      var u :| u in trios && Reordered(u, [a, c, b]);
      assert Reordered(u, [a, b, c]);
    }
  }

  lemma AppendTrio(g: Graph, trios: seq<seq<Id>>, t: seq<Id>)
    requires forall u :: u in trios ==> IsTrio(g, u)
    requires NoRepeats(trios) && IsTrio(g, t)
    requires forall c :: c in Permutations(t) ==> c !in trios
    ensures forall u :: u in trios + [t] ==> IsTrio(g, u)
    ensures NoRepeats(trios + [t])
  {
    var r := trios + [t];
    forall i, j | 0 <= i < j < |r|
      ensures !Reordered(r[i], r[j])
    {
      if j == |trios| {
        assert r[i] in trios;
      } else {
        assert r[i] == trios[i] && r[j] == trios[j];
      }
    }
  }

  predicate HasT(t: seq<Id>)
  {
    exists k :: 0 <= k < |t| && t[k].first == 't'
  }

  // The trios with a member whose name starts with 't', in order.
  function TTrios(trios: seq<seq<Id>>): (r: seq<seq<Id>>)
    ensures forall t :: t in r <==> t in trios && HasT(t)
    ensures |r| <= |trios|
    decreases |trios|
  {
    if trios == [] then []
    else
      var last := trios[|trios| - 1];
      var rest := TTrios(trios[..|trios| - 1]);
      assert trios == trios[..|trios| - 1] + [last];
      if HasT(last) then rest + [last] else rest
  }

  // No computer is linked to itself.
  ghost predicate NoSelfLinks(g: Graph)
  {
    forall a :: !Edge(g, a, a)
  }

  // The computers of a trio.
  function Members(t: seq<Id>): set<Id>
    requires |t| == 3
  {
    {t[0], t[1], t[2]}
  }

  ghost predicate HasTMember(s: set<Id>)
  {
    exists x :: x in s && x.first == 't'
  }

  // The triangles of the graph: three distinct computers linked all round,
  // taken as a set; and those with a member whose name starts with 't'.
  ghost function Triangles(g: Graph): set<set<Id>>
  {
    set a, b, c | a in g.keys && b in g.keys && c in g.keys && a != b && a != c && b != c
      && Edge(g, a, b) && Edge(g, a, c) && Edge(g, b, c) :: {a, b, c}
  }

  ghost function TTriangles(g: Graph): set<set<Id>>
  {
    set s | s in Triangles(g) && HasTMember(s)
  }

  // The computer sets of the recorded trios with a 't' member.
  ghost function TSets(trios: seq<seq<Id>>): set<set<Id>>
  {
    set t | t in trios && |t| == 3 && HasT(t) :: Members(t)
  }

  // Three distinct computers in two orders that are not permutations of
  // each other are not the same three.
  lemma MembersDiffer(t: seq<Id>, u: seq<Id>)
    requires |t| == 3 && |u| == 3 && t[0] != t[1] && t[0] != t[2] && t[1] != t[2]
    requires !Reordered(t, u)
    ensures Members(t) != Members(u)
  {
    assert t == [t[0], t[1], t[2]] && u == [u[0], u[1], u[2]];
    if u[0] != t[0] && u[0] != t[1] && u[0] != t[2] {
      assert u[0] in Members(u) && u[0] !in Members(t);
    } else if u[1] != t[0] && u[1] != t[1] && u[1] != t[2] {
      assert u[1] in Members(u) && u[1] !in Members(t);
    } else if u[2] != t[0] && u[2] != t[1] && u[2] != t[2] {
      assert u[2] in Members(u) && u[2] !in Members(t);
    } else {
      // Each of u's members is one of t's; not being a permutation, u
      // repeats one, so it misses one of t's.
      if t[0] != u[0] && t[0] != u[1] && t[0] != u[2] {
        assert t[0] in Members(t) && t[0] !in Members(u);
      } else if t[1] != u[0] && t[1] != u[1] && t[1] != u[2] {
        assert t[1] in Members(t) && t[1] !in Members(u);
      } else {
        assert t[2] in Members(t) && t[2] !in Members(u);
      }
    }
  }

  // With no trio repeated in another order and each made of three distinct
  // computers, the trios with a 't' member stand for as many distinct sets.
  lemma {:induction false} TTriosCount(trios: seq<seq<Id>>)
    requires NoRepeats(trios)
    requires forall i :: 0 <= i < |trios| ==> Distinct3(trios[i])
    ensures |TTrios(trios)| == |TSets(trios)|
    decreases |trios|
  {
    if trios != [] {
      var init, last := trios[..|trios| - 1], trios[|trios| - 1];
      assert trios == init + [last];
      NoRepeatsPrefix(trios);
      assert forall i :: 0 <= i < |init| ==> init[i] == trios[i];
      TTriosCount(init);
      TSetsSnoc(init, last);
      if HasT(last) {
        FreshMembers(trios);
      }
    }
  }

  lemma NoRepeatsPrefix(trios: seq<seq<Id>>)
    requires NoRepeats(trios) && trios != []
    ensures NoRepeats(trios[..|trios| - 1])
  {
    var init := trios[..|trios| - 1];
    forall i, j | 0 <= i < j < |init|
      ensures !Reordered(init[i], init[j])
    {
      assert init[i] == trios[i] && init[j] == trios[j];
    }
  }

  lemma TSetsSnoc(init: seq<seq<Id>>, last: seq<Id>)
    requires |last| == 3
    ensures TSets(init + [last]) == TSets(init) + (if HasT(last) then {Members(last)} else {})
  {
    assert forall t :: t in init + [last] <==> t in init || t == last;
  }

  // The last trio's members differ from those of every earlier trio.
  lemma FreshMembers(trios: seq<seq<Id>>)
    requires NoRepeats(trios) && trios != [] && Distinct3(trios[|trios| - 1])
    ensures Members(trios[|trios| - 1]) !in TSets(trios[..|trios| - 1])
  {
    var init, last := trios[..|trios| - 1], trios[|trios| - 1];
    forall t | t in init && |t| == 3 && HasT(t)
      ensures Members(t) != Members(last)
    {
      var i :| 0 <= i < |init| && init[i] == t;
      assert !Reordered(trios[i], trios[|trios| - 1]);
      MembersDiffer(last, t);
    }
  }

  predicate Distinct3(t: seq<Id>)
  {
    |t| == 3 && t[0] != t[1] && t[0] != t[2] && t[1] != t[2]
  }

  // A permutation has the same members.
  lemma ReorderedMembers(u: seq<Id>, t: seq<Id>)
    requires Reordered(u, t)
    ensures |u| == 3 && Members(u) == Members(t)
  {
  }

  // A trio with a 't' member is a triangle with one.
  lemma TrioIsTriangle(g: Graph, t: seq<Id>)
    requires Valid(g) && Symmetric(g) && NoSelfLinks(g) && IsTrio(g, t) && HasT(t)
    ensures Members(t) in TTriangles(g)
  {
    var a, b, c := t[0], t[1], t[2];
    assert Edge(g, b, a) && Edge(g, c, a);
    assert a in g.conns && b in g.conns && c in g.conns;
    assert {a, b, c} in Triangles(g);
    var k :| 0 <= k < |t| && t[k].first == 't';
    assert t[k] in Members(t);
  }

  // A covered triangle with a 't' member stands for a recorded trio.
  lemma TriangleIsTrio(trios: seq<seq<Id>>, a: Id, b: Id, c: Id)
    requires Covered(trios, [a, b, c]) && HasTMember({a, b, c})
    ensures {a, b, c} in TSets(trios)
  {
    var u :| u in trios && Reordered(u, [a, b, c]);
    ReorderedMembers(u, [a, b, c]);
    var x :| x in {a, b, c} && x.first == 't';
    assert x in Members(u);
    assert x == u[0] || x == u[1] || x == u[2];
    assert HasT(u);
  }

  // Sound and complete trios are the triangles.
  lemma TrioSets(g: Graph, trios: seq<seq<Id>>)
    requires Valid(g) && Symmetric(g) && NoSelfLinks(g)
    requires forall t :: t in trios ==> IsTrio(g, t)
    requires forall a, b, c :: b != c && Edge(g, a, b) && Edge(g, a, c) && Edge(g, b, c) ==> Covered(trios, [a, b, c])
    ensures TSets(trios) == TTriangles(g)
  {
    forall s | s in TSets(trios)
      ensures s in TTriangles(g)
    {
      var t: seq<Id> :| t in trios && |t| == 3 && HasT(t) && s == Members(t);
      TrioIsTriangle(g, t);
    }
    forall s | s in TTriangles(g)
      ensures s in TSets(trios)
    {
      var a, b, c :| a in g.keys && b in g.keys && c in g.keys && a != b && a != c && b != c
        && Edge(g, a, b) && Edge(g, a, c) && Edge(g, b, c) && s == {a, b, c};
      TriangleIsTrio(trios, a, b, c);
    }
  }

  // Part one counts the triangles with a 't' member.
  lemma TTriosAreTTriangles(g: Graph, trios: seq<seq<Id>>)
    requires Valid(g) && Symmetric(g) && NoSelfLinks(g)
    requires forall t :: t in trios ==> IsTrio(g, t)
    requires NoRepeats(trios)
    requires forall a, b, c :: b != c && Edge(g, a, b) && Edge(g, a, c) && Edge(g, b, c) ==> Covered(trios, [a, b, c])
    ensures |TTrios(trios)| == |TTriangles(g)|
  {
    forall i | 0 <= i < |trios|
      ensures Distinct3(trios[i])
    {
      assert IsTrio(g, trios[i]);
    }
    TTriosCount(trios);
    TrioSets(g, trios);
  }

  // ---------------------------------------------------------------------
  // Part two: the largest set

  const MAX_THRESHOLD: nat := 13
  const MIN_THRESHOLD: nat := 3

  // A computer with its links.
  function TestSet(g: Graph, id: Id): (r: seq<Id>)
    requires Valid(g) && id in g.conns
    ensures Ascending(r)
  {
    Insert(g.conns[id], id)
  }

  // The reducing pass over the first k members of the test set at one
  // threshold: the reduced set and the number of members that kept it.
  function Reduction(g: Graph, ts: seq<Id>, threshold: nat, k: nat): (r: (seq<Id>, nat))
    requires Valid(g) && Ascending(ts) && k <= |ts|
    requires forall x :: x in ts ==> x in g.conns
    ensures Ascending(r.0) && r.1 <= k
    ensures forall x :: x in r.0 ==> x in ts
    decreases k
  {
    if k == 0 then (ts, 0)
    else
      var prev := Reduction(g, ts, threshold, k - 1);
      var sub := Common(g.conns[ts[k - 1]], prev.0);
      if |sub| >= threshold then (Insert(sub, ts[k - 1]), prev.1 + 1) else prev
  }

  method Reduce(g: Graph, ts: seq<Id>, threshold: nat) returns (reducing: seq<Id>, okCount: nat)
    requires Valid(g) && Ascending(ts)
    requires forall x :: x in ts ==> x in g.conns
    ensures (reducing, okCount) == Reduction(g, ts, threshold, |ts|)
  {
    reducing, okCount := ts, 0;
    for k := 0 to |ts|
      invariant (reducing, okCount) == Reduction(g, ts, threshold, k)
    {
      var sub := Common(g.conns[ts[k]], reducing);
      if |sub| >= threshold {
        reducing := Insert(sub, ts[k]);
        okCount := okCount + 1;
      }
    }
  }

  // The set the pass for key n at a threshold offers, and whether it is
  // accepted (enough members kept it).
  function Candidate(g: Graph, n: nat, threshold: nat): (r: (seq<Id>, nat))
    requires Valid(g) && Symmetric(g) && n < |g.keys|
  {
    var id := g.keys[n];
    TestMembers(g, id);
    var ts := TestSet(g, id);
    Reduction(g, ts, threshold, |ts|)
  }

  predicate Accepted(g: Graph, n: nat, threshold: nat)
    requires Valid(g) && Symmetric(g) && n < |g.keys|
  {
    Candidate(g, n, threshold).1 >= threshold
  }

  lemma TestMembers(g: Graph, id: Id)
    requires Valid(g) && Symmetric(g) && id in g.conns
    ensures forall x :: x in TestSet(g, id) ==> x in g.conns
  {
    forall x | x in TestSet(g, id)
      ensures x in g.conns
    {
      if x != id {
        assert Edge(g, id, x);
      }
    }
  }

  // Pass (n, threshold) comes before pass (n', threshold'): keys ascend,
  // thresholds descend.
  predicate Before(n: nat, threshold: nat, n': nat, threshold': nat)
  {
    n < n' || (n == n' && threshold > threshold')
  }

  predicate InRange(g: Graph, n: nat, threshold: nat)
  {
    n < |g.keys| && MIN_THRESHOLD <= threshold <= MAX_THRESHOLD
  }

  // Every set accepted before pass (n, th) has at most `bound` members.
  ghost predicate Bounded(g: Graph, bound: int, n: nat, th: nat)
    requires Valid(g) && Symmetric(g)
  {
    forall n', th' :: InRange(g, n', th') && Before(n', th', n, th) && Accepted(g, n', th') ==>
      |Candidate(g, n', th').0| <= bound
  }

  // best is the set accepted at pass (bn, bth), and every set accepted
  // before it is strictly smaller.
  ghost predicate FirstOfSize(g: Graph, best: seq<Id>, bn: nat, bth: nat)
    requires Valid(g) && Symmetric(g)
  {
    InRange(g, bn, bth) && Accepted(g, bn, bth) && Candidate(g, bn, bth).0 == best &&
    Bounded(g, |best| - 1, bn, bth)
  }

  // best is at least as large as every set accepted before pass (n, th),
  // and is either empty or the first accepted set of its size.
  ghost predicate BestSoFar(g: Graph, best: seq<Id>, n: nat, th: nat)
    requires Valid(g) && Symmetric(g)
  {
    Bounded(g, |best|, n, th) &&
    (best == [] || exists bn, bth :: Before(bn, bth, n, th) && FirstOfSize(g, best, bn, bth))
  }

  // The part two loops: best_set is replaced only by a strictly larger
  // accepted set, so it ends as the first accepted set of largest size.
  method LargestSet(g: Graph) returns (best: seq<Id>)
    requires Valid(g) && Symmetric(g)
    ensures Ascending(best)
    ensures BestSoFar(g, best, |g.keys|, MAX_THRESHOLD)
  {
    best := [];
    for n := 0 to |g.keys|
      invariant Ascending(best) && BestSoFar(g, best, n, MAX_THRESHOLD)
    {
      var id := g.keys[n];
      TestMembers(g, id);
      var testSet := Insert(g.conns[id], id);
      var threshold := MAX_THRESHOLD;
      while threshold >= MIN_THRESHOLD
        invariant MIN_THRESHOLD - 1 <= threshold <= MAX_THRESHOLD
        invariant Ascending(best) && BestSoFar(g, best, n, threshold)
        decreases threshold
      {
        var reducing, okCount := Reduce(g, testSet, threshold);
        assert (reducing, okCount) == Candidate(g, n, threshold);
        ghost var before := best;
        if okCount >= threshold && |reducing| > |best| {
          best := reducing;
        }
        Advance(g, before, best, n, threshold);
        threshold := threshold - 1;
      }
      NextKey(g, best, n);
    }
  }

  // Widening the bound past pass (n, th), which the next pass follows.
  lemma BoundedStep(g: Graph, bound: int, n: nat, th: nat)
    requires Valid(g) && Symmetric(g) && InRange(g, n, th)
    requires Bounded(g, bound, n, th)
    requires Accepted(g, n, th) ==> |Candidate(g, n, th).0| <= bound
    ensures Bounded(g, bound, n, th - 1)
  {
  }

  lemma BoundedWeaker(g: Graph, bound: int, bound': int, n: nat, th: nat)
    requires Valid(g) && Symmetric(g) && bound <= bound'
    requires Bounded(g, bound, n, th)
    ensures Bounded(g, bound', n, th)
  {
  }

  // One pass keeps BestSoFar.
  lemma Advance(g: Graph, before: seq<Id>, best: seq<Id>, n: nat, th: nat)
    requires Valid(g) && Symmetric(g) && InRange(g, n, th)
    requires BestSoFar(g, before, n, th)
    requires best == (if Accepted(g, n, th) && |Candidate(g, n, th).0| > |before| then Candidate(g, n, th).0 else before)
    ensures BestSoFar(g, best, n, th - 1)
  {
    if best != before {
      BoundedWeaker(g, |before|, |best| - 1, n, th);
      assert FirstOfSize(g, best, n, th);
      BoundedWeaker(g, |best| - 1, |best|, n, th);
      BoundedStep(g, |best|, n, th);
      assert Before(n, th, n, th - 1);
    } else {
      BoundedStep(g, |best|, n, th);
      if best != [] {
        var bn, bth :| Before(bn, bth, n, th) && FirstOfSize(g, best, bn, bth);
        assert Before(bn, bth, n, th - 1);
      }
    }
  }

  // After the lowest threshold, the next key starts at the top one.
  lemma NextKey(g: Graph, best: seq<Id>, n: nat)
    requires Valid(g) && Symmetric(g)
    requires BestSoFar(g, best, n, MIN_THRESHOLD - 1)
    ensures BestSoFar(g, best, n + 1, MAX_THRESHOLD)
  {
    if best != [] {
      var bn, bth :| Before(bn, bth, n, MIN_THRESHOLD - 1) && FirstOfSize(g, best, bn, bth);
      assert Before(bn, bth, n + 1, MAX_THRESHOLD);
    }
  }

  // The names joined by commas.
  function Join(ids: seq<Id>): (s: string)
    ensures |s| == if ids == [] then 0 else 3 * |ids| - 1
    decreases |ids|
  {
    if ids == [] then ""
    else if |ids| == 1 then [ids[0].first, ids[0].second]
    else Join(ids[..|ids| - 1]) + [',', ids[|ids| - 1].first, ids[|ids| - 1].second]
  }

  // ---------------------------------------------------------------------
  // `day23`

  method Solve(lines: seq<string>) returns (p1: nat, p2: string)
    requires Readable(lines)
    ensures exists trios: seq<seq<Id>> ::
      (forall t :: t in trios ==> IsTrio(Built(Pairs(lines)), t)) && NoRepeats(trios) &&
      p1 == |TTrios(trios)|
    ensures NoSelfLinks(Built(Pairs(lines))) ==> p1 == |TTriangles(Built(Pairs(lines)))|
    ensures Symmetric(Built(Pairs(lines))) &&
      exists best ::
        BestSoFar(Built(Pairs(lines)), best, |Built(Pairs(lines)).keys|, MAX_THRESHOLD) && p2 == Join(best)
  {
    var pairs := Pairs(lines);
    var g := BuildGraph(pairs);
    BuiltSymmetric(pairs);
    var trios := FindTrios(g);
    if NoSelfLinks(g) {
      TTriosAreTTriangles(g, trios);
    }
    p1 := |TTrios(trios)|;
    var best := LargestSet(g);
    p2 := Join(best);
  }
}
