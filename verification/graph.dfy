/** The per-turn working view of a game map: sites, the two directed edges of
    every river, the mines, and what the move-selection code needs to say
    about them (unclaimed edges, walks over unclaimed rivers, squared mine
    distances). The graph itself is built elsewhere; `ValidGraph` states what
    the move-selection code relies on. */
module Graphs {
  import opened Common

  /** Owner value of a river nobody has claimed. */
  const NoOwner: Int32 := -1

  /** An undirected river. `id` keeps parallel rivers between the same two
      sites apart, as distinct objects are in the program. */
  datatype River = River(id: nat, source: Int32, target: Int32, owner: Int32)

  /** A directed view of a river. Both directions carry the same `River`
      value, so they always agree on the owner. */
  datatype Edge = Edge(from: Int32, to: Int32, river: River)

  datatype GameMap = GameMap(sites: seq<Int32>, rivers: seq<River>, mines: seq<Int32>)

  /** `vertices` and `mines` are in the order the program enumerates them. */
  datatype Graph = Graph(vertices: seq<Int32>, adj: map<Int32, seq<Edge>>, mines: seq<Int32>)

  datatype Move = Claim(punter: Int32, source: Int32, target: Int32) | Pass(punter: Int32)

  /** A ranked candidate produced by a strategy. */
  datatype TurnResult = TurnResult(estimation: real, move: Option<Move>, river: Option<River>)

  function Reverse(e: Edge): Edge
  {
    Edge(e.to, e.from, e.river)
  }

  function Edges(g: Graph, v: Int32): seq<Edge>
  {
    if v in g.adj then g.adj[v] else []
  }

  /** What a graph built from a map guarantees: distinct sites, each with its
      list of outgoing edges (no edge listed twice), no self-loops, and mines
      that are distinct sites. */
  ghost predicate ValidGraph(g: Graph)
  {
    && NoDup(g.vertices)
    && (forall v :: v in g.adj <==> v in g.vertices)
    && (forall v :: v in g.adj ==> NoDup(g.adj[v]))
    && EdgesWithin(g)
    && (forall v, e :: v in g.adj && e in g.adj[v] ==>
          && e.from != e.to && {e.from, e.to} == {e.river.source, e.river.target})
    && NoDup(g.mines)
    && (forall m :: m in g.mines ==> m in g.adj)
  }

  /** Every edge listed at a site leaves that site and ends at a site of the
      graph. */
  ghost predicate EdgesWithin(g: Graph)
  {
    forall v, e :: v in g.adj && e in g.adj[v] ==> e.from == v && e.to in g.adj
  }

  /** Every edge is listed with its reverse: each river is seen from both of
      its ends. Kept apart from `ValidGraph` because, as a quantifier, it
      would keep producing reverses of reverses. */
  ghost predicate Undirected(g: Graph)
  {
    forall v, e :: v in g.adj && e in g.adj[v] ==> Reverse(e) in Edges(g, e.to)
  }

  /** The graph has this site and mine layout and its edges are exactly the
      two directions of the map's rivers. */
  ghost predicate BuiltFrom(g: Graph, m: GameMap)
  {
    && g.vertices == m.sites
    && g.mines == m.mines
    && (forall v, e :: v in g.adj && e in g.adj[v] ==> e.river in m.rivers)
    && (forall r :: r in m.rivers ==>
          Edge(r.source, r.target, r) in Edges(g, r.source) && Edge(r.target, r.source, r) in Edges(g, r.target))
  }

  predicate IsMine(g: Graph, v: Int32)
  {
    v in g.mines
  }

  predicate IsFree(e: Edge)
  {
    e.river.owner == NoOwner
  }

  /** The edges of `es` whose river is unclaimed, in order. */
  function UnclaimedOf(es: seq<Edge>): seq<Edge>
  {
    Filter(es, IsFree)
  }

  /** `e` is an edge of `g` whose river nobody owns. */
  ghost predicate FreeEdge(g: Graph, e: Edge)
  {
    e in Edges(g, e.from) && e.river.owner == NoOwner
  }

  /** Number of unclaimed rivers at a site. */
  function UnclaimedCount(g: Graph, v: Int32): nat
  {
    |UnclaimedOf(Edges(g, v))|
  }

  /** The site has a river owned by punter `p`. */
  predicate TouchesOwned(g: Graph, p: Int32, v: Int32)
  {
    exists e :: e in Edges(g, v) && e.river.owner == p
  }

  /** The unclaimed edges of the sites `vs`, site by site, each site's in
      adjacency order. */
  function UnclaimedEdgesOf(g: Graph, vs: seq<Int32>): (r: seq<Edge>)
    ensures forall e :: e in r <==> e.river.owner == NoOwner && exists v :: v in vs && e in Edges(g, v)
  {
    if vs == [] then []
    else
      var init, last := vs[..|vs| - 1], vs[|vs| - 1];
      assert vs == init + [last];
      UnclaimedEdgesOf(g, init) + UnclaimedOf(Edges(g, last))
  }

  lemma {:induction false} UnclaimedEdgesOfAppend(g: Graph, a: seq<Int32>, b: seq<Int32>)
    ensures UnclaimedEdgesOf(g, a + b) == UnclaimedEdgesOf(g, a) + UnclaimedEdgesOf(g, b)
    decreases |b|
  {
    if b != [] {
      var init := b[..|b| - 1];
      assert (a + b)[..|a + b| - 1] == a + init;
      UnclaimedEdgesOfAppend(g, a, init);
    } else {
      assert a + b == a;
    }
  }

  /** The edges of the first `i + 1` sites: those of the first `i`, then the
      `i`-th site's. */
  lemma UnclaimedEdgesOfNext(g: Graph, vs: seq<Int32>, i: int)
    requires 0 <= i < |vs|
    ensures UnclaimedEdgesOf(g, vs[..i + 1]) == UnclaimedEdgesOf(g, vs[..i]) + UnclaimedOf(Edges(g, vs[i]))
  {
    assert vs[..i + 1][..i] == vs[..i];
  }

  /** The whole list around the `i`-th site. */
  lemma UnclaimedEdgesSplit(g: Graph, i: int)
    requires 0 <= i < |g.vertices|
    ensures UnclaimedEdges(g) == (UnclaimedEdgesOf(g, g.vertices[..i]) + UnclaimedOf(Edges(g, g.vertices[i])))
                                 + UnclaimedEdgesOf(g, g.vertices[i + 1..])
  {
    var vs := g.vertices;
    UnclaimedEdgesOfNext(g, vs, i);
    UnclaimedEdgesOfAppend(g, vs[..i + 1], vs[i + 1..]);
    assert vs[..i + 1] + vs[i + 1..] == vs;
  }

  lemma FreeEdgeIsListed(g: Graph, e: Edge)
    requires ValidGraph(g) && FreeEdge(g, e)
    ensures e in UnclaimedEdges(g)
  {
    assert e.from in g.adj;
  }

  /** Every unclaimed directed edge, in the order the program visits them. */
  function UnclaimedEdges(g: Graph): seq<Edge>
  {
    UnclaimedEdgesOf(g, g.vertices)
  }

  /** Every directed edge of the sites `vs`, site by site. */
  function AllEdgesOf(g: Graph, vs: seq<Int32>): (r: seq<Edge>)
    ensures forall e :: e in r <==> exists v :: v in vs && e in Edges(g, v)
  {
    if vs == [] then []
    else
      var init, last := vs[..|vs| - 1], vs[|vs| - 1];
      assert vs == init + [last];
      AllEdgesOf(g, init) + Edges(g, last)
  }

  function AllEdges(g: Graph): seq<Edge>
  {
    AllEdgesOf(g, g.vertices)
  }

  lemma {:induction false} UnclaimedEdgesOfCount(g: Graph, vs: seq<Int32>, e: Edge)
    requires ValidGraph(g) && NoDup(vs)
    ensures multiset(UnclaimedEdgesOf(g, vs))[e]
         == if e.from in vs && e in Edges(g, e.from) && e.river.owner == NoOwner then 1 else 0
  {
    if vs != [] {
      var init, last := vs[..|vs| - 1], vs[|vs| - 1];
      assert vs == init + [last];
      assert NoDup(init);
      UnclaimedEdgesOfCount(g, init, e);
      var tail := UnclaimedOf(Edges(g, last));
      assert UnclaimedEdgesOf(g, vs) == UnclaimedEdgesOf(g, init) + tail;
      if last in g.adj {
        FilterNoDup(g.adj[last], IsFree);
      }
      NoDupCount(tail, e);
      assert last !in init;
      assert e in tail ==> e.from == last;
    }
  }

  /** Each unclaimed river is listed exactly once in each direction, and no
      other edge is listed. */
  lemma UnclaimedEdgesOncePerDirection(g: Graph, e: Edge)
    requires ValidGraph(g) && Undirected(g)
    ensures multiset(UnclaimedEdges(g))[e]
         == if e.from in g.adj && e in Edges(g, e.from) && e.river.owner == NoOwner then 1 else 0
    ensures e in UnclaimedEdges(g) ==> multiset(UnclaimedEdges(g))[Reverse(e)] == 1
  {
    UnclaimedEdgesOfCount(g, g.vertices, e);
    UnclaimedEdgesOfCount(g, g.vertices, Reverse(e));
  }

  /** A walk from `start` over unclaimed rivers, one edge after another. */
  predicate UnclaimedWalk(g: Graph, start: Int32, walk: seq<Edge>)
    decreases |walk|
  {
    walk == [] ||
    (walk[0] in Edges(g, start) && walk[0].river.owner == NoOwner && UnclaimedWalk(g, walk[0].to, walk[1..]))
  }

  function WalkEnd(start: Int32, walk: seq<Edge>): Int32
    decreases |walk|
  {
    if walk == [] then start else WalkEnd(walk[0].to, walk[1..])
  }

  /** If every unclaimed step out of a tagged site leads to a site with the
      same tag, then an unclaimed walk ends at a site tagged like its
      start. */
  lemma {:induction false} LabelKeptAlongWalk<L>(g: Graph, tags: map<Int32, L>, start: Int32, walk: seq<Edge>)
    requires start in tags
    requires forall u, e :: u in tags && e in Edges(g, u) && e.river.owner == NoOwner ==>
               e.to in tags && tags[e.to] == tags[u]
    requires UnclaimedWalk(g, start, walk)
    ensures WalkEnd(start, walk) in tags && tags[WalkEnd(start, walk)] == tags[start]
    decreases |walk|
  {
    if walk != [] {
      LabelKeptAlongWalk(g, tags, walk[0].to, walk[1..]);
    }
  }

  /** An unclaimed walk followed by one more unclaimed edge out of its end. */
  lemma {:induction false} WalkPush(g: Graph, start: Int32, walk: seq<Edge>, e: Edge)
    requires UnclaimedWalk(g, start, walk)
    requires e in Edges(g, WalkEnd(start, walk)) && e.river.owner == NoOwner
    ensures UnclaimedWalk(g, start, walk + [e]) && WalkEnd(start, walk + [e]) == e.to
    decreases |walk|
  {
    if walk == [] {
      assert [e][1..] == [];
    } else {
      WalkPush(g, walk[0].to, walk[1..], e);
      assert (walk + [e])[1..] == walk[1..] + [e];
    }
  }

  /** A non-empty unclaimed walk is a shorter one followed by its last edge. */
  lemma {:induction false} WalkPop(g: Graph, start: Int32, walk: seq<Edge>)
    requires UnclaimedWalk(g, start, walk) && walk != []
    ensures UnclaimedWalk(g, start, walk[..|walk| - 1])
    ensures walk[|walk| - 1] in Edges(g, WalkEnd(start, walk[..|walk| - 1]))
    ensures walk[|walk| - 1].river.owner == NoOwner
    ensures WalkEnd(start, walk) == walk[|walk| - 1].to
    decreases |walk|
  {
    if |walk| == 1 {
      assert walk[..0] == [] && walk[1..] == [];
    } else {
      WalkPop(g, walk[0].to, walk[1..]);
      assert walk[1..][..|walk| - 2] == walk[..|walk| - 1][1..];
    }
  }

  /** Two unclaimed walks, the second leaving where the first ends, make one. */
  lemma {:induction false} WalkConcat(g: Graph, start: Int32, a: seq<Edge>, b: seq<Edge>)
    requires UnclaimedWalk(g, start, a) && UnclaimedWalk(g, WalkEnd(start, a), b)
    ensures UnclaimedWalk(g, start, a + b) && WalkEnd(start, a + b) == WalkEnd(WalkEnd(start, a), b)
    decreases |a|
  {
    if a == [] {
      assert a + b == b;
    } else {
      WalkConcat(g, a[0].to, a[1..], b);
      assert (a + b)[1..] == a[1..] + b;
    }
  }

  /** The edges of a walk, last first, each turned around. */
  function Reversed(walk: seq<Edge>): (r: seq<Edge>)
    ensures |r| == |walk|
  {
    if walk == [] then [] else Reversed(walk[1..]) + [Reverse(walk[0])]
  }

  /** In a graph that lists every river from both ends, an unclaimed walk
      can be walked back. */
  lemma {:induction false} WalkBack(g: Graph, start: Int32, walk: seq<Edge>)
    requires EdgesWithin(g) && Undirected(g) && UnclaimedWalk(g, start, walk)
    ensures UnclaimedWalk(g, WalkEnd(start, walk), Reversed(walk))
    ensures WalkEnd(WalkEnd(start, walk), Reversed(walk)) == start
    decreases |walk|
  {
    if walk != [] {
      var e := walk[0];
      assert start in g.adj && e in g.adj[start];
      WalkBack(g, e.to, walk[1..]);
      WalkPush(g, WalkEnd(start, walk), Reversed(walk[1..]), Reverse(e));
    }
  }

  /** The least element of a non-empty set of integers. */
  function SetMin(s: set<int>): (m: int)
    requires s != {}
    ensures m in s && forall x :: x in s ==> m <= x
  {
    MinExists(s);
    var m :| m in s && forall x :: x in s ==> m <= x;
    m
  }

  lemma NonEmptyHasElement(s: set<int>)
    requires s != {}
    ensures exists y :: y in s
  {
    if forall y :: y !in s {
      assert false;
    }
  }

  lemma MinExists(s: set<int>)
    requires s != {}
    ensures exists m :: m in s && forall x :: x in s ==> m <= x
  {
    var m := LeastOf(s);
  }

  lemma LeastOf(s: set<int>) returns (m: int)
    requires s != {}
    ensures m in s && forall x :: x in s ==> m <= x
    decreases s
  {
    NonEmptyHasElement(s);
    var y :| y in s;
    if s == {y} {
      m := y;
    } else {
      var rest := LeastOf(s - {y});
      m := if y < rest then y else rest;
      forall x | x in s
        ensures m <= x
      {
        if x != y {
          assert x in s - {y};
        }
      }
    }
  }

  /** Sum over the mines `mineIds` of the squared distance from each mine to
      `v`: the score a site adds once it is connected to those mines. */
  function SquaredDistSum(mineIds: set<int>, v: int, dist: (int, int) -> int): (r: int)
    ensures r >= 0
    ensures mineIds == {} ==> r == 0
    decreases mineIds
  {
    if mineIds == {} then 0
    else
      var m := SetMin(mineIds);
      var d := dist(m, v);
      assert d * d >= 0 by {
        if d < 0 { assert d * d == (-d) * (-d); }
      }
      d * d + SquaredDistSum(mineIds - {m}, v, dist)
  }

  /** The sum does not depend on which mine is taken out first. */
  lemma {:induction false} SquaredDistSumRemove(s: set<int>, x: int, v: int, dist: (int, int) -> int)
    requires x in s
    ensures SquaredDistSum(s, v, dist) == dist(x, v) * dist(x, v) + SquaredDistSum(s - {x}, v, dist)
    decreases s
  {
    var m := SetMin(s);
    if x != m {
      SquaredDistSumRemove(s - {m}, x, v, dist);
      assert m in s - {x};
      var m' := SetMin(s - {x});
      assert m' in s;
      assert s - {m} - {x} == s - {x} - {m};
    }
  }

  /** Over disjoint mine sets the sum splits. */
  lemma {:induction false} SquaredDistSumSplit(a: set<int>, b: set<int>, v: int, dist: (int, int) -> int)
    requires a !! b
    ensures SquaredDistSum(a + b, v, dist) == SquaredDistSum(a, v, dist) + SquaredDistSum(b, v, dist)
    decreases a
  {
    if a == {} {
      assert a + b == b;
    } else {
      var x := SetMin(a);
      SquaredDistSumRemove(a + b, x, v, dist);
      SquaredDistSumRemove(a, x, v, dist);
      assert (a + b) - {x} == (a - {x}) + b;
      SquaredDistSumSplit(a - {x}, b, v, dist);
    }
  }
}
