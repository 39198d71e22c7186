/** The greedy strategy: every unclaimed river, seen from each of its two
    ends, is offered as a candidate whose estimation is the squared mine
    distance it would newly connect. `conn` gives the mines each site is
    connected to through the punter's rivers, `dist` the distance from a mine
    to a site. */
module Greedy {
  import opened Common
  import opened Graphs

  /** The squared distances from the mines of `mineIds` that `usedMineIds`
      does not hold to the site `v`. */
  function CalcVertexScore(mineIds: set<int>, usedMineIds: set<int>, v: Int32, dist: (int, int) -> int): (r: int)
    ensures r >= 0
    ensures mineIds <= usedMineIds ==> r == 0
  {
    SquaredDistSum(mineIds - usedMineIds, v, dist)
  }

  /** A mine new to both sides adds its squared distance to the score. */
  lemma CalcVertexScoreAddsNewMine(mineIds: set<int>, usedMineIds: set<int>, m: int, v: Int32, dist: (int, int) -> int)
    requires m !in mineIds && m !in usedMineIds
    ensures CalcVertexScore(mineIds + {m}, usedMineIds, v, dist)
         == CalcVertexScore(mineIds, usedMineIds, v, dist) + dist(m, v) * dist(m, v)
  {
    var s := (mineIds + {m}) - usedMineIds;
    SquaredDistSumRemove(s, m, v, dist);
    assert s - {m} == mineIds - usedMineIds;
  }

  /** A mine the other side already reaches adds nothing. */
  lemma CalcVertexScoreIgnoresUsedMine(mineIds: set<int>, usedMineIds: set<int>, m: int, v: Int32, dist: (int, int) -> int)
    requires m in usedMineIds
    ensures CalcVertexScore(mineIds + {m}, usedMineIds, v, dist) == CalcVertexScore(mineIds, usedMineIds, v, dist)
  {
    assert (mineIds + {m}) - usedMineIds == mineIds - usedMineIds;
  }

  /** The estimation of claiming `e`: the mines on the far side not yet
      reached from `e.from`, measured at `e.from`, and the other way round. */
  function Estimation(e: Edge, conn: Int32 -> set<int>, dist: (int, int) -> int): (r: int)
    ensures r >= 0
    ensures conn(e.from) == conn(e.to) ==> r == 0
  {
    var fromMines, toMines := conn(e.from), conn(e.to);
    CalcVertexScore(toMines, fromMines, e.from, dist) + CalcVertexScore(fromMines, toMines, e.to, dist)
  }

  /** Both directions of a river are estimated alike. */
  lemma EstimationSymmetric(e: Edge, conn: Int32 -> set<int>, dist: (int, int) -> int)
    ensures Estimation(Reverse(e), conn, dist) == Estimation(e, conn, dist)
  {
  }

  /** When `e.from` is connected to no mine, the estimation is the squared
      distance from every mine behind `e.to` to `e.from`. */
  lemma EstimationFromIsolatedSite(e: Edge, conn: Int32 -> set<int>, dist: (int, int) -> int)
    requires conn(e.from) == {}
    ensures Estimation(e, conn, dist) == SquaredDistSum(conn(e.to), e.from, dist)
  {
    assert conn(e.to) - {} == conn(e.to);
    assert {} - conn(e.to) == {};
  }

  /** The candidate offered for the unclaimed edge `e`. */
  function ResultOf(e: Edge, conn: Int32 -> set<int>, dist: (int, int) -> int): (t: TurnResult)
    ensures t.river == Some(e.river) && t.move.None?
    ensures t.estimation >= 0.0
  {
    TurnResult(Estimation(e, conn, dist) as real, None, Some(e.river))
  }

  /** `result` holds the candidate of each edge of `es`, in order. */
  ghost predicate Offers(result: seq<TurnResult>, es: seq<Edge>, conn: Int32 -> set<int>, dist: (int, int) -> int)
  {
    |result| == |es| && forall k :: 0 <= k < |es| ==> result[k] == ResultOf(es[k], conn, dist)
  }

  lemma OffersPush(result: seq<TurnResult>, es: seq<Edge>, e: Edge, conn: Int32 -> set<int>, dist: (int, int) -> int)
    requires Offers(result, es, conn, dist)
    ensures Offers(result + [ResultOf(e, conn, dist)], es + [e], conn, dist)
  {
  }

  /** The strategy: it keeps the punter id it was built for and the mine
      distances. */
  datatype GreedyStrategy = GreedyStrategy(punterId: Int32, mineDist: (int, int) -> int)
  {
    /** One candidate per unclaimed edge, site by site and in each site's
        edge order, as listed by `UnclaimedEdges`. The graph is only read. */
    method Turn(g: Graph, conn: Int32 -> set<int>) returns (result: seq<TurnResult>)
      ensures |result| == |UnclaimedEdges(g)|
      ensures forall k :: 0 <= k < |result| ==> result[k] == ResultOf(UnclaimedEdges(g)[k], conn, mineDist)
    {
      result := [];
      ghost var done: seq<Edge> := [];
      for i := 0 to |g.vertices|
        invariant done == UnclaimedEdgesOf(g, g.vertices[..i])
        invariant Offers(result, done, conn, mineDist)
      {
        var free := UnclaimedOf(Edges(g, g.vertices[i]));
        assert done + free[..0] == done;
        for j := 0 to |free|
          invariant Offers(result, done + free[..j], conn, mineDist)
        {
          var edge := free[j];
          OffersPush(result, done + free[..j], edge, conn, mineDist);
          TakeOneMore(done, free, j);
          result := result + [ResultOf(edge, conn, mineDist)];
        }
        assert free[..|free|] == free;
        UnclaimedEdgesOfNext(g, g.vertices, i);
        done := done + free;
      }
      assert g.vertices[..|g.vertices|] == g.vertices;
    }
  }

  /** Every candidate names an unclaimed river of the graph, and in a valid
      undirected graph each unclaimed river is offered exactly once from
      each of its two ends. */
  lemma TurnOffersEachDirectionOnce(g: Graph, e: Edge)
    requires ValidGraph(g) && Undirected(g)
    ensures e in UnclaimedEdges(g) ==> FreeEdge(g, e) && e.river.owner == NoOwner
    ensures FreeEdge(g, e) ==> multiset(UnclaimedEdges(g))[e] == 1 && multiset(UnclaimedEdges(g))[Reverse(e)] == 1
  {
    UnclaimedEdgesOncePerDirection(g, e);
    if e in UnclaimedEdges(g) {
      var v :| v in g.vertices && e in Edges(g, v);
    }
  }
}
