/** The "Loch Dinic killer" strategy: it weighs rivers worth blocking. A mine
    of the punter's that is running out of free rivers gets one of them
    weighted 10; then, for up to ten randomly drawn pairs of mines, every
    river of a small minimum cut between them gains `1/flow`. Only rivers of
    positive weight are offered.

    The random source is an oracle `rand: nat -> nat` (the `k`-th draw) and
    the maximum-flow computation an oracle `dinic` from a pair of mines to a
    flow and a minimum cut, both computed elsewhere for this graph and
    punter. */
module LochDinicKiller {
  import opened Common
  import opened Graphs

  /** What the maximum-flow computation returns for a pair of mines. */
  datatype Cut = Cut(flow: nat, minCut: seq<Edge>)

  /** Pairs with a larger flow are skipped. */
  const MaxCount: nat := 10

  /** The weight of a river next to the mine to save. */
  const SaveWeight: real := 10.0

  /** A table lookup that treats a missing edge as weight 0. */
  function Weight(w: map<Edge, real>, e: Edge): (r: real)
    ensures e !in w ==> r == 0.0
    ensures e in w ==> r == w[e]
  {
    if e in w then w[e] else 0.0
  }

  predicate IsUnclaimed(e: Edge)
  {
    e.river.owner < 0
  }

  /** The number of a site's rivers nobody owns. */
  function FreeCount(g: Graph, m: Int32): nat
  {
    |Filter(Edges(g, m), IsUnclaimed)|
  }

  /** A mine needs saving when the punter owns none of its rivers and fewer
      than `p` of them are unclaimed. */
  predicate NeedsSaving(g: Graph, p: Int32, m: Int32)
  {
    && (forall e :: e in Edges(g, m) ==> e.river.owner != p)
    && FreeCount(g, m) < p
  }

  /** The first mine, in the graph's mine order, that needs saving. */
  function MineToSave(mines: seq<Int32>, g: Graph, p: Int32): (r: Option<Int32>)
    ensures r.Some? <==> exists k :: 0 <= k < |mines| && NeedsSaving(g, p, mines[k])
    ensures r.Some? ==> exists k :: 0 <= k < |mines| && mines[k] == r.value && NeedsSaving(g, p, r.value)
                          && forall j :: 0 <= j < k ==> !NeedsSaving(g, p, mines[j])
  {
    if mines == [] then None
    else if NeedsSaving(g, p, mines[0]) then Some(mines[0])
    else
      var r := MineToSave(mines[1..], g, p);
      assert forall k :: 0 <= k < |mines| - 1 ==> mines[1..][k] == mines[k + 1];
      r
  }

  /** The river to save at the mine: one of its unclaimed rivers, picked by
      the draw `x` (the program orders the rivers by random keys and takes
      the first unclaimed one). */
  function EdgeToSave(g: Graph, m: Int32, x: nat): (r: Option<Edge>)
    ensures r.Some? ==> r.value in Edges(g, m) && IsUnclaimed(r.value)
    ensures r.None? <==> FreeCount(g, m) == 0
  {
    var free := Filter(Edges(g, m), IsUnclaimed);
    if free == [] then None else Some(free[x % |free|])
  }

  /** The table after the first step of `Init`: the one river to save with
      weight 10, an unclaimed river of the first mine that needs saving, and
      empty exactly when there is no such mine or it has no unclaimed river. */
  function SaveWeights(g: Graph, p: Int32, x: nat): (w: map<Edge, real>)
    ensures |w.Keys| <= 1
    ensures (MineToSave(g.mines, g, p).Some? && FreeCount(g, MineToSave(g.mines, g, p).value) > 0) <==> |w.Keys| == 1
    ensures forall e :: e in w ==> MineToSave(g.mines, g, p).Some? && e in Edges(g, MineToSave(g.mines, g, p).value)
    ensures forall e :: e in w ==>
              w[e] == SaveWeight && IsUnclaimed(e) && exists m :: m in g.mines && NeedsSaving(g, p, m) && e in Edges(g, m)
  {
    match MineToSave(g.mines, g, p)
    case None => map[]
    case Some(m) =>
      match EdgeToSave(g, m, x)
      case None => map[]
      case Some(e) =>
        assert map[e := SaveWeight].Keys == {e};
        map[e := SaveWeight]
  }

  /** The distinct owner values on a site's rivers. */
  function OwnersAt(g: Graph, m: Int32): set<int>
  {
    set e | e in Edges(g, m) :: e.river.owner
  }

  /** Mines whose rivers show exactly `p + 1` distinct owners. */
  function BannedMines(g: Graph, p: Int32): (r: set<Int32>)
    ensures forall m :: m in r <==> m in g.mines && |OwnersAt(g, m)| == p + 1
  {
    set m | m in g.mines && |OwnersAt(g, m)| == p + 1
  }

  /** The mines with at least one unclaimed river, in mine order. */
  function SampledMines(g: Graph): (r: seq<Int32>)
    ensures forall m :: m in r <==> m in g.mines && FreeCount(g, m) > 0
  {
    Filter(g.mines, m => FreeCount(g, m) > 0)
  }

  /** `Math.Min(10, n * (n - 1))`. */
  function SampleCount(n: nat): (r: nat)
    ensures r <= MaxCount
    ensures n <= 1 ==> r == 0
    ensures n >= 2 ==> r > 0
  {
    if n <= 1 then 0 else Min(10, n * (n - 1))
  }

  /** `Random.Next(n)` for the draw `x`. */
  function Next(n: nat, x: nat): (r: nat)
    requires n > 0
    ensures r < n
  {
    x % n
  }

  /** The two indices of a sample drawn from `n >= 2` mines: the first is
      `Math.Min(Next(n), n - 1)`; the second is redrawn until it differs,
      modelled as a draw among the other `n - 1` indices. */
  function SamplePair(n: nat, x: nat, y: nat): (r: (nat, nat))
    requires n >= 2
    ensures r.0 < n && r.1 < n && r.0 != r.1
  {
    var i1 := Min(Next(n, x), n - 1);
    var j := Next(n - 1, y);
    (i1, if j < i1 then j else j + 1)
  }

  /** The edge touches a banned mine. */
  predicate TouchesBanned(banned: set<Int32>, e: Edge)
  {
    e.from in banned || e.to in banned
  }

  /** Adds `1/flow` to every edge of `cut` that touches no banned mine, one
      after another. */
  function AddCut(w: map<Edge, real>, cut: seq<Edge>, banned: set<Int32>, flow: nat): map<Edge, real>
    requires flow > 0
  {
    if cut == [] then w
    else
      var w' := AddCut(w, cut[..|cut| - 1], banned, flow);
      var e := cut[|cut| - 1];
      if TouchesBanned(banned, e) then w' else w'[e := Weight(w', e) + 1.0 / (flow as real)]
  }

  /** An edge of the cut gains `1/flow` for each time it is listed, unless it
      touches a banned mine; nothing else changes. */
  lemma {:induction false} AddCutWeight(w: map<Edge, real>, cut: seq<Edge>, banned: set<Int32>, flow: nat, e: Edge)
    requires flow > 0
    ensures Weight(AddCut(w, cut, banned, flow), e)
         == Weight(w, e) + (if TouchesBanned(banned, e) then 0.0 else Share(multiset(cut)[e], flow))
    ensures e in AddCut(w, cut, banned, flow) <==> e in w || (e in cut && !TouchesBanned(banned, e))
  {
    if cut != [] {
      var init, last := cut[..|cut| - 1], cut[|cut| - 1];
      AddCutWeight(w, init, banned, flow, e);
      assert cut == init + [last];
      assert multiset(cut) == multiset(init) + multiset{last};
      if e == last && !TouchesBanned(banned, e) {
        ShareStep(multiset(init)[e], flow);
      }
    }
  }

  /** `k` shares of `1/flow`. */
  function Share(k: nat, flow: nat): real
    requires flow > 0
  {
    (k as real) / (flow as real)
  }

  lemma ShareStep(k: nat, flow: nat)
    requires flow > 0
    ensures Share(k + 1, flow) == Share(k, flow) + 1.0 / (flow as real)
  {
  }

  /** Adding non-negative amounts keeps every weight positive. */
  lemma {:induction false} AddCutPositive(w: map<Edge, real>, cut: seq<Edge>, banned: set<Int32>, flow: nat)
    requires flow > 0 && forall e :: e in w ==> w[e] > 0.0
    ensures forall e :: e in AddCut(w, cut, banned, flow) ==> AddCut(w, cut, banned, flow)[e] > 0.0
  {
    if cut != [] {
      AddCutPositive(w, cut[..|cut| - 1], banned, flow);
    }
  }

  /** The `i`-th sample: the pair of mines it draws, from draws `2i + 1` and
      `2i + 2`. */
  function SampleMines(mines: seq<Int32>, rand: nat -> nat, i: nat): (r: (Int32, Int32))
    requires |mines| >= 2
    ensures r.0 in mines && r.1 in mines
    ensures NoDup(mines) ==> r.0 != r.1
  {
    var pair := SamplePair(|mines|, rand(2 * i + 1), rand(2 * i + 2));
    (mines[pair.0], mines[pair.1])
  }

  /** A pair whose cut is worth blocking: a flow between 1 and 10. */
  predicate Counts(c: Cut)
  {
    0 < c.flow <= MaxCount
  }

  /** The table after the `i`-th sample drawn from `mines`, from the table
      `w` before it. */
  function SampleStep(mines: seq<Int32>, banned: set<Int32>, rand: nat -> nat, dinic: (Int32, Int32) -> Cut,
                      w: map<Edge, real>, i: nat): map<Edge, real>
    requires |mines| >= 2
  {
    var pair := SampleMines(mines, rand, i);
    var c := dinic(pair.0, pair.1);
    if !Counts(c) then w else AddCut(w, c.minCut, banned, c.flow)
  }

  /** The table after the first `i` samples, starting from `base`. */
  function Sampled(mines: seq<Int32>, banned: set<Int32>, rand: nat -> nat, dinic: (Int32, Int32) -> Cut,
                   base: map<Edge, real>, i: nat): map<Edge, real>
    requires i <= SampleCount(|mines|)
  {
    if i == 0 then base
    else SampleStep(mines, banned, rand, dinic, Sampled(mines, banned, rand, dinic, base, i - 1), i - 1)
  }

  /** The table `Init` leaves: the save step, then every sample. */
  function InitWeights(g: Graph, p: Int32, rand: nat -> nat, dinic: (Int32, Int32) -> Cut): map<Edge, real>
  {
    var mines := SampledMines(g);
    Sampled(mines, BannedMines(g, p), rand, dinic, SaveWeights(g, p, rand(0)), SampleCount(|mines|))
  }

  /** Every weight in the table is positive. */
  lemma {:induction false} SampledPositive(mines: seq<Int32>, banned: set<Int32>, rand: nat -> nat, dinic: (Int32, Int32) -> Cut,
                                           base: map<Edge, real>, i: nat)
    requires i <= SampleCount(|mines|) && forall e :: e in base ==> base[e] > 0.0
    ensures forall e :: e in Sampled(mines, banned, rand, dinic, base, i) ==> Sampled(mines, banned, rand, dinic, base, i)[e] > 0.0
  {
    if i > 0 {
      SampledPositive(mines, banned, rand, dinic, base, i - 1);
      var w := Sampled(mines, banned, rand, dinic, base, i - 1);
      var pair := SampleMines(mines, rand, i - 1);
      var c := dinic(pair.0, pair.1);
      if Counts(c) {
        AddCutPositive(w, c.minCut, banned, c.flow);
      }
    }
  }

  /** An edge at a banned mine keeps the weight it started with: cut edges
      there gain nothing. */
  lemma {:induction false} BannedKeepWeight(mines: seq<Int32>, banned: set<Int32>, rand: nat -> nat, dinic: (Int32, Int32) -> Cut,
                                            base: map<Edge, real>, i: nat, e: Edge)
    requires i <= SampleCount(|mines|) && TouchesBanned(banned, e)
    ensures Weight(Sampled(mines, banned, rand, dinic, base, i), e) == Weight(base, e)
  {
    if i > 0 {
      BannedKeepWeight(mines, banned, rand, dinic, base, i - 1, e);
      var w := Sampled(mines, banned, rand, dinic, base, i - 1);
      var pair := SampleMines(mines, rand, i - 1);
      var c := dinic(pair.0, pair.1);
      if Counts(c) {
        AddCutWeight(w, c.minCut, banned, c.flow, e);
      }
    }
  }

  /** Sampling never lowers a weight, nor drops an edge from the table. */
  lemma {:induction false} SampledNoLess(mines: seq<Int32>, banned: set<Int32>, rand: nat -> nat, dinic: (Int32, Int32) -> Cut,
                                         base: map<Edge, real>, i: nat, e: Edge)
    requires i <= SampleCount(|mines|)
    ensures Weight(Sampled(mines, banned, rand, dinic, base, i), e) >= Weight(base, e)
    ensures e in base ==> e in Sampled(mines, banned, rand, dinic, base, i)
  {
    if i > 0 {
      SampledNoLess(mines, banned, rand, dinic, base, i - 1, e);
      var w := Sampled(mines, banned, rand, dinic, base, i - 1);
      var pair := SampleMines(mines, rand, i - 1);
      var c := dinic(pair.0, pair.1);
      if Counts(c) {
        AddCutNoLess(w, c.minCut, banned, c.flow, e);
      }
    }
  }

  /** Adding a cut never lowers a weight, nor drops an edge from the table. */
  lemma AddCutNoLess(w: map<Edge, real>, cut: seq<Edge>, banned: set<Int32>, flow: nat, e: Edge)
    requires flow > 0
    ensures Weight(AddCut(w, cut, banned, flow), e) >= Weight(w, e)
    ensures e in w ==> e in AddCut(w, cut, banned, flow)
  {
    AddCutWeight(w, cut, banned, flow, e);
  }

  /** When the first mine that needs saving has an unclaimed river, the
      river the save step picked is still in the table `Init` leaves, with
      weight at least 10. */
  lemma SavedRiverKept(g: Graph, p: Int32, rand: nat -> nat, dinic: (Int32, Int32) -> Cut)
    requires MineToSave(g.mines, g, p).Some? && FreeCount(g, MineToSave(g.mines, g, p).value) > 0
    ensures var e := EdgeToSave(g, MineToSave(g.mines, g, p).value, rand(0)).value;
            && e in Edges(g, MineToSave(g.mines, g, p).value) && IsUnclaimed(e)
            && e in InitWeights(g, p, rand, dinic) && InitWeights(g, p, rand, dinic)[e] >= SaveWeight
  {
    var m := MineToSave(g.mines, g, p).value;
    var e := EdgeToSave(g, m, rand(0)).value;
    var mines := SampledMines(g);
    var base := SaveWeights(g, p, rand(0));
    assert e in base && base[e] == SaveWeight;
    SampledNoLess(mines, BannedMines(g, p), rand, dinic, base, SampleCount(|mines|), e);
  }

  /** A sample whose flow is 0 or above 10 leaves the table as it was. */
  lemma SkippedSampleChangesNothing(mines: seq<Int32>, banned: set<Int32>, rand: nat -> nat, dinic: (Int32, Int32) -> Cut,
                                    base: map<Edge, real>, i: nat)
    requires i < SampleCount(|mines|)
    requires !Counts(dinic(SampleMines(mines, rand, i).0, SampleMines(mines, rand, i).1))
    ensures Sampled(mines, banned, rand, dinic, base, i + 1) == Sampled(mines, banned, rand, dinic, base, i)
  {
  }

  /** In the table a turn builds, every weight is positive, and an edge at a
      banned mine weighs 10 if it is the river to save and nothing
      otherwise. */
  lemma InitWeightsFacts(g: Graph, p: Int32, rand: nat -> nat, dinic: (Int32, Int32) -> Cut, e: Edge)
    ensures e in InitWeights(g, p, rand, dinic) ==> InitWeights(g, p, rand, dinic)[e] > 0.0
    ensures TouchesBanned(BannedMines(g, p), e) ==>
              Weight(InitWeights(g, p, rand, dinic), e) == Weight(SaveWeights(g, p, rand(0)), e)
  {
    var mines := SampledMines(g);
    var base := SaveWeights(g, p, rand(0));
    SampledPositive(mines, BannedMines(g, p), rand, dinic, base, SampleCount(|mines|));
    if TouchesBanned(BannedMines(g, p), e) {
      BannedKeepWeight(mines, BannedMines(g, p), rand, dinic, base, SampleCount(|mines|), e);
    }
  }

  /** The candidate for an edge: a claim of its river by `p`, estimated by
      the edge's weight. */
  function TurnFor(w: map<Edge, real>, p: Int32, e: Edge): TurnResult
  {
    TurnResult(Weight(w, e), Some(Claim(p, e.river.source, e.river.target)), None)
  }

  /** The candidates of positive weight among `es`, in order. */
  function Candidates(es: seq<Edge>, w: map<Edge, real>, p: Int32): (r: seq<TurnResult>)
    ensures forall t :: t in r ==> t.estimation > 0.0 && t.move.Some? && t.move.value.Claim? && t.move.value.punter == p
    ensures forall t :: t in r <==> exists e :: e in es && Weight(w, e) > 0.0 && t == TurnFor(w, p, e)
  {
    if es == [] then []
    else
      var rest := Candidates(es[1..], w, p);
      assert forall e :: e in es <==> e == es[0] || e in es[1..];
      if Weight(w, es[0]) > 0.0 then [TurnFor(w, p, es[0])] + rest else rest
  }

  class LochDinicKillerStrategy {
    const graph: Graph
    const punterId: Int32
    /** The blocking weight of each edge, rebuilt on every turn. */
    var edgesToBlock: map<Edge, real>

    constructor(graph: Graph, punterId: Int32)
      ensures this.graph == graph && this.punterId == punterId && edgesToBlock == map[]
    {
      this.graph := graph;
      this.punterId := punterId;
      edgesToBlock := map[];
    }

    /** The weight of an edge, 0 for an edge not in the table; while every
        weight in the table is positive, as `Init` leaves it, an edge has a
        positive estimation exactly when it is in the table. */
    function EstimateWeight(e: Edge): (r: real)
      reads this
      ensures e !in edgesToBlock ==> r == 0.0
      ensures (forall x :: x in edgesToBlock ==> edgesToBlock[x] > 0.0) ==> (r > 0.0 <==> e in edgesToBlock)
    {
      Weight(edgesToBlock, e)
    }

    /** Rebuilds the table from scratch: the river to save, then the cuts of
        the sampled mine pairs. Nothing of the previous table survives. */
    method Init(rand: nat -> nat, dinic: (Int32, Int32) -> Cut)
      modifies this
      ensures edgesToBlock == InitWeights(graph, punterId, rand, dinic)
    {
      edgesToBlock := SaveWeights(graph, punterId, rand(0));
      SampleCuts(SampledMines(graph), BannedMines(graph, punterId), rand, dinic);
    }

    /** The sampling loop of `Init`: `Math.Min(10, n * (n - 1))` pairs of the
        `n` mines are drawn, and the cut of each pair with a flow between 1
        and 10 is added to the table. */
    method SampleCuts(mines: seq<Int32>, banned: set<Int32>, rand: nat -> nat, dinic: (Int32, Int32) -> Cut)
      modifies this
      ensures edgesToBlock == Sampled(mines, banned, rand, dinic, old(edgesToBlock), SampleCount(|mines|))
    {
      var count := SampleCount(|mines|);
      ghost var base := edgesToBlock;
      for i := 0 to count
        invariant edgesToBlock == Sampled(mines, banned, rand, dinic, base, i)
      {
        SampleOnce(mines, banned, rand, dinic, base, i);
      }
    }

    /** One pass of the sampling loop: draw a pair, compute its cut, and
        skip it when its flow is 0 or above 10. */
    method SampleOnce(mines: seq<Int32>, banned: set<Int32>, rand: nat -> nat, dinic: (Int32, Int32) -> Cut,
                      ghost base: map<Edge, real>, i: nat)
      requires i < SampleCount(|mines|)
      requires edgesToBlock == Sampled(mines, banned, rand, dinic, base, i)
      modifies this
      ensures edgesToBlock == Sampled(mines, banned, rand, dinic, base, i + 1)
    {
      var pair := SampleMines(mines, rand, i);
      var c := dinic(pair.0, pair.1);
      if c.flow == 0 || c.flow > MaxCount {
        return;
      }
      BlockCut(c.minCut, banned, c.flow);
    }

    /** Adds `1/flow` to the weight of every edge of the cut that touches no
        banned mine. */
    method BlockCut(cut: seq<Edge>, banned: set<Int32>, flow: nat)
      requires flow > 0
      modifies this
      ensures edgesToBlock == AddCut(old(edgesToBlock), cut, banned, flow)
    {
      for j := 0 to |cut|
        invariant edgesToBlock == AddCut(old(edgesToBlock), cut[..j], banned, flow)
      {
        var edge := cut[j];
        assert cut[..j + 1][..j] == cut[..j];
        if TouchesBanned(banned, edge) {
          continue;
        }
        edgesToBlock := edgesToBlock[edge := Weight(edgesToBlock, edge) + 1.0 / (flow as real)];
      }
      assert cut[..|cut|] == cut;
    }

    /** Rebuilds the table and offers a claim of every edge of positive
        weight, over all edges of the graph site by site. */
    method NextTurns(rand: nat -> nat, dinic: (Int32, Int32) -> Cut) returns (result: seq<TurnResult>)
      modifies this
      ensures edgesToBlock == InitWeights(graph, punterId, rand, dinic)
      ensures result == Candidates(AllEdges(graph), edgesToBlock, punterId)
    {
      Init(rand, dinic);
      result := Candidates(AllEdges(graph), edgesToBlock, punterId);
    }
  }

  /** In a graph built from a map, the river saved for the first mine that
      needs saving is offered: a claim of it by the punter, of weight at
      least 10, is among the candidates of the turn. */
  lemma SavedRiverOffered(g: Graph, p: Int32, rand: nat -> nat, dinic: (Int32, Int32) -> Cut)
    requires ValidGraph(g)
    requires MineToSave(g.mines, g, p).Some? && FreeCount(g, MineToSave(g.mines, g, p).value) > 0
    ensures var e := EdgeToSave(g, MineToSave(g.mines, g, p).value, rand(0)).value;
            var t := TurnFor(InitWeights(g, p, rand, dinic), p, e);
            && t in Candidates(AllEdges(g), InitWeights(g, p, rand, dinic), p)
            && t.estimation >= SaveWeight && t.move == Some(Claim(p, e.river.source, e.river.target))
  {
    var m := MineToSave(g.mines, g, p).value;
    var e := EdgeToSave(g, m, rand(0)).value;
    SavedRiverKept(g, p, rand, dinic);
    assert m in g.vertices && e in AllEdges(g);
  }

  /** What a turn offers: claims by the punter, each of a river of the graph
      whose blocking weight is positive; a river the table leaves out is
      never offered through any of its edges. */
  lemma OfferedAreWeighted(g: Graph, p: Int32, rand: nat -> nat, dinic: (Int32, Int32) -> Cut, t: TurnResult)
    requires t in Candidates(AllEdges(g), InitWeights(g, p, rand, dinic), p)
    ensures exists e :: e in InitWeights(g, p, rand, dinic) && InitWeights(g, p, rand, dinic)[e] > 0.0
                        && e in AllEdges(g) && t == TurnFor(InitWeights(g, p, rand, dinic), p, e)
  {
    var w := InitWeights(g, p, rand, dinic);
    var e :| e in AllEdges(g) && Weight(w, e) > 0.0 && t == TurnFor(w, p, e);
    InitWeightsFacts(g, p, rand, dinic, e);
  }
}
