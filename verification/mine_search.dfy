/** The two breadth-first searches of the "connect closest mines" AI, over
    unclaimed rivers, starting from the mines the AI has not connected yet.
    The first stops at a site that touches one of the punter's rivers; the
    second tags every site with the mine it was reached from and stops where
    two tags meet. Each search enters a site at most once. */
module MineSearch {
  import opened Common
  import opened Graphs

  /** Queue entries of the two searches; `None` stands for the program's
      `null` edge of a start mine. */
  datatype ExtendItem = ExtendItem(vertex: Int32, edge: Option<Edge>)
  datatype BuildItem = BuildItem(vertex: Int32, source: Int32, firstEdge: Option<Edge>)

  /** Where the second search stops: the unclaimed `edge` out of the current
      entry's site leads to a site already entered from another start mine. */
  datatype Meeting = Meeting(prev: BuildItem, current: BuildItem, edge: Edge)

  /** Some start mine touches a river of punter `p` itself. */
  ghost predicate SomeStartTouches(g: Graph, p: Int32, starts: seq<Int32>)
  {
    exists m :: m in starts && TouchesOwned(g, p, m)
  }

  /** No unclaimed walk from a start mine reaches a site that touches a river
      of punter `p`. */
  ghost predicate NothingOwnedInReach(g: Graph, p: Int32, starts: seq<Int32>)
  {
    forall m, walk :: m in starts && UnclaimedWalk(g, m, walk) ==> !TouchesOwned(g, p, WalkEnd(m, walk))
  }

  /** No unclaimed walk leads from one start mine to another. */
  ghost predicate StartsSeparated(g: Graph, starts: seq<Int32>)
  {
    forall m, walk :: m in starts && UnclaimedWalk(g, m, walk) && WalkEnd(m, walk) in starts ==> WalkEnd(m, walk) == m
  }

  /** Both searches enter new sites only: the set of entered sites, bounded
      by the sites of the graph, grows whenever the queue does. */
  lemma EnteredShrinksRest(all: set<Int32>, used0: set<Int32>, used: set<Int32>)
    requires used0 <= used <= all && used != used0
    ensures all - used < all - used0
  {
    var x :| x in used && x !in used0;
    assert x in all - used0;
  }

  // ----- the search of TryExtendComponent -----

  /** How a queue entry was reached: an unclaimed walk from a start mine. */
  datatype Trail = Trail(start: Int32, walk: seq<Edge>)

  /** `t` is an unclaimed walk from a start mine to `v`. */
  ghost predicate TrailTo(g: Graph, starts: seq<Int32>, t: Trail, v: Int32)
  {
    t.start in starts && UnclaimedWalk(g, t.start, t.walk) && WalkEnd(t.start, t.walk) == v
  }

  /** No unclaimed walk from a start mine to a site touching a river of
      punter `p` is shorter than `n`. */
  ghost predicate NearestTouching(g: Graph, p: Int32, starts: seq<Int32>, n: nat)
  {
    forall m, walk :: m in starts && UnclaimedWalk(g, m, walk) && TouchesOwned(g, p, WalkEnd(m, walk)) ==> n <= |walk|
  }

  /** `e` is the last edge of a shortest unclaimed walk `t` from a start
      mine to a site touching a river of punter `p`. */
  ghost predicate NearestArrival(g: Graph, p: Int32, starts: seq<Int32>, t: Trail, e: Edge)
  {
    && t.start in starts && UnclaimedWalk(g, t.start, t.walk)
    && t.walk != [] && t.walk[|t.walk| - 1] == e && WalkEnd(t.start, t.walk) == e.to
    && TouchesOwned(g, p, e.to) && NearestTouching(g, p, starts, |t.walk|)
  }

  /** `pos` only gained entries. */
  ghost predicate Grows(pos0: map<Int32, nat>, pos: map<Int32, nat>)
  {
    forall v :: v in pos0 ==> v in pos && pos[v] == pos0[v]
  }

  /** Every unclaimed river out of `v` leads to an entered site whose walk
      is at most `bound` long. */
  ghost predicate ClosedAt(g: Graph, v: Int32, pos: map<Int32, nat>, trails: seq<Trail>, bound: int)
  {
    forall e :: e in Edges(g, v) && e.river.owner == NoOwner ==>
                  e.to in pos && pos[e.to] < |trails| && |trails[pos[e.to]].walk| <= bound
  }

  /** A queue entry other than a start mine: the unclaimed edge it was
      reached by ends at its site. */
  ghost predicate Arrived(g: Graph, it: ExtendItem)
  {
    it.edge.Some? && FreeEdge(g, it.edge.value) && it.edge.value.to == it.vertex
  }

  /** Breadth-first order: no entry is more than one edge further than
      the entry `c`. */
  ghost predicate Frontier(trails: seq<Trail>, c: int)
  {
    0 <= c < |trails| && forall k :: 0 <= k < |trails| ==> |trails[k].walk| <= |trails[c].walk| + 1
  }

  /** The walks of the entries grow along the queue. */
  ghost predicate Growing(trails: seq<Trail>)
  {
    forall i, j :: 0 <= i <= j < |trails| ==> |trails[i].walk| <= |trails[j].walk|
  }

  /** Every entry is reached by its trail, an unclaimed walk from a start
      mine; the start mines come first, with empty walks, and every later
      entry arrived over the last edge of its walk. */
  ghost predicate Walked(g: Graph, starts: seq<Int32>, items: seq<ExtendItem>, trails: seq<Trail>)
  {
    && |starts| <= |items| && |trails| == |items|
    && (forall k :: 0 <= k < |starts| ==> items[k] == ExtendItem(starts[k], None) && trails[k].walk == [])
    && (forall k :: |starts| <= k < |items| ==>
          Arrived(g, items[k]) && trails[k].walk != [] && trails[k].walk[|trails[k].walk| - 1] == items[k].edge.value)
    && (forall k {:trigger TrailTo(g, starts, trails[k], items[k].vertex)} ::
          0 <= k < |items| ==> TrailTo(g, starts, trails[k], items[k].vertex))
  }

  /** `used` holds exactly the sites entered, and `pos` gives an entry for
      each; a start mine's entry is among the first. */
  ghost predicate Indexed(g: Graph, starts: seq<Int32>, items: seq<ExtendItem>, used: set<Int32>, pos: map<Int32, nat>)
  {
    && used == pos.Keys && used <= g.adj.Keys
    && (forall m :: m in starts ==> m in pos && pos[m] < |starts|)
    && (forall k :: 0 <= k < |items| ==> items[k].vertex in used)
    && (forall v :: v in pos ==> pos[v] < |items| && items[pos[v]].vertex == v)
  }

  /** The queue of the first search: every entry reached by an unclaimed
      walk from a start mine, walks growing along the queue, and each site
      entered once. */
  ghost predicate ExtendQueue(g: Graph, starts: seq<Int32>, items: seq<ExtendItem>, used: set<Int32>,
                              pos: map<Int32, nat>, trails: seq<Trail>)
  {
    Walked(g, starts, items, trails) && Growing(trails) && Indexed(g, starts, items, used, pos)
  }

  /** The first `head` entries are dequeued: none touches a river of `p`,
      and all their unclaimed rivers lead to entered sites at most one edge
      further. */
  ghost predicate ExtendDone(g: Graph, p: Int32, items: seq<ExtendItem>, pos: map<Int32, nat>, trails: seq<Trail>, head: int)
    requires |trails| == |items|
  {
    forall k :: 0 <= k < head && k < |items| ==>
                  !TouchesOwned(g, p, items[k].vertex) && ClosedAt(g, items[k].vertex, pos, trails, |trails[k].walk| + 1)
  }

  /** The trail of entry `k`. */
  lemma TrailOf(g: Graph, starts: seq<Int32>, items: seq<ExtendItem>, trails: seq<Trail>, k: int)
    requires Walked(g, starts, items, trails) && 0 <= k < |items|
    ensures trails[k].start in starts && UnclaimedWalk(g, trails[k].start, trails[k].walk)
    ensures WalkEnd(trails[k].start, trails[k].walk) == items[k].vertex
  {
    assert TrailTo(g, starts, trails[k], items[k].vertex);
  }

  lemma WalkedPush(g: Graph, starts: seq<Int32>, items: seq<ExtendItem>, trails: seq<Trail>, c: int, e: Edge)
    requires Walked(g, starts, items, trails) && 0 <= c < |items|
    requires FreeEdge(g, e) && e.from == items[c].vertex
    ensures Walked(g, starts, items + [ExtendItem(e.to, Some(e))], trails + [Trail(trails[c].start, trails[c].walk + [e])])
  {
    var t := Trail(trails[c].start, trails[c].walk + [e]);
    TrailOf(g, starts, items, trails, c);
    WalkPush(g, t.start, trails[c].walk, e);
    var items', trails' := items + [ExtendItem(e.to, Some(e))], trails + [t];
    forall k | 0 <= k < |items'|
      ensures TrailTo(g, starts, trails'[k], items'[k].vertex)
    {
      if k < |items| {
        assert items'[k] == items[k] && trails'[k] == trails[k];
        assert TrailTo(g, starts, trails[k], items[k].vertex);
      }
    }
    forall k | |starts| <= k < |items'|
      ensures Arrived(g, items'[k]) && trails'[k].walk != [] && trails'[k].walk[|trails'[k].walk| - 1] == items'[k].edge.value
    {
      if k < |items| {
        assert items'[k] == items[k] && trails'[k] == trails[k];
      }
    }
    forall k | 0 <= k < |starts| ensures items'[k] == ExtendItem(starts[k], None) && trails'[k].walk == [] {
      assert items'[k] == items[k] && trails'[k] == trails[k];
    }
  }

  lemma GrowingPush(trails: seq<Trail>, c: int, t: Trail)
    requires Growing(trails) && Frontier(trails, c) && |t.walk| == |trails[c].walk| + 1
    ensures Growing(trails + [t]) && Frontier(trails + [t], c)
  {
    var trails' := trails + [t];
    forall i, j | 0 <= i <= j < |trails'| ensures |trails'[i].walk| <= |trails'[j].walk| {
      if j < |trails| {
        assert trails'[i] == trails[i] && trails'[j] == trails[j];
      } else if i < |trails| {
        assert trails'[i] == trails[i];
      }
    }
    forall k | 0 <= k < |trails'| ensures |trails'[k].walk| <= |trails'[c].walk| + 1 {
      if k < |trails| {
        assert trails'[k] == trails[k];
      }
    }
  }

  lemma IndexedPush(g: Graph, starts: seq<Int32>, items: seq<ExtendItem>, used: set<Int32>, pos: map<Int32, nat>, it: ExtendItem)
    requires Indexed(g, starts, items, used, pos) && it.vertex in g.adj && it.vertex !in used
    ensures Indexed(g, starts, items + [it], used + {it.vertex}, pos[it.vertex := |items|])
  {
    var items' := items + [it];
    forall k | 0 <= k < |items'| ensures items'[k].vertex in used + {it.vertex} {
      if k < |items| {
        assert items'[k] == items[k];
      }
    }
    forall v | v in pos ensures items'[pos[v]] == items[pos[v]] {
    }
  }

  lemma ExtendQueuePush(g: Graph, starts: seq<Int32>, items: seq<ExtendItem>, used: set<Int32>,
                        pos: map<Int32, nat>, trails: seq<Trail>, c: int, e: Edge)
    requires ExtendQueue(g, starts, items, used, pos, trails) && Frontier(trails, c)
    requires FreeEdge(g, e) && e.from == items[c].vertex && e.to in g.adj && e.to !in used
    ensures ExtendQueue(g, starts, items + [ExtendItem(e.to, Some(e))], used + {e.to}, pos[e.to := |items|],
                        trails + [Trail(trails[c].start, trails[c].walk + [e])])
    ensures Frontier(trails + [Trail(trails[c].start, trails[c].walk + [e])], c)
  {
    WalkedPush(g, starts, items, trails, c, e);
    GrowingPush(trails, c, Trail(trails[c].start, trails[c].walk + [e]));
    IndexedPush(g, starts, items, used, pos, ExtendItem(e.to, Some(e)));
  }

  /** The queue before the search: the start mines, in order. */
  method StartExtendQueue(g: Graph, starts: seq<Int32>)
    returns (items: seq<ExtendItem>, used: set<Int32>, ghost pos: map<Int32, nat>, ghost trails: seq<Trail>)
    requires forall m :: m in starts ==> m in g.adj
    ensures ExtendQueue(g, starts, items, used, pos, trails)
    ensures items == seq(|starts|, k requires 0 <= k < |starts| => ExtendItem(starts[k], None))
    ensures used == set m | m in starts
  {
    items, used, pos, trails := [], {}, map[], [];
    for i := 0 to |starts|
      invariant |items| == i && |trails| == i && used == pos.Keys && used <= g.adj.Keys
      invariant used == set m | m in starts[..i]
      invariant forall m :: m in starts[..i] ==> m in pos && pos[m] < i
      invariant forall k :: 0 <= k < i ==> items[k] == ExtendItem(starts[k], None)
      invariant forall k :: 0 <= k < i ==> trails[k] == Trail(starts[k], [])
      invariant forall v :: v in pos ==> pos[v] < i && items[pos[v]].vertex == v
    {
      assert starts[..i + 1] == starts[..i] + [starts[i]];
      items := items + [ExtendItem(starts[i], None)];
      trails := trails + [Trail(starts[i], [])];
      used := used + {starts[i]};
      pos := pos[starts[i] := i];
    }
    assert starts[..|starts|] == starts;
    forall k | 0 <= k < |items| ensures items[k].vertex in used && TrailTo(g, starts, trails[k], items[k].vertex) {
      assert starts[k] in starts;
    }
  }

  /** The invariant of the inner loop of the first search, after the first
      `j` edges of `free`: the queue grew from (`items0`, `used0`, `pos0`,
      `trails0`) and the far end of each of those edges is entered at most
      one edge further than the current entry `c`. */
  ghost predicate Extending(g: Graph, starts: seq<Int32>, free: seq<Edge>, j: int, c: int,
                            items0: seq<ExtendItem>, used0: set<Int32>, pos0: map<Int32, nat>, trails0: seq<Trail>,
                            items: seq<ExtendItem>, used: set<Int32>, pos: map<Int32, nat>, trails: seq<Trail>)
  {
    && 0 <= c < |trails0| && 0 <= j <= |free|
    && ExtendQueue(g, starts, items, used, pos, trails) && Frontier(trails, c)
    && used0 <= used && (used == used0 ==> items == items0)
    && items0 <= items && trails0 <= trails && Grows(pos0, pos)
    && Enqueued(free, j, pos, trails, |trails0[c].walk| + 1)
  }

  /** One step of the inner loop of the first search: the far end of
      `free[j]`, if not entered yet, is enqueued with that edge and the
      current entry's walk extended by it. */
  method EnqueueExtension(g: Graph, ghost starts: seq<Int32>, free: seq<Edge>, j: int, ghost c: int,
                          ghost items0: seq<ExtendItem>, ghost used0: set<Int32>, ghost pos0: map<Int32, nat>,
                          ghost trails0: seq<Trail>,
                          items: seq<ExtendItem>, used: set<Int32>, ghost pos: map<Int32, nat>, ghost trails: seq<Trail>)
    returns (items': seq<ExtendItem>, used': set<Int32>, ghost pos': map<Int32, nat>, ghost trails': seq<Trail>)
    requires Extending(g, starts, free, j, c, items0, used0, pos0, trails0, items, used, pos, trails) && j < |free|
    requires FreeEdge(g, free[j]) && free[j].from == items[c].vertex && free[j].to in g.adj
    ensures Extending(g, starts, free, j + 1, c, items0, used0, pos0, trails0, items', used', pos', trails')
  {
    var edge := free[j];
    var next := edge.to;
    items', used', pos', trails' := items, used, pos, trails;
    if next !in used {
      ExtendingPush(g, starts, free, j, c, items0, used0, pos0, trails0, items, used, pos, trails);
      pos' := pos[next := |items|];
      items' := items + [ExtendItem(next, Some(edge))];
      trails' := trails + [Trail(trails[c].start, trails[c].walk + [edge])];
      used' := used + {next};
    } else {
      ExtendingSkip(g, starts, free, j, c, items0, used0, pos0, trails0, items, used, pos, trails);
    }
  }

  lemma ExtendingSkip(g: Graph, starts: seq<Int32>, free: seq<Edge>, j: int, c: int,
                      items0: seq<ExtendItem>, used0: set<Int32>, pos0: map<Int32, nat>, trails0: seq<Trail>,
                      items: seq<ExtendItem>, used: set<Int32>, pos: map<Int32, nat>, trails: seq<Trail>)
    requires Extending(g, starts, free, j, c, items0, used0, pos0, trails0, items, used, pos, trails) && j < |free|
    requires free[j].to in used
    ensures Extending(g, starts, free, j + 1, c, items0, used0, pos0, trails0, items, used, pos, trails)
  {
    assert trails[c] == trails0[c];
    EnqueuedPush(free, j, pos, pos, trails, trails, |trails0[c].walk| + 1);
  }

  lemma ExtendingPush(g: Graph, starts: seq<Int32>, free: seq<Edge>, j: int, c: int,
                      items0: seq<ExtendItem>, used0: set<Int32>, pos0: map<Int32, nat>, trails0: seq<Trail>,
                      items: seq<ExtendItem>, used: set<Int32>, pos: map<Int32, nat>, trails: seq<Trail>)
    requires Extending(g, starts, free, j, c, items0, used0, pos0, trails0, items, used, pos, trails) && j < |free|
    requires FreeEdge(g, free[j]) && free[j].from == items[c].vertex && free[j].to in g.adj && free[j].to !in used
    ensures Extending(g, starts, free, j + 1, c, items0, used0, pos0, trails0,
                      items + [ExtendItem(free[j].to, Some(free[j]))], used + {free[j].to}, pos[free[j].to := |items|],
                      trails + [Trail(trails[c].start, trails[c].walk + [free[j]])])
  {
    var e := free[j];
    var pos', trails' := pos[e.to := |items|], trails + [Trail(trails[c].start, trails[c].walk + [e])];
    ExtendQueuePush(g, starts, items, used, pos, trails, c, e);
    assert trails'[c] == trails0[c];
    assert Grows(pos0, pos');
    EnqueuedPush(free, j, pos, pos', trails, trails', |trails0[c].walk| + 1);
  }

  /** The inner loop of the first search: the far end of every unclaimed edge
      of the current entry `c`, if not entered yet, is enqueued with that
      edge and the entry's walk extended by it. */
  method EnqueueExtensions(g: Graph, ghost starts: seq<Int32>, free: seq<Edge>, items: seq<ExtendItem>,
                           used: set<Int32>, ghost pos: map<Int32, nat>, ghost trails: seq<Trail>, ghost c: int)
    returns (items': seq<ExtendItem>, used': set<Int32>, ghost pos': map<Int32, nat>, ghost trails': seq<Trail>)
    requires ExtendQueue(g, starts, items, used, pos, trails) && Frontier(trails, c)
    requires forall e :: e in free ==> FreeEdge(g, e) && e.from == items[c].vertex && e.to in g.adj
    ensures Extending(g, starts, free, |free|, c, items, used, pos, trails, items', used', pos', trails')
  {
    items', used', pos', trails' := items, used, pos, trails;
    for j := 0 to |free|
      invariant Extending(g, starts, free, j, c, items, used, pos, trails, items', used', pos', trails')
    {
      assert items'[c] == items[c];
      items', used', pos', trails' := EnqueueExtension(g, starts, free, j, c, items, used, pos, trails, items', used', pos', trails');
    }
  }

  /** The far ends of the first `j` edges of `free` are entered, with walks
      at most `bound` long. */
  ghost predicate Enqueued(free: seq<Edge>, j: int, pos: map<Int32, nat>, trails: seq<Trail>, bound: int)
  {
    forall i :: 0 <= i < j && i < |free| ==>
                  free[i].to in pos && pos[free[i].to] < |trails| && |trails[pos[free[i].to]].walk| <= bound
  }

  /** Once every unclaimed edge of `v` is enqueued, `v` is closed. */
  lemma EnqueuedCloses(g: Graph, v: Int32, free: seq<Edge>, pos: map<Int32, nat>, trails: seq<Trail>, bound: int)
    requires free == UnclaimedOf(Edges(g, v)) && Enqueued(free, |free|, pos, trails, bound)
    ensures ClosedAt(g, v, pos, trails, bound)
  {
    forall e | e in Edges(g, v) && e.river.owner == NoOwner
      ensures e.to in pos && pos[e.to] < |trails| && |trails[pos[e.to]].walk| <= bound
    {
      assert e in free;
      var i :| 0 <= i < |free| && free[i] == e;
    }
  }

  lemma EnqueuedPush(free: seq<Edge>, j: int, pos0: map<Int32, nat>, pos: map<Int32, nat>,
                     trails0: seq<Trail>, trails: seq<Trail>, bound: int)
    requires 0 <= j < |free| && Enqueued(free, j, pos0, trails0, bound)
    requires Grows(pos0, pos) && trails0 <= trails
    requires free[j].to in pos && pos[free[j].to] < |trails| && |trails[pos[free[j].to]].walk| <= bound
    ensures Enqueued(free, j + 1, pos, trails, bound)
  {
    forall i | 0 <= i < j + 1
      ensures free[i].to in pos && pos[free[i].to] < |trails| && |trails[pos[free[i].to]].walk| <= bound
    {
      if i < j {
        assert trails[pos0[free[i].to]] == trails0[pos0[free[i].to]];
      }
    }
  }

  /** After the current entry's unclaimed edges are enqueued, the entries
      dequeued so far, the current one included, are done. */
  lemma ExtendStepDone(g: Graph, p: Int32, items0: seq<ExtendItem>, items: seq<ExtendItem>,
                       pos0: map<Int32, nat>, pos: map<Int32, nat>, trails0: seq<Trail>, trails: seq<Trail>, head: int)
    requires |trails0| == |items0| && |trails| == |items|
    requires 1 <= head <= |items0| && items0 <= items && trails0 <= trails && Grows(pos0, pos)
    requires ExtendDone(g, p, items0, pos0, trails0, head - 1)
    requires !TouchesOwned(g, p, items0[head - 1].vertex)
    requires ClosedAt(g, items0[head - 1].vertex, pos, trails, |trails0[head - 1].walk| + 1)
    ensures ExtendDone(g, p, items, pos, trails, head)
  {
    forall k | 0 <= k < head
      ensures !TouchesOwned(g, p, items[k].vertex) && ClosedAt(g, items[k].vertex, pos, trails, |trails[k].walk| + 1)
    {
      assert items[k] == items0[k] && trails[k] == trails0[k];
      if k < head - 1 {
        forall e | e in Edges(g, items[k].vertex) && e.river.owner == NoOwner
          ensures e.to in pos && pos[e.to] < |trails| && |trails[pos[e.to]].walk| <= |trails[k].walk| + 1
        {
          assert trails[pos0[e.to]] == trails0[pos0[e.to]];
        }
      }
    }
  }

  /** Every site within `|trails[h].walk|` unclaimed edges of a start mine
      is entered with a walk no longer than the one that reaches it, when
      the entries before `h` are done. */
  lemma {:induction false} ExtendReach(g: Graph, p: Int32, starts: seq<Int32>, items: seq<ExtendItem>, used: set<Int32>,
                                       pos: map<Int32, nat>, trails: seq<Trail>, h: int, m: Int32, walk: seq<Edge>)
    requires ExtendQueue(g, starts, items, used, pos, trails) && 0 <= h < |items|
    requires ExtendDone(g, p, items, pos, trails, h)
    requires m in starts && UnclaimedWalk(g, m, walk) && |walk| <= |trails[h].walk|
    ensures WalkEnd(m, walk) in pos && |trails[pos[WalkEnd(m, walk)]].walk| <= |walk|
    decreases |walk|
  {
    if walk == [] {
      assert trails[pos[m]].walk == [];
    } else {
      var init := walk[..|walk| - 1];
      WalkPop(g, m, walk);
      ExtendReach(g, p, starts, items, used, pos, trails, h, m, init);
      var k := pos[WalkEnd(m, init)];
      assert k < h;
      assert items[k].vertex == WalkEnd(m, init);
    }
  }

  /** The entry `h` that stops the search is a start mine exactly when it
      has no arrival edge; when it has one, no start mine touches the
      punter's rivers (they were all dequeued before it), and its edge ends
      a shortest unclaimed walk from a start mine to a site touching them. */
  lemma ExtendFound(g: Graph, p: Int32, starts: seq<Int32>, items: seq<ExtendItem>, used: set<Int32>,
                    pos: map<Int32, nat>, trails: seq<Trail>, h: int)
    requires ExtendQueue(g, starts, items, used, pos, trails) && 0 <= h < |items|
    requires ExtendDone(g, p, items, pos, trails, h) && TouchesOwned(g, p, items[h].vertex)
    ensures items[h].edge.None? ==> items[h].vertex in starts
    ensures items[h].edge.Some? ==>
              && Arrived(g, items[h]) && (forall m :: m in starts ==> !TouchesOwned(g, p, m))
              && NearestArrival(g, p, starts, trails[h], items[h].edge.value)
  {
    if items[h].edge.None? {
      assert items[h].vertex == starts[h];
    } else {
      forall m | m in starts
        ensures !TouchesOwned(g, p, m)
      {
        var k :| 0 <= k < |starts| && starts[k] == m;
        assert items[k].vertex == m;
      }
      forall m, walk | m in starts && UnclaimedWalk(g, m, walk) && |walk| < |trails[h].walk|
        ensures !TouchesOwned(g, p, WalkEnd(m, walk))
      {
        ExtendReach(g, p, starts, items, used, pos, trails, h, m, walk);
        var k := pos[WalkEnd(m, walk)];
        assert k < h;
        assert items[k].vertex == WalkEnd(m, walk);
      }
      TrailOf(g, starts, items, trails, h);
      WalkPop(g, trails[h].start, trails[h].walk);
    }
  }

  /** A queue processed to its end without meeting a site that touches the
      punter's rivers: no unclaimed walk from a start mine reaches one. */
  lemma ExtendExhausted(g: Graph, p: Int32, starts: seq<Int32>, items: seq<ExtendItem>, used: set<Int32>,
                        pos: map<Int32, nat>, trails: seq<Trail>)
    requires ExtendQueue(g, starts, items, used, pos, trails) && ExtendDone(g, p, items, pos, trails, |items|)
    ensures NothingOwnedInReach(g, p, starts)
  {
    var tags := map v | v in used :: true;
    forall u, e | u in tags && e in Edges(g, u) && e.river.owner == NoOwner
      ensures e.to in tags && tags[e.to] == tags[u]
    {
      assert items[pos[u]].vertex == u;
    }
    forall m, walk | m in starts && UnclaimedWalk(g, m, walk)
      ensures !TouchesOwned(g, p, WalkEnd(m, walk))
    {
      LabelKeptAlongWalk(g, tags, m, walk);
      var w := WalkEnd(m, walk);
      assert items[pos[w]].vertex == w;
    }
  }

  /** The invariant of the first search with `head` entries dequeued. */
  ghost predicate Searching(g: Graph, p: Int32, starts: seq<Int32>, items: seq<ExtendItem>, used: set<Int32>,
                            pos: map<Int32, nat>, trails: seq<Trail>, head: int)
  {
    && ExtendQueue(g, starts, items, used, pos, trails)
    && 0 <= head <= |items| && (head < |items| ==> Frontier(trails, head))
    && ExtendDone(g, p, items, pos, trails, head)
  }

  /** Dequeues an entry whose site does not touch the punter's rivers and
      enqueues the far ends of its unclaimed edges. */
  method ExtendFrom(g: Graph, p: Int32, ghost starts: seq<Int32>, items: seq<ExtendItem>, used: set<Int32>,
                    ghost pos: map<Int32, nat>, ghost trails: seq<Trail>, head: nat)
    returns (items': seq<ExtendItem>, used': set<Int32>, ghost pos': map<Int32, nat>, ghost trails': seq<Trail>)
    requires EdgesWithin(g) && Searching(g, p, starts, items, used, pos, trails, head) && head < |items|
    requires !TouchesOwned(g, p, items[head].vertex)
    ensures Searching(g, p, starts, items', used', pos', trails', head + 1)
    ensures used <= used' <= g.adj.Keys && (used' == used ==> items' == items)
  {
    var free := UnclaimedOf(Edges(g, items[head].vertex));
    items', used', pos', trails' := EnqueueExtensions(g, starts, free, items, used, pos, trails, head);
    EnqueuedCloses(g, items[head].vertex, free, pos', trails', |trails[head].walk| + 1);
    ExtendStepDone(g, p, items, items', pos, pos', trails, trails', head + 1);
    if head + 1 < |items'| {
      assert |trails'[head].walk| <= |trails'[head + 1].walk|;
    }
  }

  /** The search of `TryExtendComponent`: breadth first over unclaimed rivers
      from the start mines, each site entered once, stopping at the first
      dequeued entry whose site touches a river of punter `p`. `trail` is
      the walk the search followed to that entry. */
  method SearchTouching(g: Graph, p: Int32, starts: seq<Int32>) returns (found: Option<ExtendItem>, ghost trail: Trail)
    requires EdgesWithin(g) && forall m :: m in starts ==> m in g.adj
    ensures found.Some? ==> TouchesOwned(g, p, found.value.vertex)
    ensures found.Some? && found.value.edge.None? ==> found.value.vertex in starts
    ensures found.Some? && found.value.edge.Some? ==>
              && Arrived(g, found.value) && (forall m :: m in starts ==> !TouchesOwned(g, p, m))
              && NearestArrival(g, p, starts, trail, found.value.edge.value)
    ensures found.None? ==> NothingOwnedInReach(g, p, starts)
  {
    trail := Trail(0, []);
    var items, used, pos, trails := StartExtendQueue(g, starts);
    var head := 0;
    while head < |items|
      invariant Searching(g, p, starts, items, used, pos, trails, head)
      decreases g.adj.Keys - used, |items| - head
    {
      if TouchesOwned(g, p, items[head].vertex) {
        ExtendFound(g, p, starts, items, used, pos, trails, head);
        return Some(items[head]), trails[head];
      }
      ghost var used0 := used;
      items, used, pos, trails := ExtendFrom(g, p, starts, items, used, pos, trails, head);
      head := head + 1;
      if used != used0 {
        EnteredShrinksRest(g.adj.Keys, used0, used);
      }
    }
    ExtendExhausted(g, p, starts, items, used, pos, trails);
    return None, trail;
  }

  // ----- the search of TryBuildNewComponent -----

  /** An entry of the second search belongs to the start mine `source`, and
      `walk` is the unclaimed walk from that mine it was reached by;
      `firstEdge` is the walk's first edge (none for the mine itself). */
  ghost predicate Sourced(g: Graph, starts: seq<Int32>, it: BuildItem, walk: seq<Edge>)
  {
    && it.source in starts && UnclaimedWalk(g, it.source, walk) && WalkEnd(it.source, walk) == it.vertex
    && (it.firstEdge.None? <==> walk == [])
    && (walk != [] ==> it.firstEdge == Some(walk[0]))
  }

  /** Every entry is reached from its start mine by its walk. */
  ghost predicate BuildWalked(g: Graph, starts: seq<Int32>, items: seq<BuildItem>, walks: seq<seq<Edge>>)
  {
    && |walks| == |items|
    && forall k {:trigger Sourced(g, starts, items[k], walks[k])} ::
         0 <= k < |items| ==> Sourced(g, starts, items[k], walks[k])
  }

  /** The walks grow along the queue. */
  ghost predicate Lengthening(walks: seq<seq<Edge>>)
  {
    forall i, j :: 0 <= i <= j < |walks| ==> |walks[i]| <= |walks[j]|
  }

  /** Breadth-first order: no entry is more than one edge further than the
      entry `c`. */
  ghost predicate BuildFrontier(walks: seq<seq<Edge>>, c: int)
  {
    0 <= c < |walks| && forall k :: 0 <= k < |walks| ==> |walks[k]| <= |walks[c]| + 1
  }

  /** `used` maps every site entered to its entry, `pos` gives its place in
      the queue, and each start mine is entered as its own source. */
  ghost predicate BuildIndexed(g: Graph, starts: seq<Int32>, items: seq<BuildItem>,
                               used: map<Int32, BuildItem>, pos: map<Int32, nat>)
  {
    && used.Keys == pos.Keys && used.Keys <= g.adj.Keys
    && (forall m :: m in starts ==> m in used && used[m] == BuildItem(m, m, None))
    && (forall v :: v in pos ==> pos[v] < |items| && items[pos[v]] == used[v] && used[v].vertex == v)
  }

  /** The queue of the second search. */
  ghost predicate BuildQueue(g: Graph, starts: seq<Int32>, items: seq<BuildItem>,
                             used: map<Int32, BuildItem>, pos: map<Int32, nat>, walks: seq<seq<Edge>>)
  {
    BuildWalked(g, starts, items, walks) && Lengthening(walks) && BuildIndexed(g, starts, items, used, pos)
  }

  /** The walk of entry `k`. */
  lemma SourcedOf(g: Graph, starts: seq<Int32>, items: seq<BuildItem>, walks: seq<seq<Edge>>, k: int)
    requires BuildWalked(g, starts, items, walks) && 0 <= k < |items|
    ensures Sourced(g, starts, items[k], walks[k])
  {
  }

  /** `used` only gained entries. */
  ghost predicate Grown(used0: map<Int32, BuildItem>, used: map<Int32, BuildItem>)
  {
    forall v :: v in used0 ==> v in used && used[v] == used0[v]
  }

  /** Every unclaimed river out of `v` leads to a site entered from `source`
      whose walk is at most `bound` long. */
  ghost predicate SameSourceAt(g: Graph, v: Int32, source: Int32, used: map<Int32, BuildItem>,
                               pos: map<Int32, nat>, walks: seq<seq<Edge>>, bound: int)
  {
    forall e :: e in Edges(g, v) && e.river.owner == NoOwner ==>
                  && e.to in used && used[e.to].source == source
                  && e.to in pos && pos[e.to] < |walks| && |walks[pos[e.to]]| <= bound
  }

  /** The first `head` entries are dequeued without a meeting. */
  ghost predicate BuildDone(g: Graph, items: seq<BuildItem>, used: map<Int32, BuildItem>, pos: map<Int32, nat>,
                            walks: seq<seq<Edge>>, head: int)
    requires |walks| == |items|
  {
    forall k :: 0 <= k < head && k < |items| ==>
                  SameSourceAt(g, items[k].vertex, items[k].source, used, pos, walks, |walks[k]| + 1)
  }

  /** The queue before the second search: each start mine is its own
      source, without a first edge. */
  method StartBuildQueue(g: Graph, starts: seq<Int32>)
    returns (items: seq<BuildItem>, used: map<Int32, BuildItem>, ghost pos: map<Int32, nat>, ghost walks: seq<seq<Edge>>)
    requires forall m :: m in starts ==> m in g.adj
    ensures BuildQueue(g, starts, items, used, pos, walks)
    ensures items == seq(|starts|, k requires 0 <= k < |starts| => BuildItem(starts[k], starts[k], None))
    ensures used.Keys == set m | m in starts
    ensures |walks| == |starts| && forall k :: 0 <= k < |walks| ==> walks[k] == []
  {
    items, used, pos, walks := [], map[], map[], [];
    for i := 0 to |starts|
      invariant |items| == i && |walks| == i && used.Keys == pos.Keys && used.Keys <= g.adj.Keys
      invariant used.Keys == set m | m in starts[..i]
      invariant forall m :: m in starts[..i] ==> used[m] == BuildItem(m, m, None)
      invariant forall k :: 0 <= k < i ==> items[k] == BuildItem(starts[k], starts[k], None) && walks[k] == []
      invariant forall v :: v in pos ==> pos[v] < |items| && items[pos[v]] == used[v] && used[v].vertex == v
    {
      var it := BuildItem(starts[i], starts[i], None);
      assert starts[..i + 1] == starts[..i] + [starts[i]];
      pos := pos[starts[i] := |items|];
      items := items + [it];
      walks := walks + [[]];
      used := used[starts[i] := it];
    }
    assert starts[..|starts|] == starts;
    forall k | 0 <= k < |items| ensures Sourced(g, starts, items[k], walks[k]) {
      assert starts[k] in starts;
    }
  }

  /** The far ends of the first `j` edges of `free` were entered from
      `source`, with walks at most `bound` long. */
  ghost predicate Reached(free: seq<Edge>, j: int, used: map<Int32, BuildItem>, pos: map<Int32, nat>,
                          walks: seq<seq<Edge>>, source: Int32, bound: int)
  {
    forall i :: 0 <= i < j && i < |free| ==>
                  && free[i].to in used && used[free[i].to].source == source
                  && free[i].to in pos && pos[free[i].to] < |walks| && |walks[pos[free[i].to]]| <= bound
  }

  /** The invariant of the inner loop of the second search, after the first
      `j` edges of `free` of the entry `c`: the queue grew from (`items0`,
      `used0`, `pos0`, `walks0`) and each of those edges leads to a site
      entered from the current source, at most one edge further. */
  ghost predicate Scanned(g: Graph, starts: seq<Int32>, c: int, free: seq<Edge>, j: int,
                          items0: seq<BuildItem>, used0: map<Int32, BuildItem>, pos0: map<Int32, nat>, walks0: seq<seq<Edge>>,
                          items: seq<BuildItem>, used: map<Int32, BuildItem>, pos: map<Int32, nat>, walks: seq<seq<Edge>>)
  {
    && 0 <= c < |items0| && |walks0| == |items0| && 0 <= j <= |free|
    && BuildQueue(g, starts, items, used, pos, walks) && BuildFrontier(walks, c)
    && Grown(used0, used) && Grows(pos0, pos) && items0 <= items && walks0 <= walks
    && used0.Keys <= used.Keys && (used.Keys == used0.Keys ==> items == items0)
    && Reached(free, j, used, pos, walks, items0[c].source, |walks0[c]| + 1)
  }

  lemma BuildWalkedPush(g: Graph, starts: seq<Int32>, items: seq<BuildItem>, walks: seq<seq<Edge>>, c: int, e: Edge)
    requires BuildWalked(g, starts, items, walks) && 0 <= c < |items|
    requires e in Edges(g, items[c].vertex) && e.river.owner == NoOwner
    ensures BuildWalked(g, starts, items + [BuildItem(e.to, items[c].source, if items[c].firstEdge.Some? then items[c].firstEdge else Some(e))],
                        walks + [walks[c] + [e]])
  {
    var it := BuildItem(e.to, items[c].source, if items[c].firstEdge.Some? then items[c].firstEdge else Some(e));
    var items', walks' := items + [it], walks + [walks[c] + [e]];
    SourcedOf(g, starts, items, walks, c);
    WalkPush(g, items[c].source, walks[c], e);
    forall k | 0 <= k < |items'| ensures Sourced(g, starts, items'[k], walks'[k]) {
      if k < |items| {
        assert items'[k] == items[k] && walks'[k] == walks[k];
        SourcedOf(g, starts, items, walks, k);
      }
    }
  }

  lemma LengtheningPush(walks: seq<seq<Edge>>, c: int, w: seq<Edge>)
    requires Lengthening(walks) && BuildFrontier(walks, c) && |w| == |walks[c]| + 1
    ensures Lengthening(walks + [w]) && BuildFrontier(walks + [w], c)
  {
    var walks' := walks + [w];
    forall i, j | 0 <= i <= j < |walks'| ensures |walks'[i]| <= |walks'[j]| {
      if j < |walks| {
        assert walks'[i] == walks[i] && walks'[j] == walks[j];
      } else if i < |walks| {
        assert walks'[i] == walks[i];
      }
    }
    forall k | 0 <= k < |walks'| ensures |walks'[k]| <= |walks'[c]| + 1 {
      if k < |walks| {
        assert walks'[k] == walks[k];
      }
    }
  }

  lemma BuildIndexedPush(g: Graph, starts: seq<Int32>, items: seq<BuildItem>,
                         used: map<Int32, BuildItem>, pos: map<Int32, nat>, it: BuildItem)
    requires BuildIndexed(g, starts, items, used, pos) && it.vertex in g.adj && it.vertex !in used
    ensures BuildIndexed(g, starts, items + [it], used[it.vertex := it], pos[it.vertex := |items|])
    ensures Grown(used, used[it.vertex := it])
  {
    var items' := items + [it];
    forall v | v in pos ensures items'[pos[v]] == items[pos[v]] {
    }
    assert forall m :: m in starts ==> m != it.vertex;
  }

  /** Enqueueing the far end of `free[j]`, a site not entered yet, keeps the
      inner loop's invariant. */
  lemma ScannedPush(g: Graph, starts: seq<Int32>, c: int, free: seq<Edge>, j: int,
                    items0: seq<BuildItem>, used0: map<Int32, BuildItem>, pos0: map<Int32, nat>, walks0: seq<seq<Edge>>,
                    items: seq<BuildItem>, used: map<Int32, BuildItem>, pos: map<Int32, nat>, walks: seq<seq<Edge>>)
    requires Scanned(g, starts, c, free, j, items0, used0, pos0, walks0, items, used, pos, walks) && j < |free|
    requires free[j] in Edges(g, items0[c].vertex) && free[j].river.owner == NoOwner
    requires free[j].to in g.adj && free[j].to !in used
    ensures
      var it := BuildItem(free[j].to, items[c].source, if items[c].firstEdge.Some? then items[c].firstEdge else Some(free[j]));
      Scanned(g, starts, c, free, j + 1, items0, used0, pos0, walks0,
              items + [it], used[it.vertex := it], pos[it.vertex := |items|], walks + [walks[c] + [free[j]]])
  {
    var e := free[j];
    assert items[c] == items0[c] && walks[c] == walks0[c];
    var it := BuildItem(e.to, items[c].source, if items[c].firstEdge.Some? then items[c].firstEdge else Some(e));
    var items', used', pos', walks' := items + [it], used[it.vertex := it], pos[it.vertex := |items|], walks + [walks[c] + [e]];
    BuildWalkedPush(g, starts, items, walks, c, e);
    LengtheningPush(walks, c, walks[c] + [e]);
    BuildIndexedPush(g, starts, items, used, pos, it);
    assert Grown(used0, used');
    assert Grows(pos0, pos');
    forall i | 0 <= i < j + 1
      ensures && free[i].to in used' && used'[free[i].to].source == items0[c].source
              && free[i].to in pos' && pos'[free[i].to] < |walks'| && |walks'[pos'[free[i].to]]| <= |walks0[c]| + 1
    {
      if i < j {
        assert free[i].to in used && free[i].to != it.vertex;
        assert walks'[pos[free[i].to]] == walks[pos[free[i].to]];
      }
    }
  }

  /** Passing over `free[j]`, whose far end was entered from the current
      source already, keeps the inner loop's invariant. */
  lemma ScannedSkip(g: Graph, starts: seq<Int32>, c: int, free: seq<Edge>, j: int,
                    items0: seq<BuildItem>, used0: map<Int32, BuildItem>, pos0: map<Int32, nat>, walks0: seq<seq<Edge>>,
                    items: seq<BuildItem>, used: map<Int32, BuildItem>, pos: map<Int32, nat>, walks: seq<seq<Edge>>)
    requires Scanned(g, starts, c, free, j, items0, used0, pos0, walks0, items, used, pos, walks) && j < |free|
    requires free[j].to in used && used[free[j].to].source == items0[c].source
    ensures Scanned(g, starts, c, free, j + 1, items0, used0, pos0, walks0, items, used, pos, walks)
  {
    assert walks[c] == walks0[c];
  }

  /** `m` is a meeting found while scanning the unclaimed edges `free` of
      the entry `current`. */
  ghost predicate MeetsAt(current: BuildItem, free: seq<Edge>, used: map<Int32, BuildItem>, m: Meeting)
  {
    && m.current == current && m.edge in free
    && m.edge.to in used && m.prev == used[m.edge.to]
    && m.prev.source != current.source
  }

  /** The inner loop of the second search over the unclaimed edges `free`
      of the entry `c`: an unclaimed edge to a site entered from another
      start mine is a meeting; one to a new site enqueues it with the
      current source and first edge. */
  method EnqueueOrMeet(g: Graph, ghost starts: seq<Int32>, ghost c: int, current: BuildItem, free: seq<Edge>,
                       items: seq<BuildItem>, used: map<Int32, BuildItem>, ghost pos: map<Int32, nat>, ghost walks: seq<seq<Edge>>)
    returns (meet: Option<Meeting>, items': seq<BuildItem>, used': map<Int32, BuildItem>,
             ghost pos': map<Int32, nat>, ghost walks': seq<seq<Edge>>)
    requires BuildQueue(g, starts, items, used, pos, walks) && BuildFrontier(walks, c) && items[c] == current
    requires forall e :: e in free ==> e in Edges(g, current.vertex) && e.river.owner == NoOwner && e.to in g.adj
    ensures meet.None? ==> Scanned(g, starts, c, free, |free|, items, used, pos, walks, items', used', pos', walks')
    ensures meet.Some? ==> Scanned(g, starts, c, free, 0, items, used, pos, walks, items', used', pos', walks')
                           && MeetsAt(current, free, used', meet.value)
  {
    items', used', pos', walks' := items, used, pos, walks;
    for j := 0 to |free|
      invariant Scanned(g, starts, c, free, j, items, used, pos, walks, items', used', pos', walks')
    {
      var edge := free[j];
      var next := edge.to;
      if next in used' {
        var prev := used'[next];
        if prev.source != current.source {
          return Some(Meeting(prev, current, edge)), items', used', pos', walks';
        }
        ScannedSkip(g, starts, c, free, j, items, used, pos, walks, items', used', pos', walks');
      } else {
        ScannedPush(g, starts, c, free, j, items, used, pos, walks, items', used', pos', walks');
        var it := BuildItem(next, current.source, if current.firstEdge.Some? then current.firstEdge else Some(edge));
        pos' := pos'[it.vertex := |items'|];
        walks' := walks' + [walks'[c] + [edge]];
        items' := items' + [it];
        used' := used'[it.vertex := it];
      }
    }
    meet := None;
  }

  /** The meeting is between two different start mines, reached by the
      walks `prevWalk` and `curWalk`, over an unclaimed edge from the
      current site to the earlier entry's site. */
  ghost predicate ValidMeeting(g: Graph, starts: seq<Int32>, m: Meeting, prevWalk: seq<Edge>, curWalk: seq<Edge>)
  {
    && Sourced(g, starts, m.prev, prevWalk) && Sourced(g, starts, m.current, curWalk)
    && m.prev.source != m.current.source
    && FreeEdge(g, m.edge)
    && m.edge.from == m.current.vertex
    && m.edge.to == m.prev.vertex
  }

  /** Unclaimed walks from `s1` and from `s2` that end at a common site. */
  ghost predicate Joined(g: Graph, s1: Int32, w1: seq<Edge>, s2: Int32, w2: seq<Edge>)
  {
    UnclaimedWalk(g, s1, w1) && UnclaimedWalk(g, s2, w2) && WalkEnd(s1, w1) == WalkEnd(s2, w2)
  }

  /** No two different start mines reach a common site by unclaimed walks
      both shorter than `n`. */
  ghost predicate NearestMeeting(g: Graph, starts: seq<Int32>, n: nat)
  {
    forall s1, w1, s2, w2 :: s1 in starts && s2 in starts && s1 != s2 && Joined(g, s1, w1, s2, w2) ==>
                               n <= |w1| || n <= |w2|
  }

  lemma MeetingIsValid(g: Graph, starts: seq<Int32>, items: seq<BuildItem>, used: map<Int32, BuildItem>,
                       pos: map<Int32, nat>, walks: seq<seq<Edge>>, c: int, free: seq<Edge>, m: Meeting)
    requires BuildQueue(g, starts, items, used, pos, walks) && BuildFrontier(walks, c) && items[c] == m.current
    requires EdgesWithin(g) && forall e :: e in free ==> e in Edges(g, m.current.vertex) && e.river.owner == NoOwner
    requires MeetsAt(m.current, free, used, m)
    ensures m.edge.to in pos && pos[m.edge.to] < |walks|
    ensures ValidMeeting(g, starts, m, walks[pos[m.edge.to]], walks[c])
    ensures |walks[pos[m.edge.to]]| <= |walks[c]| + 1
  {
    var k := pos[m.edge.to];
    assert items[k] == m.prev;
    SourcedOf(g, starts, items, walks, k);
    SourcedOf(g, starts, items, walks, c);
    assert m.current.vertex in g.adj && m.edge in g.adj[m.current.vertex];
  }

  /** Every site within `|walks[c]|` unclaimed edges of a start mine is
      entered from that mine, with a walk no longer than the one that
      reaches it, when the entries before `c` are done. */
  lemma {:induction false} BuildReach(g: Graph, starts: seq<Int32>, items: seq<BuildItem>, used: map<Int32, BuildItem>,
                                      pos: map<Int32, nat>, walks: seq<seq<Edge>>, c: int, s: Int32, walk: seq<Edge>)
    requires BuildQueue(g, starts, items, used, pos, walks) && 0 <= c < |items|
    requires BuildDone(g, items, used, pos, walks, c)
    requires s in starts && UnclaimedWalk(g, s, walk) && |walk| <= |walks[c]|
    ensures WalkEnd(s, walk) in used && used[WalkEnd(s, walk)].source == s
    ensures WalkEnd(s, walk) in pos && pos[WalkEnd(s, walk)] < |walks| && |walks[pos[WalkEnd(s, walk)]]| <= |walk|
    decreases |walk|
  {
    if walk == [] {
      SourcedOf(g, starts, items, walks, pos[s]);
    } else {
      var init := walk[..|walk| - 1];
      WalkPop(g, s, walk);
      BuildReach(g, starts, items, used, pos, walks, c, s, init);
      var k := pos[WalkEnd(s, init)];
      assert k < c;
      assert items[k] == used[WalkEnd(s, init)];
    }
  }

  /** When the entries before `c` are done, no two start mines meet within
      `|walks[c]|` edges each. */
  lemma MeetingIsNearest(g: Graph, starts: seq<Int32>, items: seq<BuildItem>, used: map<Int32, BuildItem>,
                         pos: map<Int32, nat>, walks: seq<seq<Edge>>, c: int)
    requires BuildQueue(g, starts, items, used, pos, walks) && 0 <= c < |items|
    requires BuildDone(g, items, used, pos, walks, c)
    ensures NearestMeeting(g, starts, |walks[c]| + 1)
  {
    forall s, walk | s in starts && UnclaimedWalk(g, s, walk) && |walk| <= |walks[c]|
      ensures WalkEnd(s, walk) in used && used[WalkEnd(s, walk)].source == s
    {
      BuildReach(g, starts, items, used, pos, walks, c, s, walk);
    }
  }

  /** Entries dequeued before the inner loop stay done as the queue grows. */
  lemma BuildDoneKept(g: Graph, starts: seq<Int32>, c: int, free: seq<Edge>, j: int,
                      items0: seq<BuildItem>, used0: map<Int32, BuildItem>, pos0: map<Int32, nat>, walks0: seq<seq<Edge>>,
                      items: seq<BuildItem>, used: map<Int32, BuildItem>, pos: map<Int32, nat>, walks: seq<seq<Edge>>)
    requires Scanned(g, starts, c, free, j, items0, used0, pos0, walks0, items, used, pos, walks)
    requires BuildDone(g, items0, used0, pos0, walks0, c)
    ensures BuildDone(g, items, used, pos, walks, c)
  {
    forall k | 0 <= k < c
      ensures SameSourceAt(g, items[k].vertex, items[k].source, used, pos, walks, |walks[k]| + 1)
    {
      assert items[k] == items0[k] && walks[k] == walks0[k];
      forall e | e in Edges(g, items[k].vertex) && e.river.owner == NoOwner
        ensures && e.to in used && used[e.to].source == items[k].source
                && e.to in pos && pos[e.to] < |walks| && |walks[pos[e.to]]| <= |walks[k]| + 1
      {
        assert walks[pos0[e.to]] == walks0[pos0[e.to]];
      }
    }
  }

  /** After the current entry's edges are scanned without a meeting, the
      entries dequeued so far, the current one included, are done. */
  lemma BuildStepDone(g: Graph, starts: seq<Int32>, c: int, free: seq<Edge>,
                      items0: seq<BuildItem>, used0: map<Int32, BuildItem>, pos0: map<Int32, nat>, walks0: seq<seq<Edge>>,
                      items: seq<BuildItem>, used: map<Int32, BuildItem>, pos: map<Int32, nat>, walks: seq<seq<Edge>>)
    requires 0 <= c < |items0| && free == UnclaimedOf(Edges(g, items0[c].vertex))
    requires Scanned(g, starts, c, free, |free|, items0, used0, pos0, walks0, items, used, pos, walks)
    requires BuildDone(g, items0, used0, pos0, walks0, c)
    ensures BuildDone(g, items, used, pos, walks, c + 1)
  {
    BuildDoneKept(g, starts, c, free, |free|, items0, used0, pos0, walks0, items, used, pos, walks);
    assert items[c] == items0[c] && walks[c] == walks0[c];
    forall e | e in Edges(g, items[c].vertex) && e.river.owner == NoOwner
      ensures && e.to in used && used[e.to].source == items[c].source
              && e.to in pos && pos[e.to] < |walks| && |walks[pos[e.to]]| <= |walks[c]| + 1
    {
      assert e in free;
      var i :| 0 <= i < |free| && free[i] == e;
    }
  }

  /** A queue processed to its end without two sources meeting: the start
      mines are pairwise unreachable from each other. */
  lemma BuildExhausted(g: Graph, starts: seq<Int32>, items: seq<BuildItem>,
                       used: map<Int32, BuildItem>, pos: map<Int32, nat>, walks: seq<seq<Edge>>)
    requires BuildQueue(g, starts, items, used, pos, walks) && BuildDone(g, items, used, pos, walks, |items|)
    ensures StartsSeparated(g, starts)
  {
    var tags := map v | v in used :: used[v].source;
    forall u, e | u in tags && e in Edges(g, u) && e.river.owner == NoOwner
      ensures e.to in tags && tags[e.to] == tags[u]
    {
      assert items[pos[u]] == used[u];
    }
    forall m, walk | m in starts && UnclaimedWalk(g, m, walk) && WalkEnd(m, walk) in starts
      ensures WalkEnd(m, walk) == m
    {
      LabelKeptAlongWalk(g, tags, m, walk);
    }
  }

  /** The invariant of the second search with `head` entries dequeued. */
  ghost predicate Building(g: Graph, starts: seq<Int32>, items: seq<BuildItem>, used: map<Int32, BuildItem>,
                           pos: map<Int32, nat>, walks: seq<seq<Edge>>, head: int)
  {
    && BuildQueue(g, starts, items, used, pos, walks)
    && 0 <= head <= |items| && (head < |items| ==> BuildFrontier(walks, head))
    && BuildDone(g, items, used, pos, walks, head)
  }

  /** Dequeues an entry and scans its unclaimed edges: either a meeting of
      two start mines, at least as near as any other, or the queue
      invariant with one more entry done. */
  method BuildFrom(g: Graph, ghost starts: seq<Int32>, items: seq<BuildItem>, used: map<Int32, BuildItem>,
                   ghost pos: map<Int32, nat>, ghost walks: seq<seq<Edge>>, head: nat)
    returns (meet: Option<Meeting>, ghost prevWalk: seq<Edge>, ghost curWalk: seq<Edge>,
             items': seq<BuildItem>, used': map<Int32, BuildItem>, ghost pos': map<Int32, nat>, ghost walks': seq<seq<Edge>>)
    requires EdgesWithin(g) && Building(g, starts, items, used, pos, walks, head) && head < |items|
    ensures meet.Some? ==> && ValidMeeting(g, starts, meet.value, prevWalk, curWalk)
                           && |prevWalk| <= |curWalk| + 1 && NearestMeeting(g, starts, |curWalk| + 1)
    ensures meet.None? ==> && Building(g, starts, items', used', pos', walks', head + 1)
                           && used.Keys <= used'.Keys <= g.adj.Keys && (used'.Keys == used.Keys ==> items' == items)
  {
    prevWalk, curWalk := [], [];
    var current := items[head];
    var free := UnclaimedOf(Edges(g, current.vertex));
    meet, items', used', pos', walks' := EnqueueOrMeet(g, starts, head, current, free, items, used, pos, walks);
    BuildDoneKept(g, starts, head, free, if meet.None? then |free| else 0,
                  items, used, pos, walks, items', used', pos', walks');
    if meet.Some? {
      assert items'[head] == current;
      MeetingIsValid(g, starts, items', used', pos', walks', head, free, meet.value);
      MeetingIsNearest(g, starts, items', used', pos', walks', head);
      prevWalk, curWalk := walks'[pos'[meet.value.edge.to]], walks'[head];
    } else {
      BuildStepDone(g, starts, head, free, items, used, pos, walks, items', used', pos', walks');
      if head + 1 < |items'| {
        assert |walks'[head]| <= |walks'[head + 1]|;
      }
    }
  }

  /** The search of `TryBuildNewComponent`: breadth first over unclaimed
      rivers from all start mines at once, each site tagged with the mine it
      was reached from, stopping where two tags meet. `prevWalk` and
      `curWalk` are the walks the search followed to the two sides of the
      meeting. */
  method SearchMeeting(g: Graph, starts: seq<Int32>)
    returns (meet: Option<Meeting>, ghost prevWalk: seq<Edge>, ghost curWalk: seq<Edge>)
    requires EdgesWithin(g) && forall m :: m in starts ==> m in g.adj
    ensures meet.Some? ==> && ValidMeeting(g, starts, meet.value, prevWalk, curWalk)
                           && |prevWalk| <= |curWalk| + 1 && NearestMeeting(g, starts, |curWalk| + 1)
    ensures meet.Some? && Undirected(g) ==> !StartsSeparated(g, starts)
    ensures meet.None? ==> StartsSeparated(g, starts)
  {
    prevWalk, curWalk := [], [];
    var items, used, pos, walks := StartBuildQueue(g, starts);
    var head := 0;
    while head < |items|
      invariant Building(g, starts, items, used, pos, walks, head)
      decreases g.adj.Keys - used.Keys, |items| - head
    {
      ghost var used0 := used;
      var found;
      found, prevWalk, curWalk, items, used, pos, walks := BuildFrom(g, starts, items, used, pos, walks, head);
      if found.Some? {
        if Undirected(g) {
          MeetingLinks(g, starts, found.value, prevWalk, curWalk);
          LinkedStartsJoined(g, starts, Link(found.value.prev.source, found.value.current.source, prevWalk, curWalk + [found.value.edge]));
        }
        return found, prevWalk, curWalk;
      }
      head := head + 1;
      if used.Keys != used0.Keys {
        EnteredShrinksRest(g.adj.Keys, used0.Keys, used.Keys);
      }
    }
    BuildExhausted(g, starts, items, used, pos, walks);
    return None, prevWalk, curWalk;
  }

  // ----- what a meeting means -----

  /** Two start mines and the walks from each that meet. */
  datatype Link = Link(first: Int32, second: Int32, firstWalk: seq<Edge>, secondWalk: seq<Edge>)

  /** The start mines of `l` are linked: unclaimed walks from each reach a
      common site, no two start mines meet nearer, and the second walk is
      not shorter than the first. */
  ghost predicate Links(g: Graph, starts: seq<Int32>, l: Link)
  {
    && l.first in starts && l.second in starts && l.first != l.second
    && UnclaimedWalk(g, l.first, l.firstWalk) && UnclaimedWalk(g, l.second, l.secondWalk) && l.secondWalk != []
    && WalkEnd(l.first, l.firstWalk) == WalkEnd(l.second, l.secondWalk)
    && |l.firstWalk| <= |l.secondWalk| && NearestMeeting(g, starts, |l.secondWalk|)
  }

  /** The edge of the joining path at `m`: the first edge of the walk from
      `m`, or, when the first mine is itself the meeting site, the last edge
      of the walk from the second. */
  function LinkEdge(m: Int32, l: Link): Edge
    requires l.secondWalk != []
  {
    if m == l.first then (if l.firstWalk != [] then l.firstWalk[0] else l.secondWalk[|l.secondWalk| - 1])
    else l.secondWalk[0]
  }

  /** A meeting links its two start mines: the current side's walk followed
      by the meeting edge reaches the earlier side's site. */
  lemma MeetingLinks(g: Graph, starts: seq<Int32>, m: Meeting, prevWalk: seq<Edge>, curWalk: seq<Edge>)
    requires EdgesWithin(g) && ValidMeeting(g, starts, m, prevWalk, curWalk)
    requires |prevWalk| <= |curWalk| + 1 && NearestMeeting(g, starts, |curWalk| + 1)
    ensures var l := Link(m.prev.source, m.current.source, prevWalk, curWalk + [m.edge]);
            && Links(g, starts, l)
            && LinkEdge(m.prev.source, l) == (if m.prev.firstEdge.Some? then m.prev.firstEdge.value else m.edge)
            && LinkEdge(m.current.source, l) == (if m.current.firstEdge.Some? then m.current.firstEdge.value else m.edge)
  {
    WalkPush(g, m.current.source, curWalk, m.edge);
  }

  /** The first edge of an unclaimed walk leaves its start unclaimed. */
  lemma FirstStepFree(g: Graph, s: Int32, walk: seq<Edge>)
    requires EdgesWithin(g) && UnclaimedWalk(g, s, walk) && walk != []
    ensures FreeEdge(g, walk[0]) && walk[0].from == s
  {
    assert s in g.adj && walk[0] in g.adj[s];
  }

  /** In a graph that lists every river from both ends, linked start mines
      are joined by an unclaimed walk, so the starts are not separated. */
  lemma LinkedStartsJoined(g: Graph, starts: seq<Int32>, l: Link)
    requires EdgesWithin(g) && Undirected(g) && Links(g, starts, l)
    ensures UnclaimedWalk(g, l.second, l.secondWalk + Reversed(l.firstWalk))
    ensures WalkEnd(l.second, l.secondWalk + Reversed(l.firstWalk)) == l.first
    ensures !StartsSeparated(g, starts)
  {
    WalkBack(g, l.first, l.firstWalk);
    WalkConcat(g, l.second, l.secondWalk, Reversed(l.firstWalk));
  }
}
