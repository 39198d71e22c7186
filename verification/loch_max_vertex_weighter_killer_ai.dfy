/** The killer rule for large maps: on a map of at least 300 sites, claim an
    unclaimed river next to the least contested mine (fewest distinct owners
    on its rivers, ties broken by a random key); otherwise, and on small
    maps, play what the base AI plays. The base AI itself is not part of
    this model: its move and its futures, and the state its `StartRound`
    and `GetNextMove` leave it in, come in as values, and its state is of
    an abstract type saved and loaded by functions it supplies. */
module LochMaxVertexKiller {
  import opened Common
  import opened Graphs

  /** Maps with fewer sites than this are left to the base AI. */
  const MinSites: nat := 300
  /** Mines with more rivers than this are never targeted. */
  const MaxRivers: nat := 100

  /** A future the base AI announces at the start of a round. */
  datatype Future = Future(source: Int32, target: Int32)

  /** A mine that passed the owner filter: its rivers in adjacency order,
      the number of distinct owner values among them, and its random
      tie-break key. */
  datatype Candidate = Candidate(mine: Int32, rivers: seq<River>, owners: nat, key: nat)

  /** The rivers of a list of edges, in order. */
  function RiversOf(es: seq<Edge>): seq<River>
  {
    seq(|es|, k requires 0 <= k < |es| => es[k].river)
  }

  /** The owner values seen on `rs`, "no owner" included. */
  function OwnerSet(rs: seq<River>): set<Int32>
  {
    set r | r in rs :: r.owner
  }

  /** The number of distinct owner values on `rs`. */
  function DistinctOwners(rs: seq<River>): (n: nat)
    ensures rs == [] <==> n == 0
    ensures forall r :: r in rs ==> n >= 1
  {
    assert rs != [] ==> rs[0].owner in OwnerSet(rs);
    |OwnerSet(rs)|
  }

  /** The mines of `mines` whose rivers show fewer than `punters + 1`
      distinct owners, in order; the `j`-th of them gets the draw `rand(k + j)`. */
  function Contested(g: Graph, punters: int, mines: seq<Int32>, rand: nat -> nat, k: nat): (r: seq<Candidate>)
    ensures forall c :: c in r ==> && c.mine in mines && c.rivers == RiversOf(Edges(g, c.mine))
                                   && c.owners == DistinctOwners(c.rivers) && c.owners < punters + 1
    ensures forall m :: m in mines && DistinctOwners(RiversOf(Edges(g, m))) < punters + 1 ==>
                          exists c :: c in r && c.mine == m
  {
    if mines == [] then []
    else
      var rivers := RiversOf(Edges(g, mines[0]));
      var n := DistinctOwners(rivers);
      if n < punters + 1 then
        [Candidate(mines[0], rivers, n, rand(k))] + Contested(g, punters, mines[1..], rand, k + 1)
      else
        Contested(g, punters, mines[1..], rand, k)
  }

  /** `a` may come before `b`: fewer owners, or as many and a key no larger. */
  predicate Le(a: Candidate, b: Candidate)
  {
    a.owners < b.owners || (a.owners == b.owners && a.key <= b.key)
  }

  ghost predicate Sorted(s: seq<Candidate>)
  {
    forall i, j :: 0 <= i < j < |s| ==> Le(s[i], s[j])
  }

  /** Inserts `c` before the first element it may precede. */
  function Insert(c: Candidate, s: seq<Candidate>): (r: seq<Candidate>)
    ensures multiset(r) == multiset(s) + multiset{c}
  {
    if s == [] || Le(c, s[0]) then [c] + s
    else
      assert s == [s[0]] + s[1..];
      [s[0]] + Insert(c, s[1..])
  }

  /** Inserting into a sorted list keeps it sorted. */
  lemma {:induction false} InsertSorted(c: Candidate, s: seq<Candidate>)
    requires Sorted(s)
    ensures Sorted(Insert(c, s))
  {
    if s != [] && !Le(c, s[0]) {
      var rest := Insert(c, s[1..]);
      InsertSorted(c, s[1..]);
      forall x | x in rest ensures Le(s[0], x) {
        assert x in multiset(rest);
        if x != c {
          var j :| 0 <= j < |s[1..]| && s[1..][j] == x;
          assert s[j + 1] == x;
        }
      }
      assert Insert(c, s) == [s[0]] + rest;
    }
  }

  /** `OrderBy` on (owners, key): a stable insertion sort. */
  function Sort(s: seq<Candidate>): (r: seq<Candidate>)
    ensures multiset(r) == multiset(s)
    ensures Sorted(r)
  {
    if s == [] then []
    else
      assert s == [s[0]] + s[1..];
      InsertSorted(s[0], Sort(s[1..]));
      Insert(s[0], Sort(s[1..]))
  }

  /** The first unclaimed river of `rs` (`Owner < 0`). */
  function FirstFree(rs: seq<River>): (r: Option<River>)
    ensures r.None? <==> forall x :: x in rs ==> x.owner >= 0
    ensures r.Some? ==> r.value in rs && r.value.owner < 0
    ensures r.Some? ==> exists k :: 0 <= k < |rs| && rs[k] == r.value && forall j :: 0 <= j < k ==> rs[j].owner >= 0
  {
    if rs == [] then None
    else if rs[0].owner < 0 then Some(rs[0])
    else
      var r := FirstFree(rs[1..]);
      assert forall k :: 0 <= k < |rs| - 1 ==> rs[1..][k] == rs[k + 1];
      r
  }

  predicate Small(c: Candidate)
  {
    |c.rivers| <= MaxRivers
  }

  /** A candidate that can be played: few enough rivers and one of them
      unclaimed. */
  predicate Playable(c: Candidate)
  {
    Small(c) && FirstFree(c.rivers).Some?
  }

  /** The rivers of the candidates with at most 100 rivers, concatenated in
      order, and the first unclaimed one among them. */
  function FirstUnclaimed(s: seq<Candidate>): (r: Option<River>)
  {
    if s == [] then None
    else if Playable(s[0]) then FirstFree(s[0].rivers)
    else FirstUnclaimed(s[1..])
  }

  /** On a sorted list, the river found belongs to a playable candidate that
      may precede every other playable one; none is found exactly when no
      candidate is playable. */
  lemma {:induction false} FirstUnclaimedIsLeast(s: seq<Candidate>)
    requires Sorted(s)
    ensures FirstUnclaimed(s).None? <==> forall c :: c in s ==> !Playable(c)
    ensures FirstUnclaimed(s).Some? ==>
              exists c :: c in s && Playable(c) && FirstFree(c.rivers) == FirstUnclaimed(s)
                          && forall d :: d in s && Playable(d) ==> Le(c, d)
  {
    if s != [] {
      assert s == [s[0]] + s[1..];
      if Playable(s[0]) {
        forall d | d in s && Playable(d) ensures Le(s[0], d) {
          var j :| 0 <= j < |s| && s[j] == d;
        }
      } else {
        FirstUnclaimedIsLeast(s[1..]);
      }
    }
  }

  /** The candidates of a map in the order the rule tries them. */
  function Ordered(g: Graph, punters: int, rand: nat -> nat): seq<Candidate>
  {
    Sort(Contested(g, punters, g.mines, rand, 0))
  }

  /** A mine the rule may target: fewer than `punters + 1` distinct owners on
      its rivers, at most 100 rivers, one of them unclaimed. */
  predicate Targetable(g: Graph, punters: int, m: Int32)
  {
    && m in g.mines
    && DistinctOwners(RiversOf(Edges(g, m))) < punters + 1
    && |Edges(g, m)| <= MaxRivers
    && exists e :: e in Edges(g, m) && e.river.owner < 0
  }

  /** The river the rule claims, if any. */
  function Choice(g: Graph, punters: int, rand: nat -> nat): Option<River>
  {
    FirstUnclaimed(Ordered(g, punters, rand))
  }

  /** The rule finds a river exactly when some mine is targetable; the river
      is the first unclaimed river of a targetable mine that is least
      contested, and lowest keyed among the least contested. */
  lemma ChoiceIsLeastContested(g: Graph, punters: int, rand: nat -> nat)
    ensures Choice(g, punters, rand).None? <==> forall m :: !Targetable(g, punters, m)
    ensures Choice(g, punters, rand).Some? ==>
              exists c :: && c in Contested(g, punters, g.mines, rand, 0) && Targetable(g, punters, c.mine)
                          && Choice(g, punters, rand) == FirstFree(RiversOf(Edges(g, c.mine)))
                          && forall d :: d in Contested(g, punters, g.mines, rand, 0) && Playable(d) ==> Le(c, d)
  {
    var cands := Contested(g, punters, g.mines, rand, 0);
    var s := Ordered(g, punters, rand);
    forall c ensures c in s <==> c in cands {
      assert c in s <==> c in multiset(s);
    }
    FirstUnclaimedIsLeast(s);
    forall c | c in cands ensures Playable(c) <==> Targetable(g, punters, c.mine) {
      PlayableIffTargetable(g, punters, c);
    }
    forall m | Targetable(g, punters, m) ensures exists c :: c in s && Playable(c) {
      var c :| c in cands && c.mine == m;
    }
  }

  /** A candidate can be played exactly when its mine is targetable. */
  lemma PlayableIffTargetable(g: Graph, punters: int, c: Candidate)
    requires c.mine in g.mines && c.rivers == RiversOf(Edges(g, c.mine)) && c.owners < punters + 1
    requires c.owners == DistinctOwners(c.rivers)
    ensures Playable(c) <==> Targetable(g, punters, c.mine)
  {
    var es := Edges(g, c.mine);
    if Targetable(g, punters, c.mine) {
      var e :| e in es && e.river.owner < 0;
      var k :| 0 <= k < |es| && es[k] == e;
      assert c.rivers[k] == e.river;
    }
    if Playable(c) {
      var r := FirstFree(c.rivers).value;
      var k :| 0 <= k < |c.rivers| && c.rivers[k] == r;
      assert es[k] in es;
    }
  }

  /** The turn is handed to the base AI: under `MinSites` sites, or when no
      river of a targetable mine is found. */
  predicate Delegates(g: Graph, punters: int, rand: nat -> nat)
  {
    |g.vertices| < MinSites || Choice(g, punters, rand).None?
  }

  /** The move the killer plays for seat `punter` among `punters` punters.
      `baseMove` is what the base AI would play and `rand(k)` the `k`-th
      draw of the random generator. */
  function KillerMove(g: Graph, punter: Int32, punters: int, rand: nat -> nat, baseMove: Move): (m: Move)
    ensures Delegates(g, punters, rand) ==> m == baseMove
    ensures |g.vertices| >= MinSites && (forall v :: !Targetable(g, punters, v)) ==> m == baseMove
    ensures |g.vertices| >= MinSites && (exists v :: Targetable(g, punters, v)) ==>
              exists c, r :: && c in Contested(g, punters, g.mines, rand, 0) && Targetable(g, punters, c.mine)
                             && FirstFree(RiversOf(Edges(g, c.mine))) == Some(r)
                             && m == Claim(punter, r.source, r.target)
                             && forall d :: d in Contested(g, punters, g.mines, rand, 0) && Playable(d) ==> Le(c, d)
  {
    if |g.vertices| < MinSites then baseMove
    else
      ChoiceIsLeastContested(g, punters, rand);
      match Choice(g, punters, rand)
      case None => baseMove
      case Some(r) => Claim(punter, r.source, r.target)
  }

  /** The killer AI around a base AI whose state is of type `S`. The base
      AI's own code is not part of this model: what its `StartRound` and
      `GetNextMove` return, and the state they leave it in, come in as
      values, and saving and loading its state as the functions `save` and
      `load`. */
  class LochMaxVertexWeighterKillerAi<S> {
    var punterId: Int32
    var puntersCount: int
    /** The base AI's state: the only part of it this class touches. */
    var baseState: S

    constructor(baseState: S)
      ensures punterId == 0 && puntersCount == 0 && this.baseState == baseState
    {
      punterId := 0;
      puntersCount := 0;
      this.baseState := baseState;
    }

    /** Records the seat and the number of punters, then starts the base AI's
        round: the base AI returns `baseFutures` and is left in
        `baseStateAfter`, and its futures are handed back unchanged. */
    method StartRound(punterId: Int32, puntersCount: int, baseFutures: seq<Future>, baseStateAfter: S)
      returns (futures: seq<Future>)
      modifies this
      ensures this.punterId == punterId && this.puntersCount == puntersCount
      ensures baseState == baseStateAfter
      ensures futures == baseFutures
    {
      this.punterId := punterId;
      this.puntersCount := puntersCount;
      baseState := baseStateAfter;
      futures := baseFutures;
    }

    /** The move for this turn. When the turn is handed to the base AI, it
        plays `baseMove` and is left in `baseStateAfter`; otherwise the base
        AI is not asked and its state stays as it was. */
    method GetNextMove(g: Graph, rand: nat -> nat, baseMove: Move, baseStateAfter: S) returns (m: Move)
      modifies this
      ensures m == KillerMove(g, punterId, puntersCount, rand, baseMove)
      ensures punterId == old(punterId) && puntersCount == old(puntersCount)
      ensures baseState == if Delegates(g, puntersCount, rand) then baseStateAfter else old(baseState)
    {
      m := KillerMove(g, punterId, puntersCount, rand, baseMove);
      if Delegates(g, puntersCount, rand) {
        baseState := baseStateAfter;
      }
    }

    /** The saved state is the base AI's, saved by the base AI. */
    function SerializeGameState(save: S -> string): (s: string)
      reads this
      ensures s == save(baseState)
    {
      save(baseState)
    }

    /** Restores the base AI's state as the base AI loads it; the seat and
        the punter count are untouched. */
    method DeserializeGameState(gameState: string, load: string -> S)
      modifies this
      ensures baseState == load(gameState)
      ensures punterId == old(punterId) && puntersCount == old(puntersCount)
    {
      baseState := load(gameState);
    }
  }

  /** Saving and restoring the killer AI's state is exactly the base AI's
      own round trip: the base state becomes `load(save(s))`, and the seat
      and the punter count are kept. It is exact only where the base AI's is. */
  method StateRoundTrip<S>(ai: LochMaxVertexWeighterKillerAi<S>, save: S -> string, load: string -> S)
    modifies ai
    ensures ai.baseState == load(save(old(ai.baseState)))
    ensures ai.punterId == old(ai.punterId) && ai.puntersCount == old(ai.puntersCount)
    ensures (forall x :: load(save(x)) == x) ==> ai.baseState == old(ai.baseState)
  {
    var s := ai.SerializeGameState(save);
    ai.DeserializeGameState(s, load);
  }
}
