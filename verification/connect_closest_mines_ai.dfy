/** The "connect closest mines" AI. On each turn it tries, in order: to extend
    one of its own components towards a mine it has not reached yet, to start
    a new component by linking two such mines, to claim the unclaimed river
    that adds the most squared mine distance, and finally to pass. Its state
    is its punter id and the set of mines it has decided to connect. */
module ConnectClosestMines {
  import opened Common
  import opened Graphs
  import opened Text
  import opened MineSearch

  /** `long.MinValue`, where the search for the best extension starts. */
  const LongMin: int := -0x8000_0000_0000_0000

  /** The ways a turn fails in the program: dereferencing the missing entry
      edge of a start mine, and the exception raised when an unclaimed river
      would join two different non-empty components. */
  datatype Fault = NullEdge | InconsistentComponents(edge: Edge, fromMines: set<int>, toMines: set<int>)

  /** What one of the three strategies produced. */
  datatype Attempt = Claimed(move: Move) | NoMove | Failed(fault: Fault)

  /** The best extension found so far and its score. */
  datatype Best = Best(edge: Option<Edge>, score: int)

  /** The saved state of the AI. */
  datatype AiState = AiState(punterId: Int32, myMines: seq<Int32>)

  /** `HashSet<int>.Add` on a set kept in insertion order. */
  function AddMine(mines: seq<Int32>, m: Int32): (r: seq<Int32>)
    ensures forall x :: x in r <==> x in mines || x == m
    ensures NoDup(mines) ==> NoDup(r)
    ensures m !in mines ==> r == mines + [m]
    ensures m in mines ==> r == mines
  {
    if m in mines then mines else mines + [m]
  }

  /** `HashSet<int>.UnionWith`: adds the elements of `ms` one after another. */
  function AddMines(mines: seq<Int32>, ms: seq<Int32>): (r: seq<Int32>)
    ensures forall x :: x in r <==> x in mines || x in ms
    ensures NoDup(mines) ==> NoDup(r)
  {
    if ms == [] then mines else AddMine(AddMines(mines, ms[..|ms| - 1]), ms[|ms| - 1])
  }

  /** Adding elements that are all new, and distinct, appends them. */
  lemma {:induction false} AddMinesOfNew(mines: seq<Int32>, ms: seq<Int32>)
    requires NoDup(mines + ms)
    ensures AddMines(mines, ms) == mines + ms
  {
    if ms != [] {
      var init, last := ms[..|ms| - 1], ms[|ms| - 1];
      var whole, front := mines + ms, mines + init;
      assert whole == front + [last];
      forall i, j | 0 <= i < j < |front|
        ensures front[i] != front[j]
      {
        assert front[i] == whole[i] && front[j] == whole[j];
      }
      AddMinesOfNew(mines, init);
      forall i | 0 <= i < |front|
        ensures front[i] != last
      {
        assert front[i] == whole[i] && whole[|whole| - 1] == last;
      }
    }
  }

  /** The mines the AI has not connected yet, in the graph's mine order. */
  function StartMines(g: Graph, myMines: seq<Int32>): (r: seq<Int32>)
    ensures forall m :: m in r <==> m in g.mines && m !in myMines
  {
    Filter(g.mines, m => m !in myMines)
  }

  lemma StartMinesNoDup(g: Graph, myMines: seq<Int32>)
    requires ValidGraph(g)
    ensures NoDup(StartMines(g, myMines))
  {
    FilterNoDup(g.mines, m => m !in myMines);
  }

  /** The mine with fewer unclaimed rivers; the second one on a tie. */
  function SelectBestMine(g: Graph, a: Int32, b: Int32): (r: Int32)
    ensures r == a || r == b
    ensures UnclaimedCount(g, r) == Min(UnclaimedCount(g, a), UnclaimedCount(g, b))
    ensures UnclaimedCount(g, a) == UnclaimedCount(g, b) ==> r == b
  {
    if UnclaimedCount(g, a) < UnclaimedCount(g, b) then a else b
  }

  /** What claiming the unclaimed edge `e` adds: the squared distances from
      the mines of the component on one side to the site on the other. It is
      zero when both sides already reach the same mines, and a fault when
      they reach different non-empty sets of mines. `conn` gives the mines a
      site is connected to through the punter's rivers; `dist` the distance
      from a mine to a site. */
  function ExtendScore(e: Edge, conn: Int32 -> set<int>, dist: (int, int) -> int): (r: Result<int, Fault>)
    ensures r.Err? <==> conn(e.from) != {} && conn(e.to) != {} && conn(e.from) != conn(e.to)
    ensures r.Ok? ==> r.value >= 0
    ensures conn(e.from) == conn(e.to) ==> r == Ok(0)
    ensures conn(e.from) == {} ==> r == Ok(SquaredDistSum(conn(e.to), e.from, dist))
    ensures conn(e.to) == {} ==> r == Ok(SquaredDistSum(conn(e.from), e.to, dist))
  {
    var fromMines, toMines := conn(e.from), conn(e.to);
    if |fromMines| == 0 then Ok(SquaredDistSum(toMines, e.from, dist))
    else if |toMines| != 0 then
      if toMines != fromMines then Err(InconsistentComponents(e, fromMines, toMines)) else Ok(0)
    else Ok(SquaredDistSum(fromMines, e.to, dist))
  }

  /** Scans `es` in order keeping the first edge of strictly greatest score,
      starting from `long.MinValue`; the first fault ends the scan. */
  function ScanBest(es: seq<Edge>, conn: Int32 -> set<int>, dist: (int, int) -> int): Result<Best, Fault>
  {
    if es == [] then Ok(Best(None, LongMin))
    else
      match ScanBest(es[..|es| - 1], conn, dist)
      case Err(f) => Err(f)
      case Ok(b) =>
        match ExtendScore(es[|es| - 1], conn, dist)
        case Err(f) => Err(f)
        case Ok(s) => if s > b.score then Ok(Best(Some(es[|es| - 1]), s)) else Ok(b)
  }

  /** Scanning one more edge. */
  lemma ScanBestPush(es: seq<Edge>, e: Edge, conn: Int32 -> set<int>, dist: (int, int) -> int)
    ensures ScanBest(es + [e], conn, dist)
         == match ScanBest(es, conn, dist)
            case Err(f) => Err(f)
            case Ok(b) =>
              match ExtendScore(e, conn, dist)
              case Err(f) => Err(f)
              case Ok(s) => if s > b.score then Ok(Best(Some(e), s)) else Ok(b)
  {
    assert (es + [e])[..|es|] == es;
  }

  /** `es[k]` is the first edge whose score is a fault. */
  ghost predicate FirstFaultAt(es: seq<Edge>, k: int, conn: Int32 -> set<int>, dist: (int, int) -> int)
  {
    && 0 <= k < |es|
    && ExtendScore(es[k], conn, dist).Err?
    && forall j :: 0 <= j < k ==> ExtendScore(es[j], conn, dist).Ok?
  }

  /** The scan fails exactly when some edge's score is a fault, and then with
      the fault of the first such edge. */
  lemma {:induction false} ScanBestFaults(es: seq<Edge>, conn: Int32 -> set<int>, dist: (int, int) -> int)
    ensures ScanBest(es, conn, dist).Err? <==> exists k :: 0 <= k < |es| && ExtendScore(es[k], conn, dist).Err?
    ensures forall k :: FirstFaultAt(es, k, conn, dist) ==>
              ScanBest(es, conn, dist) == Err(ExtendScore(es[k], conn, dist).error)
  {
    if es != [] {
      var init, last := es[..|es| - 1], es[|es| - 1];
      ScanBestFaults(init, conn, dist);
      assert forall k :: 0 <= k < |init| ==> init[k] == es[k];
      forall k | FirstFaultAt(es, k, conn, dist)
        ensures ScanBest(es, conn, dist) == Err(ExtendScore(es[k], conn, dist).error)
      {
        if k < |init| {
          assert FirstFaultAt(init, k, conn, dist);
        } else {
          assert !exists j :: 0 <= j < |init| && ExtendScore(init[j], conn, dist).Err?;
        }
      }
      if ScanBest(es, conn, dist).Err? {
        if ScanBest(init, conn, dist).Err? {
          var k :| 0 <= k < |init| && ExtendScore(init[k], conn, dist).Err?;
          assert ExtendScore(es[k], conn, dist).Err?;
        } else {
          assert ExtendScore(es[|es| - 1], conn, dist).Err?;
        }
      }
    }
  }

  /** A successful scan returns the first edge of greatest score, or no edge
      exactly when there is nothing to scan. */
  lemma {:induction false} ScanBestIsFirstMaximum(es: seq<Edge>, conn: Int32 -> set<int>, dist: (int, int) -> int)
    requires ScanBest(es, conn, dist).Ok?
    ensures forall k :: 0 <= k < |es| ==>
              ExtendScore(es[k], conn, dist).Ok? && ExtendScore(es[k], conn, dist).value <= ScanBest(es, conn, dist).value.score
    ensures ScanBest(es, conn, dist).value.edge.None? <==> es == []
    ensures ScanBest(es, conn, dist).value.edge.Some? ==>
              exists k :: 0 <= k < |es| && es[k] == ScanBest(es, conn, dist).value.edge.value
                && ExtendScore(es[k], conn, dist) == Ok(ScanBest(es, conn, dist).value.score)
                && forall j :: 0 <= j < k ==>
                     ExtendScore(es[j], conn, dist).Ok? && ExtendScore(es[j], conn, dist).value < ScanBest(es, conn, dist).value.score
  {
    if es != [] {
      var init, last := es[..|es| - 1], es[|es| - 1];
      assert forall k :: 0 <= k < |init| ==> init[k] == es[k];
      ScanBestIsFirstMaximum(init, conn, dist);
      var b0 := ScanBest(init, conn, dist).value;
      var s := ExtendScore(last, conn, dist).value;
      var b := ScanBest(es, conn, dist).value;
      if s > b0.score {
        assert b == Best(Some(last), s);
        assert es[|es| - 1] == last;
      } else {
        assert b == b0;
        if init == [] {
          assert false;
        }
        var k :| 0 <= k < |init| && init[k] == b0.edge.value
                && ExtendScore(init[k], conn, dist) == Ok(b0.score)
                && forall j :: 0 <= j < k ==>
                     ExtendScore(init[j], conn, dist).Ok? && ExtendScore(init[j], conn, dist).value < b0.score;
        assert es[k] == init[k];
      }
    }
  }

  /** Once the scan has failed, scanning more edges keeps the same fault. */
  lemma {:induction false} ScanBestFaultPersists(a: seq<Edge>, b: seq<Edge>, conn: Int32 -> set<int>, dist: (int, int) -> int)
    requires ScanBest(a, conn, dist).Err?
    ensures ScanBest(a + b, conn, dist) == ScanBest(a, conn, dist)
    decreases |b|
  {
    if b == [] {
      assert a + b == a;
    } else {
      var init := b[..|b| - 1];
      assert (a + b)[..|a + b| - 1] == a + init;
      ScanBestFaultPersists(a, init, conn, dist);
    }
  }

  /** The pieces `string.Join(";", myMines)` is made of. */
  function MineStrings(ms: seq<Int32>): (r: seq<string>)
    ensures |r| == |ms|
    ensures forall i :: 0 <= i < |ms| ==> r[i] == IntToString(ms[i])
  {
    if ms == [] then [] else MineStrings(ms[..|ms| - 1]) + [IntToString(ms[|ms| - 1])]
  }

  /** `$"{punterId};{string.Join(";", myMines)}"`. */
  function SerializeState(punterId: Int32, myMines: seq<Int32>): string
  {
    IntToString(punterId) + ";" + Join(MineStrings(myMines), ';')
  }

  /** `parts.Select(int.Parse)`, or `None` when some part does not parse. */
  function ParseAll(parts: seq<string>): (r: Option<seq<Int32>>)
    ensures r.Some? ==> |r.value| == |parts|
  {
    if parts == [] then Some([])
    else
      var init := parts[..|parts| - 1];
      match ParseAll(init)
      case None => None
      case Some(vs) =>
        match ParseInt(parts[|parts| - 1])
        case None => None
        case Some(v) => Some(vs + [v])
  }

  /** One part that does not parse makes the whole list fail. */
  lemma {:induction false} ParseAllFailsAt(parts: seq<string>, k: int)
    requires 0 <= k < |parts| && ParseInt(parts[k]).None?
    ensures ParseAll(parts) == None
  {
    var init := parts[..|parts| - 1];
    if k < |init| {
      assert init[k] == parts[k];
      ParseAllFailsAt(init, k);
    }
  }

  /** What `DeserializeGameState` stores when every part parses: the first
      part is the punter id, the others are the mines. */
  function ParseState(text: string): Option<AiState>
  {
    var parts := Split(text, ';');
    match ParseInt(parts[0])
    case None => None
    case Some(p) =>
      match ParseAll(parts[1..])
      case None => None
      case Some(ms) => Some(AiState(p, AddMines([], ms)))
  }

  /** Parsing one more part that parses appends its value. */
  lemma ParseAllPush(parts: seq<string>, x: string, vs: seq<Int32>, v: Int32)
    requires ParseAll(parts) == Some(vs) && ParseInt(x) == Some(v)
    ensures ParseAll(parts + [x]) == Some(vs + [v])
  {
    assert (parts + [x])[..|parts|] == parts;
  }

  /** Parts that each parse give the list of their values. */
  lemma {:induction false} ParseAllOfParsed(parts: seq<string>, vs: seq<Int32>)
    requires |parts| == |vs| && forall i :: 0 <= i < |parts| ==> ParseInt(parts[i]) == Some(vs[i])
    ensures ParseAll(parts) == Some(vs)
  {
    if parts != [] {
      var n := |parts| - 1;
      ParseAllOfParsed(parts[..n], vs[..n]);
      ParseAllPush(parts[..n], parts[n], vs[..n], vs[n]);
      assert parts[..n] + [parts[n]] == parts && vs[..n] + [vs[n]] == vs;
    }
  }

  lemma ParseAllOfStrings(ms: seq<Int32>)
    ensures ParseAll(MineStrings(ms)) == Some(ms)
  {
    forall i | 0 <= i < |ms|
      ensures ParseInt(MineStrings(ms)[i]) == Some(ms[i])
    {
      ParseIntToString(ms[i]);
    }
    ParseAllOfParsed(MineStrings(ms), ms);
  }

  /** The saved text splits back into the punter id and one piece per mine. */
  lemma SplitSerialized(punterId: Int32, myMines: seq<Int32>)
    requires myMines != []
    ensures Split(SerializeState(punterId, myMines), ';') == [IntToString(punterId)] + MineStrings(myMines)
  {
    var head := IntToString(punterId);
    var parts := MineStrings(myMines);
    IntToStringAvoids(punterId, ';');
    forall i | 0 <= i < |parts|
      ensures ';' !in parts[i]
    {
      IntToStringAvoids(myMines[i], ';');
    }
    assert SerializeState(punterId, myMines) == head + [';'] + Join(parts, ';');
    SplitAtFirstSeparator(head, ';', Join(parts, ';'));
    SplitJoin(parts, ';');
  }

  /** A state with at least one mine survives saving and loading. */
  lemma StateRoundTrip(punterId: Int32, myMines: seq<Int32>)
    requires NoDup(myMines) && myMines != []
    ensures ParseState(SerializeState(punterId, myMines)) == Some(AiState(punterId, myMines))
  {
    SplitSerialized(punterId, myMines);
    var split := Split(SerializeState(punterId, myMines), ';');
    assert split[0] == IntToString(punterId);
    assert split[1..] == MineStrings(myMines);
    ParseIntToString(punterId);
    ParseAllOfStrings(myMines);
    AddMinesOfNew([], myMines);
    assert [] + myMines == myMines;
  }

  /** A state without mines is saved as "p;", which splits into the punter
      id and one empty piece. */
  lemma SplitEmptyState(punterId: Int32)
    ensures Split(SerializeState(punterId, []), ';') == [IntToString(punterId), ""]
  {
    var head := IntToString(punterId);
    IntToStringAvoids(punterId, ';');
    SplitAtFirstSeparator(head, ';', "");
    assert SerializeState(punterId, []) == head + [';'] + "";
  }

  /** The empty piece after the separator does not parse as an integer:
      loading a state without mines fails. */
  lemma EmptyStateDoesNotRoundTrip(punterId: Int32)
    ensures ParseState(SerializeState(punterId, [])) == None
  {
    SplitEmptyState(punterId);
    var split := Split(SerializeState(punterId, []), ';');
    assert split[1..] == [""];
    assert ParseInt("") == None;
  }

  /** `myMines.UnionWith(pieces.Select(int.Parse))` on an empty set: the
      pieces are parsed and added one by one until one does not parse.
      `failure` is the index of that piece, and `mines` holds what was added
      before it. */
  method UnionParsed(pieces: seq<string>) returns (mines: seq<Int32>, failure: Option<nat>)
    ensures NoDup(mines)
    ensures failure.None? <==> ParseAll(pieces).Some?
    ensures failure.None? ==> mines == AddMines([], ParseAll(pieces).value)
    ensures failure.Some? ==>
              && failure.value < |pieces| && ParseInt(pieces[failure.value]).None?
              && ParseAll(pieces[..failure.value]).Some?
              && mines == AddMines([], ParseAll(pieces[..failure.value]).value)
  {
    mines := [];
    ghost var parsed: seq<Int32> := [];
    for i := 0 to |pieces|
      invariant ParseAll(pieces[..i]) == Some(parsed) && mines == AddMines([], parsed) && NoDup(mines)
    {
      var v := ParseInt(pieces[i]);
      assert pieces[..i + 1][..i] == pieces[..i];
      if v.None? {
        ParseAllFailsAt(pieces, i);
        return mines, Some(i);
      }
      mines := AddMine(mines, v.value);
      parsed := parsed + [v.value];
    }
    assert pieces[..|pieces|] == pieces;
    failure := None;
  }

  /** The loading that saving evidently expects: the empty piece that a
      state without mines leaves after the separator is skipped. */
  function ParseStateSkippingEmpty(text: string): Option<AiState>
  {
    var parts := Split(text, ';');
    match ParseInt(parts[0])
    case None => None
    case Some(p) =>
      match ParseAll(Filter(parts[1..], NonEmpty))
      case None => None
      case Some(ms) => Some(AiState(p, AddMines([], ms)))
  }

  predicate NonEmpty(s: string)
  {
    s != ""
  }

  lemma MineStringsNonEmpty(ms: seq<Int32>)
    ensures Filter(MineStrings(ms), NonEmpty) == MineStrings(ms)
  {
    var strs := MineStrings(ms);
    forall i | 0 <= i < |strs|
      ensures NonEmpty(strs[i])
    {
      IntToStringNonEmpty(ms[i]);
    }
    FilterKeepsAll(strs, NonEmpty);
  }

  /** With empty pieces skipped, every state survives saving and loading,
      a state without mines included. */
  lemma StateRoundTripSkippingEmpty(punterId: Int32, myMines: seq<Int32>)
    requires NoDup(myMines)
    ensures ParseStateSkippingEmpty(SerializeState(punterId, myMines)) == Some(AiState(punterId, myMines))
  {
    if myMines == [] {
      EmptyStateSkippingEmpty(punterId);
    } else {
      MinesStateSkippingEmpty(punterId, myMines);
    }
  }

  lemma EmptyStateSkippingEmpty(punterId: Int32)
    ensures ParseStateSkippingEmpty(SerializeState(punterId, [])) == Some(AiState(punterId, []))
  {
    ParseIntToString(punterId);
    SplitEmptyState(punterId);
    var split := Split(SerializeState(punterId, []), ';');
    assert split[1..] == [""];
    assert Filter([""], NonEmpty) == [];
  }

  lemma MinesStateSkippingEmpty(punterId: Int32, myMines: seq<Int32>)
    requires NoDup(myMines) && myMines != []
    ensures ParseStateSkippingEmpty(SerializeState(punterId, myMines)) == Some(AiState(punterId, myMines))
  {
    ParseIntToString(punterId);
    var split := Split(SerializeState(punterId, myMines), ';');
    SplitSerialized(punterId, myMines);
    assert split[1..] == MineStrings(myMines);
    MineStringsNonEmpty(myMines);
    ParseAllOfStrings(myMines);
    AddMinesOfNew([], myMines);
    assert [] + myMines == myMines;
  }

  /** A placeholder for the ghost edge results when no edge was chosen. */
  const NoEdge := Edge(0, 0, River(0, 0, 0, NoOwner))

  /** Adds `v` to the AI's mines when it is a mine of the graph. */
  function AddIfMine(g: Graph, mines: seq<Int32>, v: Int32): (r: seq<Int32>)
    ensures NoDup(mines) ==> NoDup(r)
    ensures forall x :: x in r <==> x in mines || (x == v && IsMine(g, v))
  {
    if IsMine(g, v) then AddMine(mines, v) else mines
  }

  class ConnectClosestMinesAi {
    var myMines: seq<Int32>
    var punterId: Int32
    /** The distance table; `None` until the first round starts. */
    var mineDist: Option<(int, int) -> int>

    ghost predicate Valid()
      reads this
    {
      NoDup(myMines)
    }

    constructor()
      ensures Valid() && myMines == [] && punterId == 0 && mineDist == None
    {
      myMines := [];
      punterId := 0;
      mineDist := None;
    }

    /** Records the punter id and the distances of the new map. The mines
        connected so far are kept. */
    method StartRound(punterId: Int32, puntersCount: int, dist: (int, int) -> int)
      requires Valid()
      modifies this
      ensures Valid()
      ensures this.punterId == punterId && mineDist == Some(dist) && myMines == old(myMines)
    {
      this.punterId := punterId;
      mineDist := Some(dist);
    }

    function MakeMove(e: Edge): (m: Move)
      reads this
      ensures m.Claim? && m.punter == punterId && m.source == e.from && m.target == e.to
    {
      Claim(punterId, e.from, e.to)
    }

    /** Breadth-first search over unclaimed rivers from the mines not yet
        connected. The first site reached that touches one of the punter's
        rivers decides the move: the river the search arrived by is claimed,
        and its mine ends become connected. That river ends `trail`, a
        shortest unclaimed walk from a start mine to a site touching the
        punter's rivers. A start mine that touches the punter's river has no
        arrival river: the program fails there. */
    method TryExtendComponent(g: Graph) returns (r: Attempt, ghost via: Edge, ghost trail: Trail)
      requires Valid() && ValidGraph(g)
      modifies this
      ensures Valid() && punterId == old(punterId) && mineDist == old(mineDist)
      ensures r.Failed? <==> SomeStartTouches(g, punterId, StartMines(g, old(myMines)))
      ensures r.Failed? ==> r.fault == NullEdge && myMines == old(myMines)
      ensures r.NoMove? ==> myMines == old(myMines) && NothingOwnedInReach(g, punterId, StartMines(g, old(myMines)))
      ensures r.Claimed? ==>
                && FreeEdge(g, via) && NearestArrival(g, punterId, StartMines(g, old(myMines)), trail, via)
                && r.move == MakeMove(via)
                && myMines == AddIfMine(g, AddIfMine(g, old(myMines), via.from), via.to)
    {
      via := NoEdge;
      var starts := StartMines(g, myMines);
      StartMinesNoDup(g, myMines);
      var found;
      found, trail := SearchTouching(g, punterId, starts);
      match found {
        case None =>
          r := NoMove;
        case Some(current) =>
          if current.edge.None? {
            r := Failed(NullEdge);
          } else {
            var e := current.edge.value;
            myMines := AddIfMine(g, myMines, e.from);
            myMines := AddIfMine(g, myMines, e.to);
            r, via := Claimed(MakeMove(e)), e;
          }
      }
      if r.NoMove? {
        assert forall m :: m in starts ==> UnclaimedWalk(g, m, []) && WalkEnd(m, []) == m;
      }
    }

    /** Breadth-first search over unclaimed rivers from all unconnected mines
        at once. Where the searches of two different mines meet, the mine with
        fewer unclaimed rivers becomes connected and the first river of the
        path leaving it is claimed (the meeting river itself when the path
        starts at that mine). `link` holds the two mines and the walks from
        them the search met by. */
    method TryBuildNewComponent(g: Graph) returns (r: Attempt, ghost via: Edge, ghost link: Link)
      requires Valid() && ValidGraph(g)
      modifies this
      ensures Valid() && punterId == old(punterId) && mineDist == old(mineDist)
      ensures !r.Failed?
      ensures r.NoMove? ==> myMines == old(myMines) && StartsSeparated(g, StartMines(g, old(myMines)))
      ensures r.Claimed? ==>
                && Links(g, StartMines(g, old(myMines)), link)
                && myMines == AddMine(old(myMines), SelectBestMine(g, link.first, link.second))
                && via == LinkEdge(SelectBestMine(g, link.first, link.second), link)
                && FreeEdge(g, via) && SelectBestMine(g, link.first, link.second) in {via.from, via.to}
                && r.move == MakeMove(via)
    {
      via, link := NoEdge, Link(0, 0, [], []);
      var starts := StartMines(g, myMines);
      var found;
      ghost var prevWalk, curWalk;
      found, prevWalk, curWalk := SearchMeeting(g, starts);
      match found {
        case None =>
          r := NoMove;
        case Some(meet) =>
          r, via, link := ClaimAtMeeting(g, starts, meet, prevWalk, curWalk);
      }
    }

    /** Where the searches of two start mines meet: the mine with fewer
        unclaimed rivers becomes connected, and the first river of the path
        leaving it is claimed, or the meeting river when the path starts at
        that mine. */
    method ClaimAtMeeting(g: Graph, ghost starts: seq<Int32>, meet: Meeting, ghost prevWalk: seq<Edge>, ghost curWalk: seq<Edge>)
      returns (r: Attempt, ghost via: Edge, ghost link: Link)
      requires Valid() && EdgesWithin(g) && ValidMeeting(g, starts, meet, prevWalk, curWalk)
      requires |prevWalk| <= |curWalk| + 1 && NearestMeeting(g, starts, |curWalk| + 1)
      modifies this
      ensures Valid() && punterId == old(punterId) && mineDist == old(mineDist)
      ensures && r.Claimed? && Links(g, starts, link)
              && myMines == AddMine(old(myMines), SelectBestMine(g, link.first, link.second))
              && via == LinkEdge(SelectBestMine(g, link.first, link.second), link)
              && FreeEdge(g, via) && SelectBestMine(g, link.first, link.second) in {via.from, via.to}
              && r.move == MakeMove(via)
    {
      var prev, current, edge := meet.prev, meet.current, meet.edge;
      var best := SelectBestMine(g, prev.source, current.source);
      myMines := AddMine(myMines, best);
      var e := if best == prev.source then (if prev.firstEdge.Some? then prev.firstEdge.value else edge)
               else (if current.firstEdge.Some? then current.firstEdge.value else edge);
      link := Link(prev.source, current.source, prevWalk, curWalk + [edge]);
      MeetingClaim(g, starts, meet, prevWalk, curWalk, best);
      r, via := Claimed(MakeMove(e)), e;
    }

    /** The saved state: the punter id, then the mines, separated by `;`.
        Loading gives it back when at least one mine is connected; with none
        it leaves "p;", whose empty last piece does not load. The loader that
        skips empty pieces gives back every state. */
    function SerializeGameState(): (s: string)
      reads this
      ensures Valid() && myMines != [] ==> ParseState(s) == Some(AiState(punterId, myMines))
      ensures myMines == [] ==> ParseState(s) == None
      ensures Valid() ==> ParseStateSkippingEmpty(s) == Some(AiState(punterId, myMines))
    {
      if myMines == [] then
        EmptyStateDoesNotRoundTrip(punterId);
        EmptyStateSkippingEmpty(punterId);
        SerializeState(punterId, myMines)
      else if NoDup(myMines) then
        StateRoundTrip(punterId, myMines);
        MinesStateSkippingEmpty(punterId, myMines);
        SerializeState(punterId, myMines)
      else SerializeState(punterId, myMines)
    }

    /** Loads a saved state. The punter id is stored as soon as it parses;
        the mines are cleared and then added one by one, so a piece that
        does not parse leaves the mines before it in place. `ok` is false
        where the program throws, and then `failedAt` is the index of the
        first piece that does not parse. */
    method DeserializeGameState(text: string) returns (ok: bool, ghost failedAt: nat)
      requires Valid()
      modifies this
      ensures Valid() && mineDist == old(mineDist)
      ensures ok <==> ParseState(text).Some?
      ensures ok ==> punterId == ParseState(text).value.punterId && myMines == ParseState(text).value.myMines
      ensures !ok ==> failedAt < |Split(text, ';')| && ParseInt(Split(text, ';')[failedAt]).None?
      ensures !ok && failedAt == 0 ==> punterId == old(punterId) && myMines == old(myMines)
      ensures !ok && failedAt > 0 ==>
                && Some(punterId) == ParseInt(Split(text, ';')[0])
                && ParseAll(Split(text, ';')[1..failedAt]).Some?
                && myMines == AddMines([], ParseAll(Split(text, ';')[1..failedAt]).value)
    {
      var split := Split(text, ';');
      var id := ParseInt(split[0]);
      if id.None? {
        assert ParseState(text) == None;
        return false, 0;
      }
      punterId := id.value;
      var mines, failure := UnionParsed(split[1..]);
      assert ParseState(text) == if failure.None? then Some(AiState(id.value, mines)) else None;
      myMines := mines;
      match failure {
        case None =>
          ok, failedAt := true, 0;
        case Some(k) =>
          assert split[1..][k] == split[k + 1] && split[1..][..k] == split[1..k + 1];
          ok, failedAt := false, k + 1;
      }
    }

    /** One turn: the first of the three strategies that claims a river
        decides the move, and with none of them the punter passes. The
        distance table `dist` is taken on the first turn only; `conn` gives
        the mines each site is connected to through the punter's rivers. A
        fault is an exception escaping the turn. `tier` tells which strategy
        moved (0 for a fault, 4 for a pass), `via` the river claimed, `trail`
        the walk the first strategy followed to it and `link` the two mines
        the second strategy linked. */
    method GetNextMove(prevMoves: seq<Move>, g: Graph, dist: (int, int) -> int, conn: Int32 -> set<int>)
      returns (r: Result<Move, Fault>, ghost tier: nat, ghost via: Edge, ghost trail: Trail, ghost link: Link)
      requires Valid() && ValidGraph(g)
      modifies this
      ensures Valid() && punterId == old(punterId)
      ensures mineDist == if old(mineDist).Some? then old(mineDist) else Some(dist)
      ensures tier <= 4 && (tier == 0 <==> SomeStartTouches(g, punterId, StartMines(g, old(myMines))))
      ensures tier == 0 ==> r == Err(NullEdge) && myMines == old(myMines)
      ensures 2 <= tier ==> NothingOwnedInReach(g, punterId, StartMines(g, old(myMines)))
      ensures tier == 1 ==> r == Ok(MakeMove(via)) && FreeEdge(g, via)
                            && NearestArrival(g, punterId, StartMines(g, old(myMines)), trail, via)
                            && myMines == AddIfMine(g, AddIfMine(g, old(myMines), via.from), via.to)
      ensures 1 < tier ==> Later(g, punterId, conn, mineDist.value, old(myMines), myMines, r, tier, via, link)
      ensures UnclaimedEdges(g) == [] && !SomeStartTouches(g, punterId, StartMines(g, old(myMines))) ==> r == Ok(Pass(punterId))
    {
      link := Link(0, 0, [], []);
      if mineDist.None? {
        mineDist := Some(dist);
      }
      var a;
      a, via, trail := TryExtendComponent(g);
      match a {
        case Claimed(move) =>
          r, tier := Ok(move), 1;
        case Failed(fault) =>
          r, tier := Err(fault), 0;
        case NoMove =>
          assert !SomeStartTouches(g, punterId, StartMines(g, old(myMines))) by {
            forall m | m in StartMines(g, old(myMines))
              ensures !TouchesOwned(g, punterId, m)
            {
              assert UnclaimedWalk(g, m, []) && WalkEnd(m, []) == m;
            }
          }
          r, tier, via, link := BuildOrExtendAnything(g, conn);
      }
    }

    /** The second and third strategies, and the pass: what a turn does once
        no component of the punter can be extended towards a mine. */
    method BuildOrExtendAnything(g: Graph, conn: Int32 -> set<int>)
      returns (r: Result<Move, Fault>, ghost tier: nat, ghost via: Edge, ghost link: Link)
      requires Valid() && ValidGraph(g) && mineDist.Some?
      modifies this
      ensures Valid() && punterId == old(punterId) && mineDist == old(mineDist)
      ensures 2 <= tier && Later(g, punterId, conn, mineDist.value, old(myMines), myMines, r, tier, via, link)
      ensures UnclaimedEdges(g) == [] ==> r == Ok(Pass(punterId))
    {
      var a;
      a, via, link := TryBuildNewComponent(g);
      if a.Claimed? {
        FreeEdgeIsListed(g, via);
        return Ok(a.move), 2, via, link;
      }
      r, tier, via := ExtendAnythingOrPass(g, conn);
    }

    /** The third strategy, and the pass when it finds nothing: the
        best-scoring unclaimed river, a fault as the scan meets it, or a pass
        exactly when there is no unclaimed river. */
    method ExtendAnythingOrPass(g: Graph, conn: Int32 -> set<int>)
      returns (r: Result<Move, Fault>, ghost tier: nat, ghost via: Edge)
      requires ValidGraph(g) && mineDist.Some?
      ensures (tier == 3 || tier == 4) && ScanMove(g, punterId, conn, mineDist.value, r, tier, via)
    {
      via := NoEdge;
      var a := TryExtendAnything(g, conn);
      ghost var scan := ScanBest(UnclaimedEdges(g), conn, mineDist.value);
      match a {
        case Failed(f) =>
          return Err(f), 3, via;
        case Claimed(move) =>
          ScanBestIsFirstMaximum(UnclaimedEdges(g), conn, mineDist.value);
          via := scan.value.edge.value;
          return Ok(move), 3, via;
        case NoMove =>
          ScanBestIsFirstMaximum(UnclaimedEdges(g), conn, mineDist.value);
          return Ok(Pass(punterId)), 4, via;
      }
    }

    /** Claims the unclaimed edge that adds the most, scanning the sites in
        order and each site's unclaimed edges in order, as `ScanBest` does
        over `UnclaimedEdges(g)`. `conn` gives the mines each site is already
        connected to through the punter's rivers. */
    method TryExtendAnything(g: Graph, conn: Int32 -> set<int>) returns (r: Attempt)
      requires mineDist.Some?
      ensures match ScanBest(UnclaimedEdges(g), conn, mineDist.value)
                case Err(f) => r == Failed(f)
                case Ok(b) => if b.edge.Some? then r == Claimed(MakeMove(b.edge.value)) else r == NoMove
    {
      var dist := mineDist.value;
      var maxAddScore := LongMin;
      var bestEdge: Option<Edge> := None;
      ghost var done: seq<Edge> := [];
      for i := 0 to |g.vertices|
        invariant done == UnclaimedEdgesOf(g, g.vertices[..i])
        invariant ScanBest(done, conn, dist) == Ok(Best(bestEdge, maxAddScore))
      {
        var free := UnclaimedOf(Edges(g, g.vertices[i]));
        assert done + free[..0] == done;
        for j := 0 to |free|
          invariant ScanBest(done + free[..j], conn, dist) == Ok(Best(bestEdge, maxAddScore))
        {
          var edge := free[j];
          TakeOneMore(done, free, j);
          ScanBestPush(done + free[..j], edge, conn, dist);
          var addScore := ExtendScore(edge, conn, dist);
          if addScore.Err? {
            ScannedFaultIsFinal(g, conn, dist, i, free, j);
            return Failed(addScore.error);
          }
          if addScore.value > maxAddScore {
            maxAddScore := addScore.value;
            bestEdge := Some(edge);
          }
        }
        assert free[..|free|] == free;
        UnclaimedEdgesOfNext(g, g.vertices, i);
        done := done + free;
      }
      assert g.vertices[..|g.vertices|] == g.vertices;
      if bestEdge.Some? {
        return Claimed(MakeMove(bestEdge.value));
      }
      return NoMove;
    }
  }

  /** The edge claimed at a meeting, `prev.FirstEdge ?? edge` or
      `current.FirstEdge ?? edge` as `best` is the earlier or the current
      source, is the free edge of the joining path at `best`. */
  lemma MeetingClaim(g: Graph, starts: seq<Int32>, m: Meeting, prevWalk: seq<Edge>, curWalk: seq<Edge>, best: Int32)
    requires EdgesWithin(g) && ValidMeeting(g, starts, m, prevWalk, curWalk)
    requires |prevWalk| <= |curWalk| + 1 && NearestMeeting(g, starts, |curWalk| + 1)
    requires best == m.prev.source || best == m.current.source
    ensures var l := Link(m.prev.source, m.current.source, prevWalk, curWalk + [m.edge]);
            var e := if best == m.prev.source then (if m.prev.firstEdge.Some? then m.prev.firstEdge.value else m.edge)
                     else (if m.current.firstEdge.Some? then m.current.firstEdge.value else m.edge);
            && Links(g, starts, l) && e == LinkEdge(best, l) && FreeEdge(g, e) && best in {e.from, e.to}
  {
    var l := Link(m.prev.source, m.current.source, prevWalk, curWalk + [m.edge]);
    MeetingLinks(g, starts, m, prevWalk, curWalk);
    if best == l.first && l.firstWalk != [] {
      FirstStepFree(g, l.first, l.firstWalk);
    } else if best == l.second {
      FirstStepFree(g, l.second, l.secondWalk);
    }
  }

  /** The outcome of a turn of `punter` decided by the second strategy
      (`tier` 2), the third (3) or a pass (4), with `mines0` the mines
      connected before it. The third strategy and the pass run only when no
      two unconnected mines are linked by unclaimed rivers. */
  ghost predicate Later(g: Graph, punter: Int32, conn: Int32 -> set<int>, dist: (int, int) -> int,
                        mines0: seq<Int32>, mines: seq<Int32>, r: Result<Move, Fault>, tier: nat, via: Edge, link: Link)
  {
    && (tier == 2 ==> LinkMove(g, punter, mines0, mines, r, via, link))
    && (3 <= tier ==> StartsSeparated(g, StartMines(g, mines0)) && mines == mines0 && ScanMove(g, punter, conn, dist, r, tier, via))
    && tier <= 4
  }

  /** A move of the second strategy: for two unconnected mines whose
      unclaimed walks meet nearest, it connects the one with fewer unclaimed
      rivers and claims the edge of the joining path at that mine. */
  ghost predicate LinkMove(g: Graph, punter: Int32, mines0: seq<Int32>, mines: seq<Int32>,
                           r: Result<Move, Fault>, via: Edge, link: Link)
  {
    && Links(g, StartMines(g, mines0), link)
    && var linked := SelectBestMine(g, link.first, link.second);
       && mines == AddMine(mines0, linked)
       && via == LinkEdge(linked, link) && linked in {via.from, via.to}
       && FreeEdge(g, via) && via in UnclaimedEdges(g)
       && r == Ok(Claim(punter, via.from, via.to))
  }

  /** A move of the third strategy (`tier` 3) or a pass (4): the
      best-scoring river or the fault the scan meets, and a pass exactly
      when the scan finds no unclaimed river. */
  ghost predicate ScanMove(g: Graph, punter: Int32, conn: Int32 -> set<int>, dist: (int, int) -> int,
                          r: Result<Move, Fault>, tier: nat, via: Edge)
  {
    && (tier == 3 ==>
          match ScanBest(UnclaimedEdges(g), conn, dist)
          case Err(f) => r == Err(f)
          case Ok(b) => b.edge == Some(via) && r == Ok(Claim(punter, via.from, via.to)) && FreeEdge(g, via))
    && (tier == 4 ==> r == Ok(Pass(punter)) && UnclaimedEdges(g) == [] && ScanBest(UnclaimedEdges(g), conn, dist).Ok?)
  }

  /** A fault met at the `j`-th unclaimed edge of the `i`-th site is the
      outcome of the whole scan. */
  lemma ScannedFaultIsFinal(g: Graph, conn: Int32 -> set<int>, dist: (int, int) -> int,
                            i: int, free: seq<Edge>, j: int)
    requires 0 <= i < |g.vertices| && free == UnclaimedOf(Edges(g, g.vertices[i])) && 0 <= j < |free|
    requires ScanBest(UnclaimedEdgesOf(g, g.vertices[..i]) + free[..j + 1], conn, dist).Err?
    ensures ScanBest(UnclaimedEdges(g), conn, dist)
         == ScanBest(UnclaimedEdgesOf(g, g.vertices[..i]) + free[..j + 1], conn, dist)
  {
    var vs := g.vertices;
    UnclaimedEdgesSplit(g, i);
    Regroup(UnclaimedEdgesOf(g, vs[..i]), free, UnclaimedEdgesOf(g, vs[i + 1..]), j + 1);
    ScanBestFaultPersists(UnclaimedEdgesOf(g, vs[..i]) + free[..j + 1],
                          free[j + 1..] + UnclaimedEdgesOf(g, vs[i + 1..]), conn, dist);
  }
}
