# Move selection of the kontur.ru ICFP Contest 2017 bots, in Dafny

In the game, punters take turns claiming rivers between sites of a map; some
sites are mines, and a punter scores the squared distance from each mine to
every site it has connected to that mine. This project models the move
selection and bookkeeping of several of the team's bots, and proves what each
one guarantees:

- **ConnectClosestMinesAi** (`connect_closest_mines_ai.dfy`, `mine_search.dfy`).
  Each turn it tries three things in order:
  - extend one of its components toward a site that touches its own rivers
    (a breadth-first search from the mines it has not yet connected);
  - link two unconnected mines by growing breadth-first searches from all of
    them until two searches meet;
  - claim the unclaimed river that adds the most score.

  If all three fail, it passes. The set of mines it has connected is saved as
  text (`"p;m1;m2"`) and loaded back.
- **GreedyStrategy** (`greedy_strategy.dfy`). Every unclaimed river, seen from
  each of its ends, becomes a candidate estimated by the squared distances it
  would newly connect.
- **LochDinicKillerStrategy** (`loch_dinic_killer_strategy.dfy`). It builds a
  table of blocking weights. A mine of the punter's that is running out of
  free rivers gets one of them weighted 10. Then, for up to ten random pairs
  of mines, every river of a small minimum cut gains `1/flow`. Rivers of
  positive weight are offered.
- **LochMaxVertexWeighterKillerAi** (`loch_max_vertex_weighter_killer_ai.dfy`).
  On maps of 300 sites or more it claims the first unclaimed river of the
  least-contested mine (fewest distinct owners, with a random tie-break);
  otherwise it defers to its base AI.
- **GameSimulatorRunner** (`game_simulator_runner.dfy`) steps a simulator until
  the game is over, then scores every seat.
- **NamedMap** (`named_map.dfy`) is a map with a non-empty name.

Shared pieces:

- `common.dfy`: Option and Result, 32-bit integers, filtering, duplicate-free
  sequences.
- `graph.dfy`: the graph the bots see. It has sites, the two directed edges of
  every river, which share the river's owner, and mines. `ValidGraph` states
  what the bots rely on.
- `text.dfy`: decimal integers, .NET's `int.Parse` on trimmed text, and
  splitting and joining at a separator.

Collaborators that are not part of this model are parameters:

- the connected-mines calculator: `conn`, the mines each site reaches through
  the punter's rivers;
- the mine-distance calculator: `dist`;
- the maximum-flow computation: `dinic`, from a pair of mines to a flow and a
  minimum cut;
- the random generator: `rand`, the `k`-th draw;
- the simulator: a game that is over after a given number of turns;
- the score calculator;
- the base AI: its move and futures, and the state its `StartRound` and `GetNextMove` leave it in, come in as values; its state is of an abstract type saved and loaded by functions it supplies.

## Model

| member | source | states |
|---|---|---|
| ConnectClosestMines.ConnectClosestMinesAi.constructor | lib/ConnectClosestMinesAi.cs:15-17 | A new AI has no connected mines and no distance calculator. |
| ConnectClosestMines.ConnectClosestMinesAi.StartRound | lib/ConnectClosestMinesAi.cs:22-26 | Records the punter id and the distance calculator. The connected mines are kept, as the source does not clear them. |
| ConnectClosestMines.ConnectClosestMinesAi.GetNextMove | lib/ConnectClosestMinesAi.cs:28-46 | Builds the distance calculator only if there is none yet, and tries the three strategies in order. The turn is a null-edge fault (tier 0) exactly when a start mine already touches an owned river, and then `myMines` is unchanged. Tier 1 claims the last edge of a shortest unclaimed walk from an unconnected mine to a site touching an owned river, and adds that edge's ends that are mines to `myMines`. Later tiers run only when no owned river is in reach, and each claim is by the AI's own punter. With no unclaimed river and no fault, the result is `Pass(punterId)`. |
| ConnectClosestMines.ConnectClosestMinesAi.BuildOrExtendAnything | lib/ConnectClosestMinesAi.cs:39-45 | If two unconnected mines are linked, tier 2: the punter's claim of the edge of the nearest joining path at the mine it connects. Otherwise, with the mines unchanged and the starts separated, whatever the third strategy gives. The pass happens exactly when there is no unclaimed river. |
| ConnectClosestMines.ConnectClosestMinesAi.ExtendAnythingOrPass | lib/ConnectClosestMinesAi.cs:41-45 | Tier 3: the punter's claim of the first best-scoring unclaimed river, or the scan's fault. Tier 4: a pass by the punter, exactly when no river is unclaimed. |
| ConnectClosestMines.ConnectClosestMinesAi.TryExtendAnything | lib/ConnectClosestMinesAi.cs:48-87 | The loop returns exactly what `ScanBest` over all unclaimed edges gives: the fault of the first faulting edge, the first edge of strictly greatest score, or no move when no river is unclaimed. |
| ConnectClosestMines.ExtendScore | lib/ConnectClosestMinesAi.cs:57-72 | A fault exactly when both ends reach non-empty, different mine sets. Otherwise the squared distances from the mines of the connected end to the other end, and 0 when both ends reach the same mines. |
| ConnectClosestMines.ScanBestPush | lib/ConnectClosestMinesAi.cs:55-78 | Scanning one more edge keeps a fault, adopts the edge if its score is strictly larger, or keeps the best so far. |
| ConnectClosestMines.ScanBestFaults | lib/ConnectClosestMinesAi.cs:66-67 | The scan fails exactly when some edge faults, and then with the first such fault. |
| ConnectClosestMines.ScanBestIsFirstMaximum | lib/ConnectClosestMinesAi.cs:51-86 | On success every edge scores no more than the best. There is no best edge exactly when the list is empty. The best edge is the first of maximal score, because every earlier edge scores strictly less, starting from `long.MinValue`. |
| ConnectClosestMines.ScanBestFaultPersists | lib/ConnectClosestMinesAi.cs:66-67 | Once the scan has faulted, later edges do not change its outcome. |
| ConnectClosestMines.ScannedFaultIsFinal | lib/ConnectClosestMinesAi.cs:53-79 | A fault met part-way through the nested loops is the outcome of the whole scan. |
| ConnectClosestMines.ConnectClosestMinesAi.TryExtendComponent | lib/ConnectClosestMinesAi.cs:89-133 | It fails (null edge) exactly when a start mine touches an owned river. With no move, no owned river is reachable over unclaimed rivers from the start mines. A claim takes the last edge of an unclaimed walk from a start mine to a site touching an owned river, and no such walk is shorter. Whichever of the edge's ends are mines are added. |
| MineSearch.SearchTouching | lib/ConnectClosestMinesAi.cs:91-132 | The breadth-first search returns a site touching an owned river. It is a start mine only when its edge is missing. Otherwise no start touches an owned river, and its edge ends a walk from a start mine that is as short as any unclaimed walk to such a site. When nothing is found, no owned river is in reach. |
| MineSearch.StartExtendQueue | lib/ConnectClosestMinesAi.cs:91-102 | The queue is exactly one edgeless item per start mine, in order, and `used` is exactly the start mines. |
| MineSearch.EnqueueExtensions | lib/ConnectClosestMinesAi.cs:116-129 | Every unclaimed neighbour of the current item ends up used, with a walk at most one edge longer than the current one. New items are appended, and the queue invariant is kept. |
| MineSearch.EnqueueExtension | lib/ConnectClosestMinesAi.cs:117-128 | An unseen neighbour is appended with its edge and the current walk extended by that edge, and marked used. A seen one is skipped. |
| MineSearch.ExtendingPush | lib/ConnectClosestMinesAi.cs:119-128 | Appending an unseen neighbour keeps every queued item reached by its unclaimed walk from a start mine, walks growing along the queue, and each site entered once. |
| MineSearch.ExtendingSkip | lib/ConnectClosestMinesAi.cs:119 | Skipping a neighbour already used keeps the loop invariant. |
| MineSearch.ExtendQueuePush | lib/ConnectClosestMinesAi.cs:121-127 | Appending an item reached over a free edge keeps the queue invariant and breadth-first order. |
| MineSearch.WalkedPush | lib/ConnectClosestMinesAi.cs:121-126 | The appended item is reached by the current item's walk followed by its edge. |
| MineSearch.GrowingPush | lib/ConnectClosestMinesAi.cs:126 | A walk one edge longer than the current one keeps walks growing along the queue. |
| MineSearch.IndexedPush | lib/ConnectClosestMinesAi.cs:126-127 | The new site is used and indexed at the end of the queue. |
| MineSearch.TrailOf | lib/ConnectClosestMinesAi.cs:121-126 | Every queued item is reached by an unclaimed walk from a start mine. |
| MineSearch.EnqueuedCloses | lib/ConnectClosestMinesAi.cs:116-129 | Once every unclaimed edge of a site is enqueued, every unclaimed river out of it leads to a used site. |
| MineSearch.EnqueuedPush | lib/ConnectClosestMinesAi.cs:119-128 | Handling one more edge keeps the earlier edges' far ends used with the same bound. |
| MineSearch.ExtendStepDone | lib/ConnectClosestMinesAi.cs:104-130 | Scanning one item without finding an owned river extends the done prefix. |
| MineSearch.ExtendReach | lib/ConnectClosestMinesAi.cs:104-130 | Every site within the current distance of a start mine is used, with a walk no longer than the one that reaches it. |
| MineSearch.ExtendFound | lib/ConnectClosestMinesAi.cs:107-114 | A dequeued item without an edge is a start mine. One with an edge means no start touches an owned river, and its walk is a shortest one to a site touching an owned river. |
| MineSearch.ExtendExhausted | lib/ConnectClosestMinesAi.cs:104-132 | An empty queue with every item scanned means no owned river is reachable. |
| MineSearch.ExtendFrom | lib/ConnectClosestMinesAi.cs:106-129 | Dequeuing an item that touches no owned river and enqueuing its neighbours keeps the search invariant with one more item done. |
| ConnectClosestMines.ConnectClosestMinesAi.TryBuildNewComponent | lib/ConnectClosestMinesAi.cs:135-190 | Never faults. With no move, the start mines are pairwise separated over unclaimed rivers. A claim links two distinct start mines by unclaimed walks that meet, and no two start mines meet nearer. It adds the mine `SelectBestMine` picks, and claims the edge of the joining path at that mine: the first edge of its walk, or the meeting edge when the path starts there. |
| ConnectClosestMines.ConnectClosestMinesAi.ClaimAtMeeting | lib/ConnectClosestMinesAi.cs:160-172 | At a meeting, the mine `SelectBestMine` picks is added and the punter claims the edge of the joining path at that mine; the two mines are linked. |
| ConnectClosestMines.MeetingClaim | lib/ConnectClosestMinesAi.cs:164-171 | `prev.FirstEdge ?? edge` or `current.FirstEdge ?? edge`, as the picked mine is the earlier or the current source, is the free edge of the joining path at that mine, and it touches the mine. |
| MineSearch.SearchMeeting | lib/ConnectClosestMinesAi.cs:137-189 | The search from all start mines returns a meeting of two different sources over a free edge. Each side is reached by an unclaimed walk from its mine, starting with its recorded first edge. No two start mines reach a common site with walks both shorter than the current side's walk plus the meeting edge. With rivers listed from both ends, a meeting means the starts are not separated. With no meeting, they are pairwise separated. |
| MineSearch.StartBuildQueue | lib/ConnectClosestMinesAi.cs:137-149 | The queue is exactly one item per start mine, in order, as its own source without a first edge, and `used` holds exactly the start mines. |
| MineSearch.EnqueueOrMeet | lib/ConnectClosestMinesAi.cs:154-186 | Either two searches of different sources meet at an edge, or every free neighbour is now used, belongs to the current source and is at most one edge further. |
| MineSearch.ScannedPush | lib/ConnectClosestMinesAi.cs:175-185 | Enqueuing the next unseen neighbour with the current source, first edge and walk keeps the loop invariant. |
| MineSearch.ScannedSkip | lib/ConnectClosestMinesAi.cs:158-160 | A neighbour already reached from the same source is skipped. |
| MineSearch.BuildWalkedPush | lib/ConnectClosestMinesAi.cs:177-182 | The new item keeps the source, and the first edge of the walk that reaches it. |
| MineSearch.LengtheningPush | lib/ConnectClosestMinesAi.cs:183 | A walk one edge longer than the current one keeps walks growing along the queue. |
| MineSearch.BuildIndexedPush | lib/ConnectClosestMinesAi.cs:183-184 | The new site is used and indexed at the end of the queue. |
| MineSearch.SourcedOf | lib/ConnectClosestMinesAi.cs:177-184 | Every queued item is reached from its source by an unclaimed walk that starts with its first edge. |
| MineSearch.MeetingIsValid | lib/ConnectClosestMinesAi.cs:158-172 | A meeting joins two different start mines, each side reached by its walk, over a free edge from the current site to the earlier one. The earlier walk is at most one edge longer. |
| MineSearch.BuildReach | lib/ConnectClosestMinesAi.cs:151-186 | Every site within the current distance of a start mine is used from that mine, with a walk no longer than the one that reaches it. |
| MineSearch.MeetingIsNearest | lib/ConnectClosestMinesAi.cs:151-186 | No two start mines meet with walks both within the current distance. |
| MineSearch.BuildDoneKept | lib/ConnectClosestMinesAi.cs:154-186 | Items done before stay done as the queue grows. |
| MineSearch.BuildStepDone | lib/ConnectClosestMinesAi.cs:151-186 | Scanning one item without a meeting extends the done prefix. |
| MineSearch.BuildExhausted | lib/ConnectClosestMinesAi.cs:151-189 | An exhausted queue means no unclaimed path joins two start mines. |
| MineSearch.BuildFrom | lib/ConnectClosestMinesAi.cs:153-186 | Dequeuing an item gives a nearest valid meeting, or the search invariant with one more item done. |
| MineSearch.MeetingLinks | lib/ConnectClosestMinesAi.cs:160-172 | A meeting links its two mines. The current walk plus the meeting edge reaches the earlier site, and the edge claimed at either mine is that mine's edge of the joining path. |
| MineSearch.FirstStepFree | lib/ConnectClosestMinesAi.cs:166-170 | The first edge of an unclaimed walk is a free edge at its start. |
| MineSearch.LinkedStartsJoined | lib/ConnectClosestMinesAi.cs:160-172 | With rivers listed from both ends, two linked mines are joined by an unclaimed walk, so the starts are not separated. |
| MineSearch.EnteredShrinksRest | lib/ConnectClosestMinesAi.cs:151 | Marking a site used shrinks the set of unused sites, so the search ends. |
| ConnectClosestMines.SelectBestMine | lib/ConnectClosestMinesAi.cs:202-205 | One of the two mines, with the fewer unclaimed rivers; on a tie, the second. |
| ConnectClosestMines.ConnectClosestMinesAi.MakeMove | lib/ConnectClosestMinesAi.cs:207-210 | A claim by the AI's punter of the edge's two ends. |
| ConnectClosestMines.AddMine | lib/ConnectClosestMinesAi.cs:110-112 | `HashSet.Add`: the set gains the mine, no duplicate appears, and a mine already present changes nothing. |
| ConnectClosestMines.AddMines | lib/ConnectClosestMinesAi.cs:222 | `UnionWith`: membership is the union, without duplicates. |
| ConnectClosestMines.AddMinesOfNew | lib/ConnectClosestMinesAi.cs:222 | Adding new, distinct mines appends them in order. |
| ConnectClosestMines.AddIfMine | lib/ConnectClosestMinesAi.cs:109-112 | The site is added exactly when it is a mine. |
| ConnectClosestMines.StartMines | lib/ConnectClosestMinesAi.cs:93-139 | The searches start from exactly the mines not yet connected. |
| ConnectClosestMines.StartMinesNoDup | lib/ConnectClosestMinesAi.cs:93-139 | The start mines are distinct. |
| ConnectClosestMines.ConnectClosestMinesAi.SerializeGameState | lib/ConnectClosestMinesAi.cs:212-215 | With at least one mine, the text loads back as the same punter id and mines. With none, it does not load. The corrected loader, which skips empty pieces, gives back every state. |
| ConnectClosestMines.ConnectClosestMinesAi.DeserializeGameState | lib/ConnectClosestMinesAi.cs:217-223 | Succeeds exactly when every piece parses, and then the fields are the parsed state. A bad punter id changes nothing. A bad later piece leaves the punter id set and the mines parsed before it. |
| ConnectClosestMines.UnionParsed | lib/ConnectClosestMinesAi.cs:221-222 | The mines are the union of the pieces, without duplicates. It fails exactly when some piece does not parse, and then at the first such piece, with the mines before it added. |
| ConnectClosestMines.MineStrings | lib/ConnectClosestMinesAi.cs:214 | One decimal string per mine, in order. |
| ConnectClosestMines.ParseAll | lib/ConnectClosestMinesAi.cs:222 | A successful parse has one value per piece. |
| ConnectClosestMines.ParseAllFailsAt | lib/ConnectClosestMinesAi.cs:222 | One unparsable piece makes the whole list fail. |
| ConnectClosestMines.ParseAllPush | lib/ConnectClosestMinesAi.cs:222 | One more part that parses appends its value. |
| ConnectClosestMines.ParseAllOfParsed | lib/ConnectClosestMinesAi.cs:222 | Parts that each parse give the list of their values. |
| ConnectClosestMines.ParseAllOfStrings | lib/ConnectClosestMinesAi.cs:214-222 | Parsing printed mines gives them back. |
| ConnectClosestMines.SplitSerialized | lib/ConnectClosestMinesAi.cs:214-219 | The saved text splits into the punter id and one piece per mine. |
| ConnectClosestMines.StateRoundTrip | lib/ConnectClosestMinesAi.cs:212-223 | A state with distinct mines, at least one of them, survives saving and loading. |
| ConnectClosestMines.SplitEmptyState | lib/ConnectClosestMinesAi.cs:214-219 | A state without mines splits into the punter id and an empty piece. |
| ConnectClosestMines.EmptyStateDoesNotRoundTrip | lib/ConnectClosestMinesAi.cs:212-223 | A state without mines does not load back, because the empty piece does not parse. |
| ConnectClosestMines.MineStringsNonEmpty | lib/ConnectClosestMinesAi.cs:214 | No printed mine is empty, so skipping empty pieces keeps them all. |
| ConnectClosestMines.StateRoundTripSkippingEmpty | lib/ConnectClosestMinesAi.cs:212-223 | With empty pieces skipped, every state with distinct mines survives saving and loading. |
| ConnectClosestMines.EmptyStateSkippingEmpty | lib/ConnectClosestMinesAi.cs:212-223 | With empty pieces skipped, the state without mines survives. |
| ConnectClosestMines.MinesStateSkippingEmpty | lib/ConnectClosestMinesAi.cs:212-223 | With empty pieces skipped, a state with mines survives. |
| Text.ParseIntToString | lib/ConnectClosestMinesAi.cs:214-220 | `int.Parse` of a printed 32-bit integer gives it back. |
| Text.ParseSignedOfToString | lib/ConnectClosestMinesAi.cs:214-220 | The signed decimal reading of a printed integer gives it back. |
| Text.DigitsValueOfNatToString | lib/ConnectClosestMinesAi.cs:214 | The digits printed for a natural number read back as that number. |
| Text.NatToString | lib/ConnectClosestMinesAi.cs:214 | A natural number prints as at least one digit and digits only. |
| Text.DigitChar | lib/ConnectClosestMinesAi.cs:214 | The character of a digit is a digit of that value. |
| Text.IntToStringNonEmpty | lib/ConnectClosestMinesAi.cs:214 | A printed integer is never empty. |
| Text.IntToStringAvoids | lib/ConnectClosestMinesAi.cs:214 | A printed integer contains no separator such as `;`. |
| Text.NoWhiteAtEnds | lib/ConnectClosestMinesAi.cs:220 | Trimming leaves text without surrounding white space as it is. |
| Text.Split | lib/ConnectClosestMinesAi.cs:219 | `Split` always yields at least one piece. |
| Text.SplitWithoutSeparator | lib/ConnectClosestMinesAi.cs:219 | Text without the separator is one piece. |
| Text.SplitAtFirstSeparator | lib/ConnectClosestMinesAi.cs:219 | Splitting at the first separator gives its prefix and then the split rest. |
| Text.SplitJoin | lib/ConnectClosestMinesAi.cs:214-219 | Splitting joined pieces that contain no separator gives the pieces back. |
| Greedy.GreedyStrategy.Turn | lib/Strategies/GreedyStrategy.cs:19-39 | One candidate per unclaimed edge, in site order and then edge order; candidate `k` is the estimation of the `k`-th unclaimed edge. |
| Greedy.TurnOffersEachDirectionOnce | lib/Strategies/GreedyStrategy.cs:25-37 | Every candidate is an unclaimed river of the graph. In an undirected valid graph, each unclaimed river is offered exactly once from each end. |
| Greedy.Estimation | lib/Strategies/GreedyStrategy.cs:28-30 | Never negative, and 0 when both ends reach the same mines. |
| Greedy.EstimationSymmetric | lib/Strategies/GreedyStrategy.cs:30 | Both directions of a river are estimated alike. |
| Greedy.EstimationFromIsolatedSite | lib/Strategies/GreedyStrategy.cs:30 | From a site that reaches no mine, the estimation is the squared distance of every mine behind the other end. |
| Greedy.CalcVertexScore | lib/Strategies/GreedyStrategy.cs:41-46 | Never negative, and 0 when every mine is already reached. |
| Greedy.CalcVertexScoreAddsNewMine | lib/Strategies/GreedyStrategy.cs:41-46 | A mine new to both sides adds its squared distance. |
| Greedy.CalcVertexScoreIgnoresUsedMine | lib/Strategies/GreedyStrategy.cs:43 | A mine the other side already reaches adds nothing. |
| Greedy.ResultOf | lib/Strategies/GreedyStrategy.cs:31-35 | The candidate names the river, carries no move and has a non-negative estimation. |
| Graphs.SquaredDistSum | lib/ConnectClosestMinesAi.cs:192-200 | `Calc`: never negative, and 0 for no mines. |
| Graphs.SquaredDistSumRemove | lib/ConnectClosestMinesAi.cs:194-199 | The sum does not depend on the order in which mines are taken. |
| Graphs.SquaredDistSumSplit | lib/ConnectClosestMinesAi.cs:194-199 | Over disjoint mine sets, the sum splits. |
| Graphs.UnclaimedEdgesOf | lib/ConnectClosestMinesAi.cs:53-55 | The edges the nested loops visit are exactly the unclaimed edges of the given sites. |
| Graphs.UnclaimedEdgesOncePerDirection | lib/Strategies/GreedyStrategy.cs:25-26 | In a valid undirected graph, a free edge and its reverse each appear once in the enumeration. |
| Graphs.FreeEdgeIsListed | lib/ConnectClosestMinesAi.cs:53-55 | Every free edge is enumerated. |
| Graphs.LabelKeptAlongWalk | lib/ConnectClosestMinesAi.cs:177-184 | A label copied along unclaimed edges is the same at both ends of a walk. |
| Graphs.WalkPush | lib/ConnectClosestMinesAi.cs:116-127 | A free edge from the end of an unclaimed walk extends it to the edge's far end. |
| Graphs.WalkPop | lib/ConnectClosestMinesAi.cs:104-130 | An unclaimed walk minus its last edge is unclaimed, and that edge is free at its end. |
| Graphs.WalkConcat | lib/ConnectClosestMinesAi.cs:151-186 | Two unclaimed walks that meet end to start join into one. |
| Graphs.WalkBack | lib/ConnectClosestMinesAi.cs:154 | With rivers listed from both ends, an unclaimed walk reversed leads back to its start. |
| Graphs.Reversed | lib/ConnectClosestMinesAi.cs:154 | A reversed walk has the same length. |
| LochDinicKiller.LochDinicKillerStrategy.constructor | lib/Strategies/LochDinicKillerStrategy.cs:16-20 | Keeps the graph and the punter id; the table is empty. |
| LochDinicKiller.LochDinicKillerStrategy.NextTurns | lib/Strategies/LochDinicKillerStrategy.cs:30-44 | Rebuilds the table, then offers, in edge order, a claim of every edge whose weight is positive. |
| LochDinicKiller.Candidates | lib/Strategies/LochDinicKillerStrategy.cs:34-43 | Every candidate is a claim by the punter with positive estimation. A candidate is offered exactly for each listed edge of positive weight. |
| LochDinicKiller.OfferedAreWeighted | lib/Strategies/LochDinicKillerStrategy.cs:30-44 | Whatever a turn offers is a claim of an edge of the graph that is in the rebuilt table with positive weight. |
| LochDinicKiller.LochDinicKillerStrategy.Init | lib/Strategies/LochDinicKillerStrategy.cs:46-87 | The table is rebuilt from scratch: the save step, then every sample. |
| LochDinicKiller.LochDinicKillerStrategy.SampleCuts | lib/Strategies/LochDinicKillerStrategy.cs:68-86 | The sampling loop leaves the fold of all `Math.Min(10, n*(n-1))` samples over the table. |
| LochDinicKiller.LochDinicKillerStrategy.SampleOnce | lib/Strategies/LochDinicKillerStrategy.cs:70-85 | One sample: a pair whose flow is 0 or above 10 is skipped; otherwise its cut is added. |
| LochDinicKiller.LochDinicKillerStrategy.BlockCut | lib/Strategies/LochDinicKillerStrategy.cs:80-85 | Each cut edge that touches no banned mine gains `1/flow`, one after another. |
| LochDinicKiller.LochDinicKillerStrategy.EstimateWeight | lib/Strategies/LochDinicKillerStrategy.cs:89-92 | 0 for an edge not in the table. While all weights are positive, as `Init` leaves them, the estimation is positive exactly for the edges in the table. |
| LochDinicKiller.Weight | lib/Strategies/LochDinicKillerStrategy.cs:84-91 | `GetOrDefault(edge, 0)`. |
| LochDinicKiller.MineToSave | lib/Strategies/LochDinicKillerStrategy.cs:51-54 | The first mine that needs saving: the punter owns none of its rivers and fewer than `PunterId` are unclaimed. None exactly when no mine needs saving. |
| LochDinicKiller.EdgeToSave | lib/Strategies/LochDinicKillerStrategy.cs:57 | An unclaimed river of the mine, or none exactly when it has none. |
| LochDinicKiller.SaveWeights | lib/Strategies/LochDinicKillerStrategy.cs:49-60 | At most one edge, weighted 10 and unclaimed. It is a river of the first mine that needs saving, and there is one exactly when that mine exists and has an unclaimed river. |
| LochDinicKiller.SampledNoLess | lib/Strategies/LochDinicKillerStrategy.cs:68-86 | Sampling never lowers an edge's weight and never drops an edge from the table. |
| LochDinicKiller.AddCutNoLess | lib/Strategies/LochDinicKillerStrategy.cs:80-85 | Adding one cut never lowers an edge's weight and never drops an edge from the table. |
| LochDinicKiller.SavedRiverKept | lib/Strategies/LochDinicKillerStrategy.cs:46-87 | When the first mine needing saving has an unclaimed river, the river the save step picked is an unclaimed river of that mine and is still in the final table with weight at least 10. |
| LochDinicKiller.SavedRiverOffered | lib/Strategies/LochDinicKillerStrategy.cs:30-60 | In a graph built from a map, that saved river is offered: a claim of it by the punter, estimated at least 10, is among the turn's candidates. |
| LochDinicKiller.BannedMines | lib/Strategies/LochDinicKillerStrategy.cs:62-65 | Exactly the mines whose rivers show `PunterId + 1` distinct owners. |
| LochDinicKiller.SampledMines | lib/Strategies/LochDinicKillerStrategy.cs:67 | Exactly the mines with an unclaimed river. |
| LochDinicKiller.SampleCount | lib/Strategies/LochDinicKillerStrategy.cs:68 | At most 10 samples; none for fewer than two mines, and some otherwise. |
| LochDinicKiller.Next | lib/Strategies/LochDinicKillerStrategy.cs:70-72 | `Random.Next(n)` is below `n`. |
| LochDinicKiller.SamplePair | lib/Strategies/LochDinicKillerStrategy.cs:70-72 | Two different indices in range. |
| LochDinicKiller.SampleMines | lib/Strategies/LochDinicKillerStrategy.cs:70-72 | Two mines of the list, different when the list has no duplicates. |
| LochDinicKiller.AddCutWeight | lib/Strategies/LochDinicKillerStrategy.cs:80-85 | An edge gains `1/flow` for each time the cut lists it, unless it touches a banned mine. An edge is in the table after exactly when it was before or it is a cut edge away from banned mines. |
| LochDinicKiller.AddCutPositive | lib/Strategies/LochDinicKillerStrategy.cs:84 | Adding a cut keeps every weight positive. |
| LochDinicKiller.SampledPositive | lib/Strategies/LochDinicKillerStrategy.cs:68-86 | After any number of samples, every weight is positive. |
| LochDinicKiller.BannedKeepWeight | lib/Strategies/LochDinicKillerStrategy.cs:82-83 | An edge at a banned mine keeps its starting weight through all samples. |
| LochDinicKiller.SkippedSampleChangesNothing | lib/Strategies/LochDinicKillerStrategy.cs:75-78 | A sample with flow 0 or above 10 leaves the table as it was. |
| LochDinicKiller.InitWeightsFacts | lib/Strategies/LochDinicKillerStrategy.cs:46-87 | Every weight `Init` leaves is positive. An edge at a banned mine weighs what the save step gave it. |
| LochMaxVertexKiller.LochMaxVertexWeighterKillerAi.constructor | lib/Ai/LochMaxVertexWeighterKillerAi.cs:11-16 | The fields start at zero, with the base AI's state. |
| LochMaxVertexKiller.LochMaxVertexWeighterKillerAi.StartRound | lib/Ai/LochMaxVertexWeighterKillerAi.cs:20-25 | Records the punter id and punter count, leaves the base AI in the state its own `StartRound` leaves it in, and returns the base AI's futures unchanged. |
| LochMaxVertexKiller.LochMaxVertexWeighterKillerAi.GetNextMove | lib/Ai/LochMaxVertexWeighterKillerAi.cs:27-46 | Plays `KillerMove` for the AI's seat and punter count. When the turn goes to the base AI (lines 30 and 44), the base AI is left in the state its own `GetNextMove` leaves it in; otherwise the base state is untouched. The seat and count are kept. |
| LochMaxVertexKiller.KillerMove | lib/Ai/LochMaxVertexWeighterKillerAi.cs:27-46 | Under 300 sites, or with no targetable mine, the base AI's move. Otherwise a claim by the punter of the first unclaimed river of a targetable candidate that no other playable candidate precedes in (owners, key) order. |
| LochMaxVertexKiller.ChoiceIsLeastContested | lib/Ai/LochMaxVertexWeighterKillerAi.cs:36-42 | The pipeline finds a river exactly when some mine is targetable. The river is the first unclaimed river of a least-contested, lowest-keyed targetable mine. |
| LochMaxVertexKiller.Contested | lib/Ai/LochMaxVertexWeighterKillerAi.cs:37-38 | Exactly the mines with fewer than `puntersCount + 1` distinct owners become candidates, with their rivers and owner count. |
| LochMaxVertexKiller.DistinctOwners | lib/Ai/LochMaxVertexWeighterKillerAi.cs:38 | 0 exactly for a mine without rivers, and at least 1 otherwise. |
| LochMaxVertexKiller.Sort | lib/Ai/LochMaxVertexWeighterKillerAi.cs:39 | `OrderBy` yields a sorted permutation of the candidates. |
| LochMaxVertexKiller.Insert | lib/Ai/LochMaxVertexWeighterKillerAi.cs:39 | Inserting adds exactly the one candidate. |
| LochMaxVertexKiller.InsertSorted | lib/Ai/LochMaxVertexWeighterKillerAi.cs:39 | Inserting into a sorted list keeps it sorted. |
| LochMaxVertexKiller.FirstFree | lib/Ai/LochMaxVertexWeighterKillerAi.cs:42 | The first unclaimed river of the list: every river before it is owned. None exactly when every river is owned. |
| LochMaxVertexKiller.FirstUnclaimedIsLeast | lib/Ai/LochMaxVertexWeighterKillerAi.cs:40-42 | On a sorted list, the river found belongs to a playable candidate that precedes every other playable one. None is found exactly when no candidate is playable. |
| LochMaxVertexKiller.PlayableIffTargetable | lib/Ai/LochMaxVertexWeighterKillerAi.cs:38-42 | A candidate is playable exactly when its mine is targetable. |
| LochMaxVertexKiller.LochMaxVertexWeighterKillerAi.SerializeGameState | lib/Ai/LochMaxVertexWeighterKillerAi.cs:48-51 | The base AI's save of its own state, of whatever type the base AI uses. |
| LochMaxVertexKiller.LochMaxVertexWeighterKillerAi.DeserializeGameState | lib/Ai/LochMaxVertexWeighterKillerAi.cs:53-56 | The base state becomes the base AI's load of the text; the punter id and count are left alone. |
| LochMaxVertexKiller.StateRoundTrip | lib/Ai/LochMaxVertexWeighterKillerAi.cs:48-56 | Saving and loading gives the base AI's own round trip of its state, with the punter id and count unchanged. The state is unchanged exactly where the base AI's load undoes its save. |
| Simulation.GameSimulatorRunner.SimulateGame | lib/Simulator/GameSimulatorRunner.cs:14-31 | The simulator is stepped at least once and then until the game is over. There is one result per seat, in seat order, with that seat's player and that seat index's score on the map argument. |
| Simulation.TurnsPlayed | lib/Simulator/GameSimulatorRunner.cs:18-22 | At least one step, and exactly the game's length when that is positive. |
| Simulation.GameSimulator.NextMove | lib/Simulator/GameSimulatorRunner.cs:18-21 | One more turn; reports whether the game is over. |
| Simulation.GameSimulator.StartGame | lib/Simulator/GameSimulatorRunner.cs:17 | Seats the players; no turn has been played. |
| Simulation.GameSimulator.constructor | lib/Simulator/GameSimulatorRunner.cs:16 | A simulator for the map, with no players and no turns. |
| Simulation.GameSimulatorRunner.constructor | lib/Simulator/GameSimulatorRunner.cs:8-12 | Keeps the score calculator. |
| NamedMaps.NewNamedMap | lib/NamedMap.cs:7-14 | Fails with "Map name is empty" exactly for an empty name. Otherwise the name and the map are kept as given. |

## Left out

- The graph is not built from the map here. `ValidGraph` and `Undirected` state what the bots rely on: distinct sites, no self-loops, every river seen from both ends, and mines that are sites.
- ConnectedCalculator, MineDistCalculator, Dinic, GameSimulator and the base AI (MaxReachableVertexWithConnectedComponentsWeightAi) are not part of this model. They are the parameters `conn`, `dist`, `dinic`, a turn-counting simulator and plain values.
- Random numbers come from an oracle `rand`. Draws are numbered as follows:
  - LochDinicKiller: draw 0 picks the river to save; draws `2i+1` and `2i+2` pick the `i`-th pair.
  - LochMaxVertexKiller: draw `k` is the key of the `k`-th candidate.
- LochDinicKiller.EdgeToSave: ordering the rivers by random keys and taking the first unclaimed one is modelled as picking an unclaimed river by one draw. Only which river it can be is modelled, not its distribution.
- LochDinicKiller.SamplePair: the redraw loop for the second mine (line 72) is a single draw among the other mines. It has the same possible outcomes, but the number of draws it uses is not modelled.
- LochDinicKiller.SampleCount: `mines.Count * (mines.Count - 1)` is computed without 32-bit overflow. At most 10 samples are taken anyway.
- Graphs.SquaredDistSum and Greedy.CalcVertexScore: `long` overflow of the squared sums, and the checked `int` sum in GreedyStrategy (line 45), are not modelled. Integers are unbounded.
- Weights are `real`, not `double`. Rounding of `1.0 / flow` is not modelled.
- Text: `int.Parse` is modelled on ASCII digits, an optional sign and surrounding white space. Culture settings and other Unicode white space are not modelled.
- ConnectClosestMines.ConnectClosestMinesAi.GetNextMove: the `prevMoves` argument is unused, as in the source.
- ConnectClosestMines.ConnectClosestMinesAi.GetNextMove: exceptions are `Err` results. These are the null `Edge` dereference at line 109 and the `InvalidOperationException` at line 67.
- ConnectClosestMines.ConnectClosestMinesAi.BuildOrExtendAnything, ConnectClosestMines.UnionParsed, LochDinicKiller.LochDinicKillerStrategy.SampleCuts, SampleOnce and BlockCut: these are parts of one source method, split off so that each proof stays small.
- ConnectClosestMines.ConnectClosestMinesAi.DeserializeGameState keeps the loader as written, so an AI without mines cannot load its own state. The corrected loader `ParseStateSkippingEmpty` (see Findings) is what `SerializeGameState`'s full round trip is stated against.
- `myMines` is a `HashSet<int>` in the source. Here it is an insertion-ordered duplicate-free sequence, which is the enumeration order of a set nothing is removed from. The `Clear` in Deserialize resets it to empty.
- MineSearch.SearchMeeting and ConnectClosestMines.ConnectClosestMinesAi.TryBuildNewComponent: nearness is bounded per side. No two start mines meet with both walks shorter than the current side's walk plus the meeting edge. The total length of the joining path is not claimed minimal, because the search takes the first meeting in queue order. With start mines B, A and C, say A reaches site `a`, B reaches `bx` and then `y`, and C reaches `cz`. If `a` lists its edge to `y` before its edge to `cz`, the search links A and B by a path of 4 rivers, although A and C are 3 rivers apart.
- MineSearch.SearchMeeting: that a meeting joins the two mines end to end, so that the starts are not separated, is stated only for a graph that lists every river from both ends (`Undirected`). `ValidGraph` does not include that. Without it, a meeting means both mines reach a common site.
- LochMaxVertexKiller.LochMaxVertexWeighterKillerAi.GetNextMove: the base AI's own move, and the state its `GetNextMove` leaves it in, are parameters (`baseMove`, `baseStateAfter`); StartRound takes the base AI's futures and state after its `StartRound` the same way. The count of sites is the graph's site count.
- LochMaxVertexKiller.Sort: stability of `OrderBy` is built into the insertion sort, but only sortedness and permutation are proved.
- Simulation.GameSimulatorRunner.SimulateGame: the score calculator is called with two arguments at line 27, but the interface at lib/Scores/IScoreCalculator.cs:7 takes three and returns `long`. The model uses the two-argument form and stores a 32-bit score, as the runner does.
- Simulation.GameSimulator: the simulator's rules (legal moves, ownership updates) are not part of this model. It only counts turns up to the game's length.
- NamedMaps.NewNamedMap: a `null` name or map cannot occur in Dafny. Only the empty name is checked.
- The `Name` and `Version` properties, `Setup()` returning null, the NUnit tests and the WinForms code are not modelled.

## Findings

| source | as written | input that shows it | evidently intended | confidence | as-written member | corrected member |
|---|---|---|---|---|---|---|
| lib/ConnectClosestMinesAi.cs:212-223 | `SerializeGameState` writes `"p;"` for an AI with no connected mines; `DeserializeGameState` then splits it into `["p", ""]` and `int.Parse("")` throws | punter id 0 and no mines: the saved text is `"0;"`, which cannot be loaded | every saved state loads back, e.g. by skipping empty pieces | not executed | ConnectClosestMines.EmptyStateDoesNotRoundTrip | ConnectClosestMines.StateRoundTripSkippingEmpty |
