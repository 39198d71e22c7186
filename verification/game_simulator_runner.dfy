/** Playing one game to the end and scoring every seat. The simulator that
    applies the moves is not part of this model: it is represented by a
    game that is over once a given number of turns has been played (in the
    contest rules, one turn per river of the map). Scores come from a score
    calculator given to the runner. */
module Simulation {
  import opened Common
  import opened Graphs

  /** A seat's result: its player and its score, fixed at construction. */
  datatype GameSimulationResult<G> = GameSimulationResult(gamer: G, score: Int32)

  /** The simulator as the runner sees it: the players of the game, the
      number of turns played so far, and whether the game is over. */
  class GameSimulator<G> {
    const gameMap: GameMap
    /** The number of turns the game lasts. */
    const length: nat
    var gamers: seq<G>
    var turns: nat

    constructor(gameMap: GameMap, length: nat)
      ensures this.gameMap == gameMap && this.length == length && gamers == [] && turns == 0
    {
      this.gameMap := gameMap;
      this.length := length;
      gamers := [];
      turns := 0;
    }

    /** Seats the players; no turn has been played. */
    method StartGame(gamers: seq<G>)
      modifies this
      ensures this.gamers == gamers && turns == 0
    {
      this.gamers := gamers;
      turns := 0;
    }

    predicate IsGameOver()
      reads this
    {
      turns >= length
    }

    /** Plays one turn and reports whether the game is over after it. */
    method NextMove() returns (over: bool)
      modifies this
      ensures turns == old(turns) + 1 && gamers == old(gamers)
      ensures over <==> IsGameOver()
    {
      turns := turns + 1;
      over := IsGameOver();
    }
  }

  /** The number of turns the runner has the simulator play: at least one,
      and then until the game is over. */
  function TurnsPlayed(length: nat): (n: nat)
    ensures n >= 1 && n >= length
    ensures length >= 1 ==> n == length
  {
    if length == 0 then 1 else length
  }

  class GameSimulatorRunner {
    /** The score of the seat with the given index on a map. */
    const scoreCalculator: (nat, GameMap) -> Int32

    constructor(scoreCalculator: (nat, GameMap) -> Int32)
      ensures this.scoreCalculator == scoreCalculator
    {
      this.scoreCalculator := scoreCalculator;
    }

    /** Plays the game on `gameMap` with `gamers` to the end, then gives one
        result per seat, in seat order, each with the score of that seat
        index on `gameMap`. `turns` is how many times the simulator was
        stepped. */
    method SimulateGame<G>(gamers: seq<G>, gameMap: GameMap, length: nat)
      returns (results: seq<GameSimulationResult<G>>, ghost turns: nat)
      ensures turns == TurnsPlayed(length)
      ensures |results| == |gamers|
      ensures forall i :: 0 <= i < |gamers| ==> results[i].gamer == gamers[i] && results[i].score == scoreCalculator(i, gameMap)
    {
      var simulator := new GameSimulator<G>(gameMap, length);
      simulator.StartGame(gamers);
      var over := simulator.NextMove();
      while !over
        invariant 1 <= simulator.turns <= TurnsPlayed(length)
        invariant over <==> simulator.IsGameOver()
        invariant simulator.length == length
        decreases length - simulator.turns
      {
        over := simulator.NextMove();
      }
      turns := simulator.turns;

      results := [];
      for i := 0 to |gamers|
        invariant |results| == i
        invariant forall k :: 0 <= k < i ==> results[k] == GameSimulationResult(gamers[k], scoreCalculator(k, gameMap))
      {
        results := results + [GameSimulationResult(gamers[i], scoreCalculator(i, gameMap))];
      }
    }
  }
}
