/** The value types of the game: session states and modes, obstacle records and
    leaderboard entries (types.ts). */
module Types {

  datatype Option<T> = None | Some(value: T)

  /** The session's top-level state (`GameState`). */
  datatype GameState = Menu | Playing | GameOver | GeneratingLevel

  /** `GameMode`: the authored level or endless play. */
  datatype GameMode = Normal | Infinite

  /** `PlayerMode`: how the player body moves. */
  datatype PlayerMode = Cube | Rocket

  /** `ObstacleType`: the closed set of obstacle tags. */
  datatype ObstacleType =
    | Spike
    | Block
    | FloorGap
    | Coin
    | FireRing
    | RocketPickup
    | SpinningBlade
    | MovingSpike
    | MovingPlatform

  /** The kinds whose vertical position oscillates around `initialY`. */
  predicate Oscillates(k: ObstacleType) {
    k.SpinningBlade? || k.MovingSpike? || k.MovingPlatform?
  }

  /** An obstacle record. `initialY` is the base of oscillation; `passed` and
      `collected` are the optional once-only flags for pass scoring and coin
      collection. The field `type` of the record is called `kind` here. */
  datatype Obstacle = Obstacle(
    x: real,
    y: real,
    initialY: Option<real>,
    width: real,
    height: real,
    kind: ObstacleType,
    passed: Option<bool>,
    collected: Option<bool>)

  /** An obstacle written without `initialY`, `passed` or `collected`. */
  function Fixed(x: real, y: real, width: real, height: real, kind: ObstacleType): Obstacle {
    Obstacle(x, y, None, width, height, kind, None, None)
  }

  /** An obstacle written with `initialY` equal to its `y`. */
  function Swinging(x: real, y: real, width: real, height: real, kind: ObstacleType): Obstacle {
    Obstacle(x, y, Some(y), width, height, kind, None, None)
  }

  /** A leaderboard record; `avatarBase64` is optional. */
  datatype LeaderboardEntry = LeaderboardEntry(
    name: string,
    score: int,
    avatarBase64: Option<string>,
    timestamp: int)

  predicate Distinct<T(==)>(s: seq<T>) {
    forall i, j :: 0 <= i < j < |s| ==> s[i] != s[j]
  }

  /** Every game state, each once. */
  function AllGameStates(): (r: seq<GameState>)
    ensures |r| == 4 && Distinct(r)
  {
    [Menu, Playing, GameOver, GeneratingLevel]
  }

  /** Every game mode, each once. */
  function AllGameModes(): (r: seq<GameMode>)
    ensures |r| == 2 && Distinct(r)
  {
    [Normal, Infinite]
  }

  /** Every player mode, each once. */
  function AllPlayerModes(): (r: seq<PlayerMode>)
    ensures |r| == 2 && Distinct(r)
  {
    [Cube, Rocket]
  }

  /** Every obstacle tag, each once: a case split over these nine is exhaustive. */
  function AllObstacleTypes(): (r: seq<ObstacleType>)
    ensures |r| == 9 && Distinct(r)
    ensures forall i :: 0 <= i < |r| ==> (Oscillates(r[i]) <==> 6 <= i)
  {
    [Spike, Block, FloorGap, Coin, FireRing, RocketPickup, SpinningBlade, MovingSpike, MovingPlatform]
  }

  /** `GameState` has no value outside its four constructors. */
  lemma GameStateClosed(g: GameState)
    ensures g in AllGameStates()
  {
  }

  lemma GameModeClosed(m: GameMode)
    ensures m in AllGameModes()
  {
  }

  lemma PlayerModeClosed(m: PlayerMode)
    ensures m in AllPlayerModes()
  {
  }

  /** `ObstacleType` has no value outside its nine constructors. */
  lemma ObstacleTypeClosed(k: ObstacleType)
    ensures k in AllObstacleTypes()
  {
  }
}
