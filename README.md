# Personified-Dash core in Dafny

This project models the game logic of Personified-Dash, a browser runner game, that can be read without its physics engine:

- **Value types** (`types.dfy`, module `Types`). These are the session states, game and player modes, the nine obstacle tags, obstacle records and leaderboard entries.
- **Authored level** (`constants.dfy`, module `Constants`). This is `DEFAULT_LEVEL_OBSTACLES` with the sizes it uses. Lemmas prove that it is well formed. They also prove where it breaks x order.
- **Procedural generator** (`generator.dfy`, module `Generator`). This is `generateProceduralChunk`, written as an imperative method with the source's loop and its if/else chain.
  - Each `Math.random()` call reads the next number of an injected sequence of draws, in source order: band draw, gap draw, then the branch's own draws.
  - The method is proved equal to a specification function over beats (`Run`, `Step`, `Beat`).
  - Lemmas about that function cover output length, shapes, pickup/ring pairing, cursor bounds, ordering between beats and inside a beat, draw consumption, and which pattern bands can be reached.
- **Leaderboard update** (`leaderboard.dfy`, module `Leaderboard`). The update appends an entry, sorts by descending score and keeps the first twenty.
  - The engine's stable `Array.prototype.sort` is modelled by a reference stable insertion sort (`SortByScore`).
  - That sort is proved sorted, a permutation, and stable for each score.
- **Session** (`session.dfy`, module `GameSession`). This covers the game-over branch of `App`'s state effect, `handleStart` and `handleRestart`.
  - They are modelled both as transition functions on a `Session` value and as the class `GameSession.App`. The class's fields are updated in place by methods specified by those functions.

## Model

| member | source | states |
|---|---|---|
| Types.AllGameStates | types.ts:2-7 | exactly four game states, pairwise distinct |
| Types.GameStateClosed | types.ts:2-7 | every game state is one of those four |
| Types.AllGameModes | types.ts:9 | exactly two game modes, distinct |
| Types.GameModeClosed | types.ts:9 | every game mode is NORMAL or INFINITE |
| Types.AllPlayerModes | types.ts:11 | exactly two player modes, distinct |
| Types.PlayerModeClosed | types.ts:11 | every player mode is CUBE or ROCKET |
| Types.AllObstacleTypes | types.ts:13-23 | nine distinct obstacle tags; exactly the last three (blade, moving spike, moving platform) oscillate |
| Types.ObstacleTypeClosed | types.ts:13-23 | every obstacle tag is one of the nine, so a case split over them is exhaustive |
| Constants.DefaultLevelWellFormed | constants.ts:127-213 | the authored level has 58 entries; each has a positive width and height, carries `initialY` exactly when its kind oscillates, with `initialY == y`, and has no `passed`/`collected` flag |
| Constants.DefaultLevelOrder | constants.ts:127-213 | entry 10 is the coin at 3350 and entry 11 the rocket pickup at 3250, so the level is not in x order; before and after that point x strictly increases |
| Constants.HeadIncreasing | constants.ts:128-141 | the intro and rhythm sections strictly increase in x |
| Constants.RestIncreasing | constants.ts:143-211 | everything from the ring intro to the end strictly increases in x |
| Generator.BeatGap | constants.ts:60-63 | for a draw in [0, 1) the cursor advances by at least 315 and less than 495 |
| Generator.Beat | constants.ts:59-121 | one beat reads 2 to 4 draws and emits 1 to 4 obstacles |
| Generator.SelectPattern | constants.ts:66-121 | for a draw in [0, 1) the pattern chosen is one whose probability band holds the draw |
| Generator.Step | constants.ts:59-121 | one loop iteration reads 2 to 4 more draws and records exactly one more beat |
| Generator.Run | constants.ts:58-122 | after n beats, n beats are recorded and between 2n and 4n draws were read |
| Generator.Chunk | constants.ts:53-58 | a count of zero or less runs no beat and leaves the cursor at the start; a positive count records exactly count beats |
| Generator.GenerateProceduralChunk | constants.ts:53-124 | the loop's output equals the specification's chunk; a count of zero or less gives no obstacles; otherwise between count and 4*count obstacles; every obstacle has the generated shape; every rocket pickup is followed by its fire ring |
| Generator.PushBeat | constants.ts:59-121 | one loop iteration appends exactly the obstacles of the beat, moves the cursor to the beat's next position and advances the draw index by the draws the beat used |
| Generator.RunFacts | constants.ts:58-123 | the obstacles of n beats number between n and 4n, all have the generated shape, and pickups are paired |
| Generator.BeatShapes | constants.ts:66-121 | every generated obstacle has a positive box, is never a moving platform or floor gap, has `initialY == y` exactly on oscillating kinds, and has no flag set |
| Generator.BeatPaired | constants.ts:81-87 | every generated rocket pickup is immediately followed by a fire ring 350 further on |
| Generator.SelectPatternMatchesBands | constants.ts:66-121 | for a draw in [0, 1), the source's ordered tests choose exactly the pattern whose probability band holds the draw |
| Generator.CoinPathUnreachable | constants.ts:117-121 | no draw selects the coin-path branch |
| Generator.OtherPatternsReachable | constants.ts:66-116 | each of the other seven patterns is chosen by some draw in [0, 1) |
| Generator.BeatDraws | constants.ts:59-108 | a beat lays down the pattern its first draw selects; it reads 4 draws for a blade, 3 for a block, 2 otherwise |
| Generator.BeatBounds | constants.ts:60-109 | a beat sits 315 to 495 past the cursor; the next cursor is the beat's position, or 450 further after a fire-ring pair; the beat's obstacles lie between its position and the next cursor plus 250 |
| Generator.RunOrdered | constants.ts:58-122 | every obstacle of a later beat lies strictly after every obstacle of an earlier beat; the cursor moves at least 315 per beat |
| Generator.BeatOrderWithin | constants.ts:88-121 | inside a beat x never decreases, except in the triple-spike beat, whose coin is 30 before the preceding spike |
| Generator.FlattenNonDecreasing | constants.ts:58-123 | ordered beats, each in x order, give a chunk in x order |
| Generator.RunBeatAt | constants.ts:58-122 | the i-th recorded beat is the beat laid down from the cursor and draws left after i iterations |
| Generator.ChunkOrderedWithoutTripleSpike | constants.ts:58-123 | when no iteration selects the triple-spike pattern, the whole chunk is in x order |
| Generator.TripleSpikeChunkOutOfOrder | constants.ts:111-116 | a one-beat chunk with band draw 0.7 puts a spike at 375 before a coin at 345, so chunks are not in x order |
| Leaderboard.InsertByScore | App.tsx:84 | inserting an entry adds exactly that entry, as a multiset |
| Leaderboard.SortByScore | App.tsx:84 | the sort is a permutation of its input |
| Leaderboard.SortSorted | App.tsx:84 | the sort yields non-increasing scores |
| Leaderboard.SortStable | App.tsx:84 | entries of equal score keep their relative order |
| Leaderboard.SortCount | App.tsx:84 | sorting preserves how many entries reach any score |
| Leaderboard.InsertAt | App.tsx:82-84 | in a sorted board, the appended entry lands right after every entry that scores at least as much |
| Leaderboard.UpdateLeaderboard | App.tsx:81-89 | the new board is sorted, has min(old size + 1, 20) entries, is drawn from the old entries plus the new one, and holds all of them when the old board had fewer than 20 |
| Leaderboard.EntryPlacement | App.tsx:82-86 | with c old entries scoring at least the new score, the new entry is at index c if c < 20; otherwise the board is the old entries' top twenty |
| Leaderboard.UpdateKeepsTop | App.tsx:84-86 | every entry cut off scores no more than any entry kept |
| GameSession.RecordScore | App.tsx:95 | the saved score is at least the run's score and the prior best, and equals one of them |
| GameSession.EntryName | App.tsx:75 | the entry name is never empty: the player's name when it is non-empty, else "Anonymous" |
| GameSession.GameOverEffect | App.tsx:63-98 | the best becomes max(score, best); for a positive score the board is updated with the new entry, otherwise unchanged; the record saves the typed name, the max and the dedication; nothing else changes |
| GameSession.StateEffect | App.tsx:58-103 | in game over the effect is the game-over branch; outside it the state is unchanged and nothing is saved; the game state itself never changes |
| GameSession.NewEntry | App.tsx:74-79 | the new entry carries the run's score and avatar and the given time, under a non-empty name that is the player's name when one is typed |
| GameSession.Start | App.tsx:105-112 | start gives PLAYING, NORMAL, score 0, the authored level and base speed, and keeps best, board, name, dedication and avatar |
| GameSession.Restart | App.tsx:114-117 | restart gives MENU and changes nothing else |
| GameSession.InitialSession | App.tsx:10-25 | the component starts in MENU with score 0, best 0 and an empty board, a consistent state |
| GameSession.EffectConsistent | App.tsx:63-98 | the effect keeps the board sorted and within 20, with named entries of positive score at most the best |
| GameSession.HandlersConsistent | App.tsx:105-117 | start and restart keep that consistency |
| GameSession.BestNeverDecreases | App.tsx:68-95 | the best never decreases, after game over it is at least the score, and the saved record shows the new best |
| GameSession.NoScoreNoEntry | App.tsx:73 | a run scoring 0 or less leaves the board unchanged |
| GameSession.GameOverAddsEntryOnce | App.tsx:73-89 | one game over with a positive score gives a valid board that gains exactly the run's entry when there is room, and keeps the entry whenever fewer than 20 entries score at least as much |
| GameSession.StartForgetsRun | App.tsx:105-112 | two states that agree on best, board, name, dedication and avatar start identical runs |
| GameSession.HandlersSettle | App.tsx:58-117 | restart then start equals start; the effect changes nothing right after start or restart |
| GameSession.FirstRunScenario | App.tsx:10-98 | a fresh session's first game over at 500 leaves the board holding exactly that entry, with best 500 and the record saved |
| GameSession.RunBelowBestScenario | App.tsx:68-95 | a run of 100 under a best of 200 keeps 200, still enters the board when there is room, and saves 200 |
| GameSession.GameOverAsWritten | App.tsx:103 | the effect as declared, re-run after it raises the best, leaves the same best as a single run |
| GameSession.NewBestDuplicatesEntry | App.tsx:68-103 | with the effect as declared, a new positive best adds two entries for one run when there is room |
| GameSession.DuplicateEntryExample | App.tsx:103 | a fresh session's first run of 500 ends with the same entry on the board twice |
| GameSession.App.constructor | App.tsx:10-25 | the fields start at the hooks' initial values, which form a consistent state |
| GameSession.App.HandleStart | App.tsx:105-112 | the fields after the call are `Start` of the fields before |
| GameSession.App.HandleRestart | App.tsx:114-117 | the fields after the call are `Restart` of the fields before |
| GameSession.App.RunStateEffect | App.tsx:58-103 | the fields and the saved record are those of one `StateEffect` run on the fields before |

Two facts about the code that a reader might not expect:
- The if/else chain has eight branches, but the final coin-path branch (constants.ts:117-121) is never taken, since the earlier tests cover every draw (`CoinPathUnreachable`).
- Generated and authored obstacles are not in x order: the triple-spike beat pushes its coin behind its third spike (`TripleSpikeChunkOutOfOrder`), and the authored level lists the coin at 3350 before the pickup at 3250 (`DefaultLevelOrder`). Without the triple-spike pattern a chunk is in x order (`ChunkOrderedWithoutTripleSpike`).

## Left out

- Physics, collision, oscillation, pass scoring, coin collection and speed escalation live in `components/GameCanvas`. components/GameCanvas is not part of this model. So are `GRAVITY`, `JUMP_FORCE`, `TERMINAL_VELOCITY`, the speed-progression constants and `CHUNK_SIZE`, since no shown code uses them.
- Audio calls are foreign side effects: `initAudio`, `startMusic`, `stopMusic`, `playGameOverAlarm` and `stopGameOverAlarm`. The PLAYING and MENU branches of the effect only make such calls, so they leave the state unchanged here.
- Storage and JSON are left out: the load effect (App.tsx:28-55) and the `localStorage` writes. The saved personal record is returned as a value, and the saved leaderboard is the new board.
- File uploads (App.tsx:119-146), and with them `songName` and `avatarSrc`, are browser I/O. `avatarBase64` is kept as plain state.
- `Date.now()` is a clock. It is the `now` parameter.
- `Math.random()` is the `draws` sequence. Its distribution is not modelled, so the frequencies of the bands are not stated. Properties are stated for every draw sequence, or for every sequence of draws in [0, 1).
- Generator.GenerateProceduralChunk: requires at least `4 * count` draws, the most a chunk can read. A shorter sequence is not modelled.
- Generator.GenerateProceduralChunk: a non-integer `count` is not modelled. `count` is an integer.
- IEEE floating point: obstacle coordinates, the density factor and the draws are exact reals. Rounding is not modelled.
- Leaderboard.SortByScore: `updated.sort(...)` sorts a copy in place inside the engine. It is modelled as a value function with the properties of a stable sort, not as an in-place array algorithm.
- Scores and timestamps are unbounded integers. The comparator's subtraction cannot overflow in this model.
- Rendering: JSX, `COLORS`, the canvas, player and floor dimensions, and the types `Particle`, `Shard` and `LevelData`.
- React scheduling: the setters are applied at once, in the order the effect calls them. Re-runs of the effect are modelled only by `GameOverAsWritten`, for the dependency named in the finding below.
- `handleStart` passes a shallow copy of the authored level. With value semantics the copy equals the original, and aliasing of the records is not modelled.

## Findings

| source | as written | input that shows it | evidently intended | confidence | as-written member | corrected member |
|---|---|---|---|---|---|---|
| App.tsx:103 | The state effect lists `highScore` among its dependencies. When the GAME_OVER branch raises the best (App.tsx:68-70), the effect runs again while the state is still GAME_OVER. The score is still positive, so a second entry for the same run goes on the leaderboard (App.tsx:73-89). | A fresh session whose first run ends at 500 with best 0 gets two entries for the same run (same name, score and avatar) instead of one. | One leaderboard entry per game over: a single effect run per game over, whose board gains exactly the run's entry (GameSession.GameOverAddsEntryOnce) | medium, not executed | GameSession.NewBestDuplicatesEntry | GameSession.StateEffect |
