# Misère subtraction game (Nim) — Dafny model

This project models the engine of a one-pile misère Nim web service. A pile
holds tokens; each turn removes between 1 and `maxNimCount` of them; whoever
takes the last token loses. A human player moves through the service and an
automated computer opponent answers at once, using a pluggable strategy.

Three modules follow the source's structure:

- `Strategies` (`strategies.dfy`): the `NimStrategy` interface as the tagged
  datatype `Strategy`, the win-oriented formula `WinOrientedMove` and the
  clamped random draw `RandomMove`. Kotlin's truncating `%` is written out as
  `Rem`. The random generator becomes a parameter `draw`, and `ValidDraw`
  states the generator's contract: `Random.nextInt(1, max)` throws unless
  `max > 1`, and otherwise returns a value in `[1, max)`. When a strategy
  throws (division by zero at `maxNimCount == -1`, or an empty draw range),
  `CalculateMove` returns `None`.
- `Game` (`game.dfy`): the class `NimGame`, holding the same mutable fields as
  the source. Every method's postcondition ties the new value of its fields
  (`State()`, a `GameState`) to a function of the old value: `ApplyMove` for
  the private `takeTurn`, `PlayerMove`, `ComputerMove` and `ResetState`.
  Thrown exceptions become the `Err` side of `Result`: `IllegalMove` (with the
  check that failed), `WrongTurn`, or `StrategyFailure`. The rules of the game
  are proved as lemmas about these functions.
- `Service` (`service.dfy`): the class `NimService`, which owns one `NimGame`
  and a store holding at most one `NimPersistence` record
  (`Option<NimPersistence>`). `ServiceTurn` specifies a `takePlayerTurn`
  request: the player's move, then the computer's reply only if the game is
  still going. It also proves that the win-oriented strategy never lets the
  player win from a pile that is 1 modulo `maxNimCount + 1`. The default game
  (13 tokens, at most 3) starts in such a position.

Notes on the source's behaviour that the model keeps:

- The engine does re-check the strategy's count, because `takeComputerTurn`
  goes through `takeTurn`.
- The random strategy fails (throws) when `maxNimCount` is 1, so the "legal
  move for every max ≥ 1" contract holds only for the win-oriented strategy.
  The random one is legal only when its draw range is non-empty.
- In `takePlayerTurn`, a reply that throws leaves the player's move applied
  in memory but not persisted.

## Model

| member | source | states |
|---|---|---|
| `Strategies.Rem` | src/main/kotlin/de/bennet_krause/nim/game/strategy/WinOrientedStrategy.kt:21 | Kotlin's `%`: agrees with the Euclidean remainder on a non-negative dividend and positive divisor; has the dividend's sign and is smaller in magnitude than the divisor |
| `Strategies.WinOrientedMove` | src/main/kotlin/de/bennet_krause/nim/game/strategy/WinOrientedStrategy.kt:19-24 | with a pile ≥ 1 and max ≥ 1 the move is between 1 and min(pile, max); on a pile ≤ 0 it returns the pile itself (0 on an empty pile), which no rule accepts |
| `Strategies.WinOrientedInner` | src/main/kotlin/de/bennet_krause/nim/game/strategy/WinOrientedStrategy.kt:21 | for a non-negative pile the inner expression equals (pile + max) mod (max + 1), which equals (pile − 1) mod (max + 1) |
| `Strategies.WinOrientedReachesLosingResidue` | src/main/kotlin/de/bennet_krause/nim/game/strategy/WinOrientedStrategy.kt:21-23 | when the pile is not 1 mod (max + 1), the pile left after the move is 1 mod (max + 1) |
| `Strategies.WinOrientedTakesOneWhenLosing` | src/main/kotlin/de/bennet_krause/nim/game/strategy/WinOrientedStrategy.kt:21-23 | when the pile is already 1 mod (max + 1), the move is exactly 1 |
| `Strategies.WinOrientedExamples` | src/main/kotlin/de/bennet_krause/nim/game/strategy/WinOrientedStrategy.kt:19-24 | worked values: pile 10 / max 3 gives 1, pile 1 gives 1, pile 13 gives 1, pile 11 gives 2, pile 0 gives 0 |
| `Strategies.RandomMove` | src/main/kotlin/de/bennet_krause/nim/game/strategy/RandomStrategy.kt:18-20 | with a draw from [1, max) the move is min(pile, draw): it never exceeds the pile or the draw, is at most max − 1 (so never max), is ≥ 1 on a non-empty pile, and is the draw or the pile |
| `Strategies.CalculateMove` | src/main/kotlin/de/bennet_krause/nim/game/strategy/NimStrategy.kt:6-14 | the interface: it fails exactly when the win-oriented division is by zero or the random range is empty; any move it does return on a pile ≥ 1 with max ≥ 1 lies in [1, min(pile, max)]; a random move never equals max |
| `Strategies.StrategyProposesLegalMove` | src/main/kotlin/de/bennet_krause/nim/game/strategy/NimStrategy.kt:8-13 | strategy contract: on a pile ≥ 1 with max ≥ 1 (and, for the random strategy, a non-empty draw range) a move is proposed and lies in [1, min(pile, max)] |
| `Game.NewGame` | src/main/kotlin/de/bennet_krause/nim/game/NimGame.kt:10-40 | the state of a newly constructed game, which `Game.NimGame.constructor` ensures; `Game.ResetState` returns it for the current configuration |
| `Game.StatusOf` | src/main/kotlin/de/bennet_krause/nim/game/NimGame.kt:119-131 | the status of a state; `Game.NimGame.CheckGameStatus` ensures its three iff's, and `Game.FinishedIffNoMove` proves the game is over iff no move is legal |
| `Game.ApplyMove` | src/main/kotlin/de/bennet_krause/nim/game/NimGame.kt:93-112 | a move is accepted iff 1 ≤ n ≤ max and n ≤ pile; a rejection reports which check failed (out of range first, then exceeding the pile) and carries no new state; an accepted move subtracts n, flips the turn, changes nothing else and leaves a pile ≥ 0 and smaller than before |
| `Game.PlayerMove` | src/main/kotlin/de/bennet_krause/nim/game/NimGame.kt:51-62 | on the computer's turn it fails with WrongTurn; on the player's turn it is exactly `ApplyMove`, so a bad count fails with IllegalMove and its reason; it is accepted iff it is the player's turn and the move is legal; an accepted move takes n tokens, hands the turn to the computer, and keeps lastComputerMove and the configuration |
| `Game.ComputerMove` | src/main/kotlin/de/bennet_krause/nim/game/NimGame.kt:71-86 | on the player's turn it fails with WrongTurn; otherwise the count is the strategy's `CalculateMove` proposal: a failing strategy gives StrategyFailure, the proposal is accepted iff it is a legal move, a rejected one fails with its `ApplyMove` error, and an accepted one is recorded as lastComputerMove; when accepted, the turn returns to the player, lastComputerMove records the count taken (between 1 and max), the pile drops by that count and stays ≥ 0; with the win-oriented strategy on a pile ≥ 1 and max ≥ 1 it is always accepted |
| `Game.ResetState` | src/main/kotlin/de/bennet_krause/nim/game/NimGame.kt:145-149 | gives the new-game state for the current configuration: pile = initialPileSize, player's turn, lastComputerMove 0, configuration untouched |
| `Game.NimGame.constructor` | src/main/kotlin/de/bennet_krause/nim/game/NimGame.kt:10-40 | a new game holds the given configuration, a full pile, the player's turn, no computer move, and the win-oriented strategy |
| `Game.NimGame.CheckGameStatus` | src/main/kotlin/de/bennet_krause/nim/game/NimGame.kt:119-131 | read-only; PLAYER_WON iff the pile is empty on the player's turn, COMPUTER_WON iff it is empty on the computer's turn, ONGOING iff the pile is not empty |
| `Game.NimGame.TakePlayerTurn` | src/main/kotlin/de/bennet_krause/nim/game/NimGame.kt:51-62 | the fields move as `PlayerMove` says when it is accepted and stay unchanged when it is rejected; returns the status after the move or the error |
| `Game.NimGame.TakeComputerTurn` | src/main/kotlin/de/bennet_krause/nim/game/NimGame.kt:71-86 | the fields move as `ComputerMove` says; lastComputerMove is written only after the move was accepted; a rejected or failing strategy count changes no field |
| `Game.NimGame.TakeTurn` | src/main/kotlin/de/bennet_krause/nim/game/NimGame.kt:93-112 | every check runs before any field changes: the fields move as `ApplyMove` says, or not at all |
| `Game.NimGame.SetState` | src/main/kotlin/de/bennet_krause/nim/game/NimGame.kt:136-140 | overwrites the turn, the pile and the last computer move, and nothing else |
| `Game.NimGame.Reset` | src/main/kotlin/de/bennet_krause/nim/game/NimGame.kt:145-149 | the fields become `ResetState` of the old ones; the configuration and the strategy stay |
| `Game.FinishedIffNoMove` | src/main/kotlin/de/bennet_krause/nim/game/NimGame.kt:119-131 | on a non-negative pile with max ≥ 1: the game is over iff no count is a legal move, and an ongoing game accepts a move of 1 |
| `Game.FinishedIsFinal` | src/main/kotlin/de/bennet_krause/nim/game/Status.kt:15-23 | once PLAYER_WON or COMPUTER_WON, every player move and every computer move is rejected |
| `Game.TurnsAlternate` | src/main/kotlin/de/bennet_krause/nim/game/NimGame.kt:51-112 | in any one state at most one side may move; after an accepted player move the computer is not refused for the wrong turn and the player is; after an accepted computer move the player is not refused for the wrong turn and the computer is |
| `Game.TurnsKeepBounds` | src/main/kotlin/de/bennet_krause/nim/game/NimGame.kt:101-106 | 0 ≤ pile ≤ initialPileSize is preserved by both kinds of turn and re-established by reset |
| `Game.ResetIdempotent` | src/main/kotlin/de/bennet_krause/nim/game/NimGame.kt:145-149 | resetting twice equals resetting once; after a reset with a non-empty initial pile the game is ONGOING |
| `Game.GameExamples` | src/test/kotlin/de/bennet_krause/nim/game/NimGameTest.kt:33-202 | the default game: counts 0, −3 and 4 are out of range, 3 leaves a pile of 10, 3 from a pile of 2 is too many, taking all 3 loses, taking 2 of 3 wins after the computer's forced 1 |
| `Service.Snapshot` | src/main/kotlin/de/bennet_krause/nim/service/NimService.kt:101-118 | persistGame copies each of the five game fields into the record |
| `Service.Restore` | src/main/kotlin/de/bennet_krause/nim/service/NimService.kt:36-50 | the game `init` builds; `Service.SnapshotRoundTrip` proves it inverts `Snapshot` in both directions, and `Service.DefaultGame` gives it without a record |
| `Service.StateOf` | src/main/kotlin/de/bennet_krause/nim/service/NimService.kt:57-64 | the client's view of a state, with the status `Game.StatusOf` gives; `Service.NimService.CurrentState` ensures it agrees with `checkGameStatus()` |
| `Service.ServiceTurn` | src/main/kotlin/de/bennet_krause/nim/service/NimService.kt:71-81 | one takePlayerTurn request: the player's move, then the reply only while the game goes on; its properties are `Service.RejectedMoveChangesNothing`, `Service.FinishingMoveGetsNoReply`, `Service.OngoingMoveGetsReply` and `Service.ServiceTurnShrinksPile` |
| `Service.Configure` | src/main/kotlin/de/bennet_krause/nim/service/NimService.kt:95-99 | only initialPileSize and maxNimCount take the configured values; pile, turn and last move stay |
| `Service.NimService.constructor` | src/main/kotlin/de/bennet_krause/nim/service/NimService.kt:36-50 | the game is restored from the stored record if there is one, else it is the default game; the strategy is win-oriented |
| `Service.NimService.CurrentState` | src/main/kotlin/de/bennet_krause/nim/service/NimService.kt:57-64 | read-only; reports the pile, maxNimCount and lastComputerMove, and the status `checkGameStatus()` gives: PLAYER_WON iff the pile is empty on the player's turn, COMPUTER_WON iff it is empty on the computer's turn, ONGOING iff it is not empty |
| `Service.NimService.TakePlayerTurn` | src/main/kotlin/de/bennet_krause/nim/service/NimService.kt:71-81 | the game becomes what `ServiceTurn` says; a completed request is persisted and answered with the new state; an error is passed on and the store is left as it was |
| `Service.NimService.ResetGame` | src/main/kotlin/de/bennet_krause/nim/service/NimService.kt:86-90 | resets the game, persists it and returns its state |
| `Service.NimService.ConfigureGame` | src/main/kotlin/de/bennet_krause/nim/service/NimService.kt:95-99 | writes the two configuration fields of the game, and nothing else, then persists |
| `Service.NimService.PersistGame` | src/main/kotlin/de/bennet_krause/nim/service/NimService.kt:101-118 | the store afterwards holds exactly the snapshot of the game, whatever it held before |
| `Service.SnapshotRoundTrip` | src/main/kotlin/de/bennet_krause/nim/service/NimService.kt:36-118 | restoring the persisted snapshot reproduces all five fields, and persisting a restored record writes the same record |
| `Service.DefaultGame` | src/main/kotlin/de/bennet_krause/nim/service/NimService.kt:45-49 | with no record: pile 13, max 3, player's turn, last move 0, state (13, ONGOING, 3, 0) |
| `Service.RejectedMoveChangesNothing` | src/main/kotlin/de/bennet_krause/nim/service/NimService.kt:71-78 | a player move refused by the rules fails the request with the game's error and leaves the game unchanged (and so, by `TakePlayerTurn`, the store) |
| `Service.FinishingMoveGetsNoReply` | src/main/kotlin/de/bennet_krause/nim/service/NimService.kt:73-77 | a player move that empties the pile completes with no computer reply: COMPUTER_WON, lastComputerMove unchanged |
| `Service.OngoingMoveGetsReply` | src/main/kotlin/de/bennet_krause/nim/service/NimService.kt:73-80 | a legal player move that leaves tokens is answered, after which it is the player's turn, lastComputerMove ≥ 1 and the pile has dropped by both moves; it fails iff the random strategy runs with max 1, and then the player's move stays applied |
| `Service.ServiceTurnShrinksPile` | src/main/kotlin/de/bennet_krause/nim/service/NimService.kt:71-81 | a request never grows the pile, strictly shrinks it when it completes, and never changes the configuration |
| `Service.ConfigureTakesEffectOnReset` | src/main/kotlin/de/bennet_krause/nim/service/NimService.kt:86-99 | for any configuration, configuring changes only the reported maxNimCount; with a new initialPileSize ≥ 1 the next reset reports (initialPileSize, ONGOING, maxNimCount, 0) for the new values |
| `Service.MoveLeavesLosingResidue` | src/main/kotlin/de/bennet_krause/nim/game/strategy/WinOrientedStrategy.kt:8 | from a pile that is 1 mod (max + 1), every legal move that does not empty the pile leaves a pile that is not 1 mod (max + 1) |
| `Service.ReplyRestoresLosingResidue` | src/main/kotlin/de/bennet_krause/nim/game/strategy/WinOrientedStrategy.kt:8-23 | after any legal, non-emptying player move from a pile that is 1 mod (max + 1), the win-oriented reply takes at least 1 token but not the whole pile and leaves a pile that is again 1 mod (max + 1) |
| `Service.WinOrientedKeepsPlayerLosing` | src/main/kotlin/de/bennet_krause/nim/game/strategy/WinOrientedStrategy.kt:8-23 | from a position lost for the player, one request answered by the win-oriented strategy ends in COMPUTER_WON or in another lost position |
| `Service.ComputerWonIsFinal` | src/main/kotlin/de/bennet_krause/nim/game/Status.kt:20-23 | once COMPUTER_WON, every request fails with WrongTurn and leaves the game as it is |
| `Service.PlayerNeverWinsFromLosingPosition` | src/main/kotlin/de/bennet_krause/nim/game/strategy/WinOrientedStrategy.kt:8-23 | for any sequence of takePlayerTurn requests (no configureGame or resetGame in between) from a lost position, the player stays lost or the computer has won; never PLAYER_WON |
| `Service.DefaultGameIsNeverWonByPlayer` | src/main/kotlin/de/bennet_krause/nim/game/NimGame.kt:21-28 | in the default game (13, 3, win-oriented) no sequence of takePlayerTurn requests reaches PLAYER_WON |
| `Service.PlayNeverGrowsPile` | src/main/kotlin/de/bennet_krause/nim/game/NimGame.kt:101-106 | over any sequence of takePlayerTurn requests the pile never increases |
| `Service.ServiceExamples` | src/test/kotlin/de/bennet_krause/nim/NimIntegrationTests.kt:42-92 | default game, player takes 3, win-oriented reply takes 1: (9, ONGOING, 3, 1); configure (10, 5) then reset: (10, ONGOING, 5, 0) |

## Left out

- 32-bit `Int` arithmetic: integers are unbounded, so nothing wraps. In the source `maxNimCount + 1` wraps at `Int.MAX_VALUE`, and the win-oriented sum `(pile % (max + 1)) + max` wraps to a negative value when `pile % (max + 1) > Int.MAX_VALUE - max`, which needs both a large `max` and a pile whose residue is large. The source then takes 1 token, where the model takes (pile − 1) mod (max + 1), capped at the pile. Every subtraction the source performs stays in range, because an accepted count is at most the pile.
- The random number generator: `draw` is an input constrained by `ValidDraw`; nothing is claimed about its distribution.
- `Game.ComputerMove`, `Game.NimGame.TakeComputerTurn` and `Service.NimService.TakePlayerTurn` require a draw in `[1, maxNimCount)` only when the random strategy is in use and its range is non-empty. That is the generator's own guarantee, not a demand of the engine.
- Strategy exceptions are one error kind, `StrategyFailure`. The model does not separate Kotlin's `ArithmeticException` from its `IllegalArgumentException`.
- The `IllegalMove` message texts: only which check failed is kept.
- Logging in `NimGame.takeTurn` and in the service.
- The HTTP controller, the exception handler, the application and configuration wiring: framework glue with no game logic.
- Bean validation of `NimTurn` (count ≥ 1), which the controller applies before `takePlayerTurn`. `TakePlayerTurn` accepts any integer. `NimConfig` carries validation annotations (both values ≥ 2), but no controller route takes a `NimConfig`, so nothing validates one before `configureGame`. `ConfigureGame` accepts any integers, as the source does. The model's request fields are plain integers, never null.
- The JPA repository: the store is the `Option<NimPersistence>` field `store`, and `findById`/`save` are reads and writes of that field. The record's fixed key `ID = 1` is implicit, since the store holds at most one record.
- Concurrency: the model is one sequential game.
- `0 ≤ pile ≤ initialPileSize` is not stated as an invariant of every state, because `setState` and `configureGame` can break it. `Game.TurnsKeepBounds` shows that turns preserve it and reset restores it.
- Swapping `computerStrategy`: the field is modelled, but the core never assigns it after construction.

