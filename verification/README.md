# DoubleTriad rules engine in Dafny

This project models the rules engine of DoubleTriad, a two-player card game in
the style of Triple Triad. Each card has four strengths (left, top, right,
bottom). Players take turns placing cards from their hand on a 3-by-3 board.
A card placed next to an opponent's card fights it: when the placed card's
facing strength is strictly greater, the opponent's card changes owner. A
computer player picks its moves with an offensive strategy that scores every
empty cell next to an enemy card for every card in its hand.

The model follows the source file by file:

- `wrappers.dfy`: `Option`, which stands for `null` and for array holes, and `Result`, which stands for thrown errors.
- `js_array.dfy`: the JavaScript array and number semantics the code relies on:
  - `Array.prototype.at`, where a negative index counts from the end;
  - plain indexing, where anything out of range is `undefined`;
  - assignment past the end, which leaves holes;
  - the truncating `%`.
- `squares.dfy`: the perfect-square test that `Math.sqrt(n) % 1 === 0` performs, and the integer side length.
- `card.dfy`: `Card` and `CardBuilder` (entities/Card.ts).
- `player.dfy`: `Player`, `PlayerBuilder` and the turn-switch rule (aggregates/Player.ts).
- `events.dfy`: `EventPool` and `Event` (EventPool.ts). Subscriber maps keep insertion order. An emit is the ordered list of subscriber handles it calls.
- `grid.dfy`: `PlacedCard`, the strategy `Grid` and `GridBuilder` (aggregates/Grid.ts).
- `entities_board.dfy`: the board of entities/Board.ts, and `placeCard` of aggregates/Player.ts, which writes into that board.
- `aggregates_board.dfy`: the board of aggregates/Board.ts, which gets its own event managers and whose clean-up clears both of them.
- `common_strategy.dfy` and `offensive_strategy.dfy`: the computer player's search.
- `game_engine.dfy`: enemy detection, battles and captures, and the engine's wiring (aggregates/GameEngine.ts).

Objects that the source compares by identity or updates in place are classes:
cards, players, placed cards, pools, events, boards, the engine and the
builders. Loops that the source writes with `forEach` and `push` are methods
with loop invariants, each proved equal to a recursive specification function.

## Model

| member | source | states |
|---|---|---|
| JsArray.JsRem | src/modules/game/aggregates/GameEngine.ts:32-33 | the remainder of a non-negative dividend is the Euclidean one, in [0, b); a negative dividend gives the negated remainder of its magnitude, in (-b, 0] |
| JsArray.At | src/modules/game/aggregates/GameEngine.ts:35-38 | `at(i)` reads `s[i]` in range, `s[|s| + i]` for `-|s| <= i < 0`, and nothing beyond either end |
| JsArray.Assign | src/modules/game/entities/Board.ts:64-67 | `s[i] = v` sets index `i`, leaves every other element, grows the array to `i + 1` with holes, and changes no element for a negative index |
| Squares.Side | src/modules/game/repositories/CommonStrategy.ts:24 | the side is the integer square root: `s*s <= len < (s+1)*(s+1)` |
| Squares.IsSquareIff | src/modules/game/aggregates/Grid.ts:14 | the perfect-square test holds exactly when some whole number squared gives the length |
| Squares.SideOfSquare | src/modules/game/repositories/CommonStrategy.ts:24 | on a length `n*n` the side is exactly `n` |
| Cards.Card.constructor | src/modules/game/entities/Card.ts:18-23 | a new card has all four strengths 0 |
| Cards.CardBuilder.constructor | src/modules/game/entities/Card.ts:17-23 | the builder holds a fresh all-zero card |
| Cards.CardBuilder.WithLeft | src/modules/game/entities/Card.ts:26-29 | sets `left` only and returns the card itself, not the builder |
| Cards.CardBuilder.WithTop | src/modules/game/entities/Card.ts:30-33 | sets `top` only and returns the card |
| Cards.CardBuilder.WithRight | src/modules/game/entities/Card.ts:34-37 | sets `right` only and returns the card |
| Cards.CardBuilder.WithBottom | src/modules/game/entities/Card.ts:38-41 | sets `bottom` only and returns the card |
| Cards.CardBuilder.Build | src/modules/game/entities/Card.ts:42-44 | returns the very object the setters changed |
| Players.Player.constructor | src/modules/game/aggregates/Player.ts:46-52 | a new player has empty id and name, score 0 and an empty hand |
| Players.PlayerBuilder.constructor | src/modules/game/aggregates/Player.ts:45-52 | the builder holds a fresh default player |
| Players.PlayerBuilder.WithId | src/modules/game/aggregates/Player.ts:55-58 | sets the id only and returns the builder |
| Players.PlayerBuilder.WithName | src/modules/game/aggregates/Player.ts:59-62 | sets the name only and returns the builder |
| Players.PlayerBuilder.WithScore | src/modules/game/aggregates/Player.ts:63-66 | sets the score only and returns the builder |
| Players.PlayerBuilder.WithCardsInHand | src/modules/game/aggregates/Player.ts:67-70 | sets the hand only and returns the builder |
| Players.PlayerBuilder.Build | src/modules/game/aggregates/Player.ts:71-73 | returns the player the setters changed |
| Players.NextTurn | src/modules/game/entities/Board.ts:76 | the next turn is one of the two board players, and differs from the current one when the players' ids differ |
| Players.NextTurnTwice | src/modules/game/aggregates/Board.ts:77 | with distinct ids, two placements hand the turn back to the player who had it |
| Players.SameIdsStickToRight | src/modules/game/entities/Board.ts:76 | with equal ids, such as the builder's default empty ids, the turn goes to the right player after every placement |
| Events.Without | src/lib/utils/events/EventPool.ts:23-25 | deleting a key keeps exactly the other keys, keeps the list free of repeats, and changes nothing for an unknown key |
| Events.WithoutSplit | src/lib/utils/events/EventPool.ts:23-25 | deleting a key that occurs once keeps the keys before it and after it in their order |
| Events.Listed | src/lib/utils/events/EventPool.ts:46 | iterating a subscriber map yields one callback per key, in insertion order |
| Events.ListedOtherKey | src/lib/utils/events/EventPool.ts:18-22 | setting a key that is not yet subscribed leaves what the existing subscriptions reach unchanged |
| Events.EventPool.constructor | src/lib/utils/events/EventPool.ts:12-17 | a new pool has the given id and no subscribers |
| Events.EventPool.Subscribe | src/lib/utils/events/EventPool.ts:18-22 | stores the callback under the id and returns that id; a new id is appended to the order and its callback is reached last |
| Events.EventPool.Unsubscribe | src/lib/utils/events/EventPool.ts:23-25 | removes that one key, keeps the order of the rest, and changes nothing for an unknown id |
| Events.EventPool.UnsubscribeAll | src/lib/utils/events/EventPool.ts:26-28 | the pool then reaches no callback |
| Events.EventPool.Dispatch | src/lib/utils/events/EventPool.ts:46 | calls exactly the pool's listeners: each subscriber once, in insertion order |
| Events.GatherSplit | src/lib/utils/events/EventPool.ts:45-47 | emitting over a concatenation of pool lists reaches the first list's callbacks, then the second's |
| Events.GatherSameEntries | src/lib/utils/events/EventPool.ts:45-47 | what an emit reaches depends only on the pools it iterates |
| Events.ListsOfUpdate | src/lib/utils/events/EventPool.ts:49-53 | registering a pool under an id changes what that id reaches and nothing else |
| Events.ListsOfRemove | src/lib/utils/events/EventPool.ts:54-57 | deleting a pool id drops what that id reached and nothing else |
| Events.ListsOfUnchanged | src/lib/utils/events/EventPool.ts:45-47 | while its pools are untouched, what each pool reaches stays the same |
| Events.GatherAppendEmpty | src/lib/utils/events/EventPool.ts:49-53 | appending a new empty pool leaves what an emit reaches unchanged |
| Events.RegistryAdd | src/lib/utils/events/EventPool.ts:49-53 | adding a pool under an unused id keeps the pool map keyed by pool id, with the keys in order and without repeats |
| Events.RegistryRemove | src/lib/utils/events/EventPool.ts:54-57 | deleting an id keeps the pool map keyed by pool id, with the keys in order and without repeats |
| Events.RemovingPoolDropsItsBlock | src/lib/utils/events/EventPool.ts:54-57 | removing a pool removes exactly that pool's block of callbacks from an emit and keeps the others in order |
| Events.Event.constructor | src/lib/utils/events/EventPool.ts:39-41 | a new event has no pools |
| Events.Event.Emit | src/lib/utils/events/EventPool.ts:44-48 | calls every subscriber of every pool, pools in creation order and subscribers in subscription order |
| Events.Event.CreatePool | src/lib/utils/events/EventPool.ts:49-53 | registers a fresh empty pool under its id; with a new id, what an emit reaches is unchanged |
| Events.Event.Forget | src/lib/utils/events/EventPool.ts:56 | `pools.delete(id)` drops that one key and keeps the order of the rest; an emit then reaches the other pools' callbacks |
| Events.Event.RemovePool | src/lib/utils/events/EventPool.ts:54-57 | empties the pool, forgets it, and afterwards an emit reaches exactly the other pools' callbacks; an unknown id changes nothing |
| Grids.PlacedCard.constructor | src/modules/game/aggregates/PlacedCard.ts:4-7 | a placed card pairs a card with its owner |
| Grids.MapSkippingHoles | src/modules/game/aggregates/Grid.ts:25 | `map` keeps the length, leaves holes as holes and applies the callback elsewhere |
| Grids.Normalize | src/modules/game/aggregates/Grid.ts:24-27 | a cell holds a card exactly where the builder's array holds one, and the same card |
| Grids.GridBuilder.constructor | src/modules/game/aggregates/Grid.ts:11 | a new builder holds an empty array |
| Grids.GridBuilder.OfSize | src/modules/game/aggregates/Grid.ts:13-19 | fails exactly when the size is not a perfect square; otherwise appends that many nulls to what is already there |
| Grids.GridBuilder.WithCard | src/modules/game/aggregates/Grid.ts:20-23 | writes the card at the index as an array assignment does, holes included |
| Grids.GridBuilder.BuildAsWritten | src/modules/game/aggregates/Grid.ts:24-27 | the array keeps its length, every hole survives, and every other cell is unchanged |
| Grids.GridBuilder.Build | src/modules/game/aggregates/Grid.ts:24-27 | the corrected build: no hole is left, the length is kept, and a cell holds a card exactly where one was written; the builder's own grid becomes that same normalized grid |
| Grids.HoleSurvivesBuildAsWritten | src/modules/game/aggregates/Grid.ts:20-27 | a card written at index 2 of a fresh builder leaves a hole at index 0 after the build as written |
| Grids.InRangeWritesKeepShape | src/modules/game/aggregates/Grid.ts:13-23 | after `ofSize`, writes inside the grid keep its length and leave no hole |
| EntitiesBoard.Board.constructor | src/modules/game/entities/Board.ts:31-49 | the left player moves first, no card is placed, and the board uses the managers it was given |
| EntitiesBoard.Board.OnCardPlaced | src/modules/game/entities/Board.ts:40-42 | subscribes the callback to `cardPlaced` |
| EntitiesBoard.Board.OnTurnChanged | src/modules/game/entities/Board.ts:43-45 | subscribes the callback to `turnChanged` |
| EntitiesBoard.Board.SwitchTurns | src/modules/game/entities/Board.ts:74-78 | the turn passes by the turn rule to one of the board's players, and every `turnChanged` subscriber is called |
| EntitiesBoard.Board.CleanUp | src/modules/game/entities/Board.ts:46-48 | clears `cardPlaced` and leaves `turnChanged` untouched |
| EntitiesBoard.BoardBuilder.constructor | src/modules/game/entities/Board.ts:28-39 | two distinct fresh default players (empty id and name, score 0, empty hand), the left one to move, and no cards |
| EntitiesBoard.BoardBuilder.WithLeftPlayer | src/modules/game/entities/Board.ts:52-55 | sets the left player |
| EntitiesBoard.BoardBuilder.WithRightPlayer | src/modules/game/entities/Board.ts:56-59 | sets the right player |
| EntitiesBoard.BoardBuilder.WithPlayedCards | src/modules/game/entities/Board.ts:60-63 | replaces the placed-card array |
| EntitiesBoard.BoardBuilder.WithExistingCardPlayed | src/modules/game/entities/Board.ts:64-67 | writes one index of the placed-card array, holes included |
| EntitiesBoard.BoardBuilder.Build | src/modules/game/entities/Board.ts:68-81 | the first turn is the given player or, without one, the player the coin picks; the turn switch is subscribed to `cardPlaced` |
| EntitiesBoard.CheckPlacement | src/modules/game/aggregates/Player.ts:14-32 | each error is returned exactly when its check is the first to fail, in the order turn, ownership, bounds, occupancy; no error exactly when all pass |
| EntitiesBoard.PlaceCard | src/modules/game/aggregates/Player.ts:13-36 | fails with the first failing check and changes nothing; otherwise writes the card at the position, reaches every `cardPlaced` subscriber, and keeps the hand |
| AggregatesBoard.Board.constructor | src/modules/game/aggregates/Board.ts:32-51 | the left player moves first, no card is placed, and the board gets two fresh, empty managers |
| AggregatesBoard.Board.OnCardPlaced | src/modules/game/aggregates/Board.ts:41-43 | subscribes the callback to this board's `cardPlaced` |
| AggregatesBoard.Board.OnTurnChanged | src/modules/game/aggregates/Board.ts:44-46 | subscribes the callback to this board's `turnChanged` |
| AggregatesBoard.Board.SwitchTurns | src/modules/game/aggregates/Board.ts:76-79 | the turn passes by the turn rule and every `turnChanged` subscriber is called |
| AggregatesBoard.Board.CleanUp | src/modules/game/aggregates/Board.ts:47-50 | both managers are left with no subscriber |
| AggregatesBoard.BoardBuilder.constructor | src/modules/game/aggregates/Board.ts:29-40 | two distinct fresh default players (empty id and name, score 0, empty hand), fresh managers, the left player to move, and no cards |
| AggregatesBoard.BoardBuilder.WithLeftPlayer | src/modules/game/aggregates/Board.ts:54-57 | sets the left player |
| AggregatesBoard.BoardBuilder.WithRightPlayer | src/modules/game/aggregates/Board.ts:58-61 | sets the right player |
| AggregatesBoard.BoardBuilder.WithPlayedCards | src/modules/game/aggregates/Board.ts:62-65 | replaces the placed-card array |
| AggregatesBoard.BoardBuilder.WithExistingCardPlayed | src/modules/game/aggregates/Board.ts:66-69 | writes one index of the placed-card array, holes included |
| AggregatesBoard.BoardBuilder.Build | src/modules/game/aggregates/Board.ts:70-82 | the first turn is the given player or the one the coin picks; the turn switch is subscribed to `cardPlaced` |
| CommonStrategy.GetNeighbours | src/modules/game/repositories/CommonStrategy.ts:31-46 | at most four neighbours are listed |
| CommonStrategy.NeighboursOnGrid | src/modules/game/repositories/CommonStrategy.ts:31-46 | for a cell on the grid, the list is the cells above, below, left and right, in that order, keeping exactly the adjacent ones; an index is listed exactly when it is adjacent |
| CommonStrategy.NeighboursSymmetric | src/modules/game/repositories/CommonStrategy.ts:31-46 | `j` is a neighbour of `i` exactly when `i` is a neighbour of `j` |
| CommonStrategy.AnyEnemyAmong | src/modules/game/repositories/CommonStrategy.ts:25-28 | `some` holds exactly when a listed index holds a card of another player |
| CommonStrategy.HasNeighbourEnemy | src/modules/game/repositories/CommonStrategy.ts:23-29 | holds exactly when some listed neighbour holds a card of another player |
| CommonStrategy.NeighbourEnemyByAdjacency | src/modules/game/repositories/CommonStrategy.ts:23-29 | for a cell on the grid, holds exactly when some adjacent cell holds a card of another player |
| CommonStrategy.EmptyPositions | src/modules/game/repositories/CommonStrategy.ts:5-11 | the empty cells' indices, each once, in increasing order |
| CommonStrategy.EnemyAdjacentSlots | src/modules/game/repositories/CommonStrategy.ts:13-21 | the indices of the empty cells next to an enemy card, each once, in increasing order |
| CommonStrategy.FindEmptyPositions | src/modules/game/repositories/CommonStrategy.ts:5-11 | the loop returns exactly the empty positions |
| CommonStrategy.FindAvailableSlotsWithNeighbourEnemy | src/modules/game/repositories/CommonStrategy.ts:13-21 | the loop returns exactly the empty cells next to an enemy card |
| CommonStrategy.SlotsAreEmptyPositions | src/modules/game/repositories/CommonStrategy.ts:5-21 | every enemy-adjacent slot is an empty position |
| CommonStrategy.BestIndex | src/modules/game/repositories/CommonStrategy.ts:54 | the seedless reduce ends on a best score, and on the first entry with that score |
| CommonStrategy.SelectPlacement | src/modules/game/repositories/CommonStrategy.ts:53-55 | returns an entry of the list with the highest score, the earliest one among ties |
| OffensiveStrategy.GetNeighbourPowerDiff | src/modules/game/repositories/OffensiveStrategy.ts:34-65 | 0 for an empty cell or a cell at no neighbouring offset; otherwise, on a grid at least two wide, the neighbour's facing strength minus the card's, plus the kill bonus when that is negative |
| OffensiveStrategy.SumPowerDiffsAppend | src/modules/game/repositories/OffensiveStrategy.ts:24-29 | the summed score of two neighbour lists together is the sum of their scores |
| OffensiveStrategy.ScoreForPlacement | src/modules/game/repositories/OffensiveStrategy.ts:18-32 | the evaluated position is the destination |
| OffensiveStrategy.ScoreByDirection | src/modules/game/repositories/OffensiveStrategy.ts:18-65 | a placement scores the sum of the four sides' contributions, counting a side only when its cell is adjacent |
| OffensiveStrategy.Evaluations | src/modules/game/repositories/OffensiveStrategy.ts:74-76 | one evaluation per slot, in slot order |
| OffensiveStrategy.BestMoveFor | src/modules/game/repositories/OffensiveStrategy.ts:73-79 | the entry carries the card it was computed for |
| OffensiveStrategy.BestMoveForIsBest | src/modules/game/repositories/OffensiveStrategy.ts:73-79 | the entry holds the card's best slot and that slot's score, the earliest slot among ties |
| OffensiveStrategy.MovesFor | src/modules/game/repositories/OffensiveStrategy.ts:73-79 | one best move per card, in hand order |
| OffensiveStrategy.BestOffensiveMoveByCard | src/modules/game/repositories/OffensiveStrategy.ts:67-80 | for each card in hand order: the card, its best enemy-adjacent empty slot and that slot's score |
| OffensiveStrategy.ChooseBestCard | src/modules/game/repositories/OffensiveStrategy.ts:82-86 | an entry with the highest score, the earliest among ties |
| OffensiveStrategy.ComputeMove | src/modules/game/repositories/OffensiveStrategy.ts:88-101 | fails exactly when the hand is empty or no empty cell has an enemy neighbour; otherwise a card of the hand on an enemy-adjacent empty cell, with its true score, beaten by no card and cell, and played by the earliest card reaching that score |
| OffensiveStrategy.BestMoveIsGlobal | src/modules/game/repositories/OffensiveStrategy.ts:91-98 | the per-card best, taken over the cards, is the best over all pairs of card and cell |
| Engine.DetectAdjacentEnemiesAsWritten | src/modules/game/aggregates/GameEngine.ts:31-45 | each side reports the card read by `at` exactly when it is an enemy's; the left and right sides are empty against the walls |
| Engine.DetectAdjacentEnemies | src/modules/game/aggregates/GameEngine.ts:31-45 | the corrected detection: the same with bounded reads, so an index outside the board reports nothing |
| Engine.DetectsExactlyAdjacentEnemies | src/modules/game/aggregates/GameEngine.ts:31-45 | on a 3-by-3 board the reported cards are exactly the enemy cards adjacent to the position |
| Engine.AdjacentEnemiesAreDetected | src/modules/game/aggregates/GameEngine.ts:31-45 | on a 3-by-3 board every enemy card in a cell adjacent to the placed card fills one of the four slots |
| Engine.DetectedEnemiesAreAdjacent | src/modules/game/aggregates/GameEngine.ts:31-45 | on a 3-by-3 board every filled slot holds an enemy card from a cell adjacent to the placed card |
| Engine.TopSlotWrapsToBottomRow | src/modules/game/aggregates/GameEngine.ts:35 | as written, a top-row card reports the enemy six cells on, in the bottom row, as its top neighbour; the corrected version reports nothing |
| Engine.CapturedMembers | src/modules/game/aggregates/GameEngine.ts:46-61 | a defender is beaten exactly when it sits on a side where the fighter is strictly stronger; at most four are beaten |
| Engine.EqualOrWeakerNeverCaptures | src/modules/game/aggregates/GameEngine.ts:48-58 | when no side is strictly stronger, nothing is beaten, ties included |
| Engine.CalculateCardsBeaten | src/modules/game/aggregates/GameEngine.ts:46-61 | the four side tests return exactly the captured defenders, top, left, right, bottom |
| Engine.ChangeOwner | src/modules/game/aggregates/GameEngine.ts:62-64 | every listed card then belongs to the new owner |
| Engine.GameEngine.constructor | src/modules/game/aggregates/GameEngine.ts:26-30 | the engine watches the given board and `battleStarted` manager |
| Engine.GameEngine.CheckForBattle | src/modules/game/aggregates/GameEngine.ts:65-74 | with the detection as written, nothing is emitted exactly when no slot holds an enemy; otherwise one `battleStarted` carries the fighter and the four slots and reaches every subscriber |
| Engine.GameEngine.CheckForBattleCorrected | src/modules/game/aggregates/GameEngine.ts:65-74 | the same, with the corrected detection that reads no card before the first cell |
| Engine.GameEngine.ResolveBattle | src/modules/game/aggregates/GameEngine.ts:87-90 | every captured defender now belongs to the fighter's player, and no other object changes |
| Engine.GameEngine.OnBattleStarted | src/modules/game/aggregates/GameEngine.ts:75-77 | subscribes the callback to `battleStarted` |
| Engine.GameEngineBuilder.constructor | src/modules/game/aggregates/GameEngine.ts:25-30 | the engine starts on a freshly built board with no cards, whose first player the coin picks, and the turn switch is subscribed to the shared `cardPlaced` manager |
| Engine.GameEngineBuilder.WithBoard | src/modules/game/aggregates/GameEngine.ts:81-84 | replaces the engine's board |
| Engine.GameEngineBuilder.Build | src/modules/game/aggregates/GameEngine.ts:85-92 | subscribes the battle check to the board's `cardPlaced` and the capture handler to `battleStarted` |

## Left out

- Randomness: the coin `Math.random() < 0.5` in both boards' `build` is the parameter `leftStarts`. Subscription ids and pool ids come from random sources; here they are parameters. The id generator is not part of this model.
- Grids.GridBuilder.Build: the source returns the builder's own array, so a later `withCard` on the same builder would also change the grid already returned. Here the grid is a value, so that aliasing is not modelled: the returned grid keeps the cells it had when it was built.
- Console output (`console.debug` in entities/Board.ts and OffensiveStrategy.ts) is dropped.
- Callbacks are opaque handles. An emit is modelled as the ordered list of handles it calls. The event payload is not carried, and running the handlers is not modelled; that covers a handler that emits again or throws.
- The bodies of the subscribers that `build` wires up are separate methods: `SwitchTurns`, `CheckForBattle` and `ResolveBattle`. The model does not chain them automatically.
- `placeCard` emits only the card, while `checkForBattle` expects `{ card, player, position }`. Because payloads are not carried, `CheckForBattle` takes the full record as its argument.
- Event managers:
  - Both boards and the engine call `subscribe` on their managers, and both boards call `unsubscribeAll` in `cleanUp`.
  - The `Event` type that those managers are built on has no such operations.
  - Here each manager is an `EventPool`, with `Dispatch` standing for `emit`.
  - The `EventManager` type that aggregates/Board.ts imports is not part of this model.
- `board.cards`:
  - `placeCard` reads and writes `board.cards`, which the board type does not declare and the builder never creates.
  - The model gives the entities board a `cards` array that starts empty.
  - As written, the access would not type-check, and at run time it would throw.
- `PlayerAreEqual` is imported from aggregates/Player.ts but not defined there. It is taken to compare player ids.
- Scoring, `BattleWon`, end-of-game detection and removing a played card from the hand are not done by the modelled code, so they are not modelled.
- The notification system, the Svelte stores, the view model and `ComputerPlayer` are outside this model.
- An `Event` does not require its pools to be well formed, because `createPool` hands each pool to its caller, who may change it. For this reason `Listed` passes over an id that has no entry. For a well-formed pool it reaches every subscriber.
- Numbers are unbounded integers. JavaScript's doubles, NaN and fractional indices are not modelled.
- CommonStrategy.HasNeighbourEnemy: requires a grid whose length is a perfect square. For any other length, `Math.sqrt` gives a fractional side and the source reads fractional indices, which are not modelled. The same requirement holds for `EnemyAdjacentSlots`, `FindAvailableSlotsWithNeighbourEnemy`, `ScoreForPlacement`, `BestOffensiveMoveByCard` and `ComputeMove`.
- CommonStrategy.FindEmptyPositions: works on grids without holes, such as the corrected `GridBuilder.Build` returns. `forEach` skipping holes is not modelled.
- CommonStrategy.SelectPlacement: requires a non-empty list. The source's seedless `reduce` throws a TypeError on an empty one. `ChooseBestCard` and `BestOffensiveMoveByCard` require the same for the same reason. `ComputeMove` models that error as `None`.
- Engine.DetectsExactlyAdjacentEnemies: proved for the 3-by-3 board only, since the walls are hard-coded as `position % 3`.

## Findings

| source | as written | input that shows it | evidently intended | confidence | as-written member | corrected member |
|---|---|---|---|---|---|---|
| src/modules/game/aggregates/GameEngine.ts:35 | the top neighbour is read with `placedCards.at(position - 3)`, and a negative index counts from the end | a 9-cell board with an enemy card at 6 and a card placed at 0: cell 6 is reported as the top neighbour | a card on the top row has no top neighbour | high; not executed | Engine.DetectAdjacentEnemiesAsWritten | Engine.DetectAdjacentEnemies |
| src/modules/game/aggregates/Grid.ts:25 | `grid.map((cell) => cell ?? null)`: `map` skips holes, so they stay holes | `GridBuilder().withCard(2, card).build()` returns holes at 0 and 1 | every hole becomes `null` | medium; not executed | Grids.GridBuilder.BuildAsWritten | Grids.GridBuilder.Build |

`Engine.TopSlotWrapsToBottomRow` exhibits the first discrepancy, and `Engine.DetectsExactlyAdjacentEnemies` proves the corrected detection right. `Grids.HoleSurvivesBuildAsWritten` exhibits the second. `CheckForBattle` uses the detection as written, and `CheckForBattleCorrected` uses the corrected one. The strategies take the hole-free grid that the corrected build returns.
