/**
 * The capture rules of src/modules/game/aggregates/GameEngine.ts: after a
 * card is placed, the enemy cards next to it are found, a battle is
 * announced when there is at least one, and every neighbour whose facing
 * side is strictly weaker changes owner.
 */
module Engine {
  import opened Wrappers
  import opened JsArray
  import opened Events
  import opened Cards
  import opened Players
  import opened Grids
  import opened EntitiesBoard
  import opened CommonStrategy

  /** `AdjacentEnemeies`: one slot per side, `None` standing for `null`. */
  datatype AdjacentEnemies = AdjacentEnemies(
    top: Option<PlacedCard>,
    left: Option<PlacedCard>,
    right: Option<PlacedCard>,
    bottom: Option<PlacedCard>)

  /** The `{ player, card }` record a battle is fought with. */
  datatype Fighter = Fighter(player: Player, card: Card)

  /** `CardPlacedEvent.Data`. */
  datatype CardPlaced = CardPlaced(card: Card, player: Player, position: int)

  /** `BattleStartedEvent.Data`. */
  datatype BattleStarted = BattleStarted(fighter: Fighter, defenders: AdjacentEnemies)

  const NoEnemies := AdjacentEnemies(None, None, None, None)

  /** The slot on side `d`. */
  function Slot(e: AdjacentEnemies, d: Direction): Option<PlacedCard>
  {
    match d
    case Top => e.top
    case Left => e.left
    case Right => e.right
    case Bottom => e.bottom
  }

  /** The cards the slots carry: what judging a battle reads. */
  function SlotCards(e: AdjacentEnemies): set<Card>
  {
    (if e.top.Some? then {e.top.value.card} else {})
    + (if e.left.Some? then {e.left.value.card} else {})
    + (if e.right.Some? then {e.right.value.card} else {})
    + (if e.bottom.Some? then {e.bottom.value.card} else {})
  }

  /** `isEnemy(card)`: a card is there and its owner is not (by identity) `player`. */
  predicate IsEnemy(cell: Option<PlacedCard>, player: Player)
    reads if cell.Some? then {cell.value} else {}
  {
    cell.Some? && cell.value.player != player
  }

  /** `isEnemy(card) ? card : null`. */
  function EnemyOrNull(cell: Option<PlacedCard>, player: Player): Option<PlacedCard>
    reads if cell.Some? then {cell.value} else {}
  {
    if IsEnemy(cell, player) then cell else None
  }

  /** A slot reports `cell`: it holds that card exactly when the card is an enemy's. */
  predicate Reports(slot: Option<PlacedCard>, cell: Option<PlacedCard>, player: Player)
    reads if cell.Some? then {cell.value} else {}
  {
    (slot.Some? <==> IsEnemy(cell, player)) && (slot.Some? ==> slot == cell)
  }

  /**
   * `detectAdjacentEnemies(board, player, position)` as written, on
   * `board.placedCards`: the column walls use the truncating `%` of a
   * 3-wide board, and every neighbour is read with `Array.at`, which counts
   * a negative index from the end of the array.
   */
  function DetectAdjacentEnemiesAsWritten(placedCards: Grid, player: Player, position: int): (r: AdjacentEnemies)
    reads Footprint(placedCards)
    ensures Reports(r.top, At(placedCards, position - 3), player)
    ensures JsRem(position, 3) == 0 ==> r.left.None?
    ensures JsRem(position, 3) != 0 ==> Reports(r.left, At(placedCards, position - 1), player)
    ensures JsRem(position, 3) == 2 ==> r.right.None?
    ensures JsRem(position, 3) != 2 ==> Reports(r.right, At(placedCards, position + 1), player)
    ensures Reports(r.bottom, At(placedCards, position + 3), player)
  {
    var againstLeftWall := JsRem(position, 3) == 0;
    var againstRightWall := JsRem(position, 3) == 2;
    var topCard := At(placedCards, position - 3);
    var leftCard := if againstLeftWall then None else At(placedCards, position - 1);
    var rightCard := if againstRightWall then None else At(placedCards, position + 1);
    var bottomCard := At(placedCards, position + 3);
    AdjacentEnemies(
      EnemyOrNull(topCard, player),
      EnemyOrNull(leftCard, player),
      EnemyOrNull(rightCard, player),
      EnemyOrNull(bottomCard, player))
  }

  /**
   * `detectAdjacentEnemies` with every neighbour read by plain indexing,
   * so that an index before the first cell reads as no card.
   */
  function DetectAdjacentEnemies(placedCards: Grid, player: Player, position: int): (r: AdjacentEnemies)
    reads Footprint(placedCards)
    ensures Reports(r.top, Lookup(placedCards, position - 3), player)
    ensures JsRem(position, 3) == 0 ==> r.left.None?
    ensures JsRem(position, 3) != 0 ==> Reports(r.left, Lookup(placedCards, position - 1), player)
    ensures JsRem(position, 3) == 2 ==> r.right.None?
    ensures JsRem(position, 3) != 2 ==> Reports(r.right, Lookup(placedCards, position + 1), player)
    ensures Reports(r.bottom, Lookup(placedCards, position + 3), player)
  {
    var againstLeftWall := JsRem(position, 3) == 0;
    var againstRightWall := JsRem(position, 3) == 2;
    var topCard := Lookup(placedCards, position - 3);
    var leftCard := if againstLeftWall then None else Lookup(placedCards, position - 1);
    var rightCard := if againstRightWall then None else Lookup(placedCards, position + 1);
    var bottomCard := Lookup(placedCards, position + 3);
    AdjacentEnemies(
      EnemyOrNull(topCard, player),
      EnemyOrNull(leftCard, player),
      EnemyOrNull(rightCard, player),
      EnemyOrNull(bottomCard, player))
  }

  /** The filled slots, in the order top, left, right, bottom. */
  function Filled(e: AdjacentEnemies): seq<PlacedCard>
  {
    (if e.top.Some? then [e.top.value] else [])
    + (if e.left.Some? then [e.left.value] else [])
    + (if e.right.Some? then [e.right.value] else [])
    + (if e.bottom.Some? then [e.bottom.value] else [])
  }

  /** On a 3-by-3 board every enemy card next to `position` fills a slot. */
  lemma AdjacentEnemiesAreDetected(placedCards: Grid, player: Player, position: int)
    requires |placedCards| == 9 && 0 <= position < 9
    ensures var e := DetectAdjacentEnemies(placedCards, player, position);
      forall k :: Adjacent(position, k, 3) && EnemyAt(placedCards, k, player) ==> placedCards[k].value in Filled(e)
  {
    var e := DetectAdjacentEnemies(placedCards, player, position);
    assert JsRem(position, 3) == position % 3;
    forall k | Adjacent(position, k, 3) && EnemyAt(placedCards, k, player)
      ensures placedCards[k].value in Filled(e)
    {
      OnlyFourCandidates(position, k, 3);
    }
  }

  /** On a 3-by-3 board every filled slot holds an enemy card next to `position`. */
  lemma DetectedEnemiesAreAdjacent(placedCards: Grid, player: Player, position: int)
    requires |placedCards| == 9 && 0 <= position < 9
    ensures var e := DetectAdjacentEnemies(placedCards, player, position);
      forall pc :: pc in Filled(e) ==> exists k :: Adjacent(position, k, 3) && EnemyAt(placedCards, k, player) && placedCards[k] == Some(pc)
  {
    var e := DetectAdjacentEnemies(placedCards, player, position);
    TopCandidate(position, 3);
    BottomCandidate(position, 3);
    LeftCandidate(position, 3);
    RightCandidate(position, 3);
    assert JsRem(position, 3) == position % 3;
    forall pc | pc in Filled(e)
      ensures exists k :: Adjacent(position, k, 3) && EnemyAt(placedCards, k, player) && placedCards[k] == Some(pc)
    {
      if e.top == Some(pc) {
        assert EnemyAt(placedCards, position - 3, player);
      } else if e.left == Some(pc) {
        assert EnemyAt(placedCards, position - 1, player);
      } else if e.right == Some(pc) {
        assert EnemyAt(placedCards, position + 1, player);
      } else {
        assert EnemyAt(placedCards, position + 3, player);
      }
    }
  }

  /**
   * On a 3-by-3 board the slots are exactly the enemy cards in the cells
   * adjacent to `position`.
   */
  lemma DetectsExactlyAdjacentEnemies(placedCards: Grid, player: Player, position: int)
    requires |placedCards| == 9 && 0 <= position < 9
    ensures var e := DetectAdjacentEnemies(placedCards, player, position);
      forall k :: Adjacent(position, k, 3) && EnemyAt(placedCards, k, player) ==> placedCards[k].value in Filled(e)
    ensures var e := DetectAdjacentEnemies(placedCards, player, position);
      forall pc :: pc in Filled(e) ==> exists k :: Adjacent(position, k, 3) && EnemyAt(placedCards, k, player) && placedCards[k] == Some(pc)
  {
    AdjacentEnemiesAreDetected(placedCards, player, position);
    DetectedEnemiesAreAdjacent(placedCards, player, position);
  }

  /**
   * As written, a card on the top row sees the cell six places on, in the
   * bottom row, as its top neighbour: `at(position - 3)` wraps around.
   * Bounded indexing reports nothing there.
   */
  lemma TopSlotWrapsToBottomRow(placedCards: Grid, player: Player, position: int)
    requires |placedCards| == 9 && 0 <= position < 3
    requires EnemyAt(placedCards, position + 6, player)
    ensures DetectAdjacentEnemiesAsWritten(placedCards, player, position).top == placedCards[position + 6]
    ensures !Adjacent(position, position + 6, 3)
    ensures DetectAdjacentEnemies(placedCards, player, position).top == None
  {
  }

  /** The fighter's side `d` is strictly stronger than the facing side of `defender`. */
  predicate Beats(attacker: Card, d: Direction, defender: PlacedCard)
    reads attacker, defender.card
  {
    Facing(attacker, d) > Facing(defender.card, Opposite(d))
  }

  /** The card on side `d`, when there is one and the attacker beats it. */
  function CapturedOn(attacker: Card, e: AdjacentEnemies, d: Direction): seq<PlacedCard>
    reads attacker, SlotCards(e)
  {
    match Slot(e, d)
    case Some(pc) => if Beats(attacker, d, pc) then [pc] else []
    case None => []
  }

  /** The defenders an attacker captures, top first, then left, right and bottom. */
  function Captured(attacker: Card, e: AdjacentEnemies): seq<PlacedCard>
    reads attacker, SlotCards(e)
  {
    CapturedOn(attacker, e, Top) + CapturedOn(attacker, e, Left)
    + CapturedOn(attacker, e, Right) + CapturedOn(attacker, e, Bottom)
  }

  /**
   * A defender is captured exactly when it sits on some side where the
   * attacker is strictly stronger; there are at most four captures.
   */
  lemma CapturedMembers(attacker: Card, e: AdjacentEnemies)
    ensures |Captured(attacker, e)| <= 4
    ensures forall pc :: pc in Captured(attacker, e) <==>
      exists d :: Slot(e, d) == Some(pc) && Beats(attacker, d, pc)
  {
    forall pc | exists d :: Slot(e, d) == Some(pc) && Beats(attacker, d, pc)
      ensures pc in Captured(attacker, e)
    {
      var d :| Slot(e, d) == Some(pc) && Beats(attacker, d, pc);
      assert pc in CapturedOn(attacker, e, d);
    }
    forall pc | pc in Captured(attacker, e)
      ensures exists d :: Slot(e, d) == Some(pc) && Beats(attacker, d, pc)
    {
      if pc in CapturedOn(attacker, e, Top) {
        assert Slot(e, Top) == Some(pc) && Beats(attacker, Top, pc);
      } else if pc in CapturedOn(attacker, e, Left) {
        assert Slot(e, Left) == Some(pc) && Beats(attacker, Left, pc);
      } else if pc in CapturedOn(attacker, e, Right) {
        assert Slot(e, Right) == Some(pc) && Beats(attacker, Right, pc);
      } else {
        assert Slot(e, Bottom) == Some(pc) && Beats(attacker, Bottom, pc);
      }
    }
  }

  /** When no side is strictly stronger than the card it faces, nothing is captured. */
  lemma EqualOrWeakerNeverCaptures(attacker: Card, e: AdjacentEnemies)
    requires forall d :: Slot(e, d).Some? ==> Facing(attacker, d) <= Facing(Slot(e, d).value.card, Opposite(d))
    ensures Captured(attacker, e) == []
  {
    assert CapturedOn(attacker, e, Top) == [];
    assert CapturedOn(attacker, e, Left) == [];
    assert CapturedOn(attacker, e, Right) == [];
    assert CapturedOn(attacker, e, Bottom) == [];
  }

  /** `calculateCardsBeaten(placedCard, adjacentEnemies)`: one test per side, pushing the card beaten. */
  method CalculateCardsBeaten(fighter: Fighter, e: AdjacentEnemies) returns (beaten: seq<PlacedCard>)
    ensures beaten == Captured(fighter.card, e)
  {
    beaten := [];
    if e.top.Some? && fighter.card.top > e.top.value.card.bottom {
      beaten := beaten + [e.top.value];
    }
    if e.left.Some? && fighter.card.left > e.left.value.card.right {
      beaten := beaten + [e.left.value];
    }
    if e.right.Some? && fighter.card.right > e.right.value.card.left {
      beaten := beaten + [e.right.value];
    }
    if e.bottom.Some? && fighter.card.bottom > e.bottom.value.card.top {
      beaten := beaten + [e.bottom.value];
    }
  }

  /** `changeOwner(placedCard, newOwner)`: every listed card now belongs to `newOwner`. */
  method ChangeOwner(cards: seq<PlacedCard>, newOwner: Player)
    modifies set pc | pc in cards
    ensures forall pc :: pc in cards ==> pc.player == newOwner
  {
    for i := 0 to |cards|
      invariant forall j :: 0 <= j < i ==> cards[j].player == newOwner
    {
      cards[i].player := newOwner;
    }
  }

  /** The subscriber `build` wires to `cardPlaced`. */
  const CheckForBattleHandler := Callback("engine: check for battle")
  /** The subscriber `build` wires to `battleStarted`. */
  const ResolveBattleHandler := Callback("engine: resolve battle")

  /** `GameEngine`: the board it watches and the manager of `battleStarted`. */
  class GameEngine {
    var board: Board
    const battleStarted: EventPool

    ghost predicate Valid()
      reads this, board, board.cardPlaced, board.turnChanged, battleStarted
    {
      board.Valid() && battleStarted.Valid()
      && battleStarted != board.cardPlaced && battleStarted != board.turnChanged
    }

    constructor (board: Board, battleStarted: EventPool)
      ensures this.board == board && this.battleStarted == battleStarted
    {
      this.board := board;
      this.battleStarted := battleStarted;
    }

    /**
     * `checkForBattle(data)` as written: the neighbours come from
     * `detectAdjacentEnemies`, which reads them with `Array.at`; with no
     * enemy around the placed card nothing is emitted, otherwise one
     * `battleStarted` carries the fighter and the four slots.
     */
    method CheckForBattle(data: CardPlaced) returns (emitted: Option<BattleStarted>, invoked: seq<Callback>)
      requires battleStarted.Valid()
      ensures var e := DetectAdjacentEnemiesAsWritten(board.placedCards, data.player, data.position);
        (emitted.None? <==> e == NoEnemies)
        && (emitted.Some? ==> emitted.value == BattleStarted(Fighter(data.player, data.card), e))
      ensures emitted.None? ==> invoked == []
      ensures emitted.Some? ==> invoked == battleStarted.Listeners()
    {
      var e := DetectAdjacentEnemiesAsWritten(board.placedCards, data.player, data.position);
      if e.top.None? && e.left.None? && e.right.None? && e.bottom.None? {
        return None, [];
      }
      emitted := Some(BattleStarted(Fighter(data.player, data.card), e));
      invoked := battleStarted.Dispatch();
    }

    /**
     * `checkForBattle(data)` with the corrected detection, in which a cell
     * before the first one reads as no card.
     */
    method CheckForBattleCorrected(data: CardPlaced) returns (emitted: Option<BattleStarted>, invoked: seq<Callback>)
      requires battleStarted.Valid()
      ensures var e := DetectAdjacentEnemies(board.placedCards, data.player, data.position);
        (emitted.None? <==> e == NoEnemies)
        && (emitted.Some? ==> emitted.value == BattleStarted(Fighter(data.player, data.card), e))
      ensures emitted.None? ==> invoked == []
      ensures emitted.Some? ==> invoked == battleStarted.Listeners()
    {
      var e := DetectAdjacentEnemies(board.placedCards, data.player, data.position);
      if e.top.None? && e.left.None? && e.right.None? && e.bottom.None? {
        return None, [];
      }
      emitted := Some(BattleStarted(Fighter(data.player, data.card), e));
      invoked := battleStarted.Dispatch();
    }

    /**
     * The `battleStarted` subscriber wired in `build`: the defenders the
     * fighter beats change owner to the fighter's player.
     */
    method ResolveBattle(data: BattleStarted)
      modifies set pc | pc in Captured(data.fighter.card, data.defenders)
      ensures forall pc :: pc in Captured(data.fighter.card, data.defenders) ==> pc.player == data.fighter.player
    {
      var beaten := CalculateCardsBeaten(data.fighter, data.defenders);
      ChangeOwner(beaten, data.fighter.player);
    }

    /** `onBattleStarted(fn)`. */
    method OnBattleStarted(subscriptionId: string, fn: Callback)
      requires battleStarted.Valid()
      modifies battleStarted
      ensures battleStarted.Valid()
      ensures battleStarted.subscribers == old(battleStarted.subscribers)[subscriptionId := fn]
      ensures subscriptionId !in old(battleStarted.subscribers) ==>
        battleStarted.Listeners() == old(battleStarted.Listeners()) + [fn]
    {
      var _ := battleStarted.Subscribe(subscriptionId, fn);
    }
  }

  /** `GameEngineBuilder()`: holds the engine under construction. */
  class GameEngineBuilder {
    const engine: GameEngine

    /**
     * The engine starts on `BoardBuilder().build()`, a board whose first
     * player is drawn by `leftStarts` and whose turn switch is subscribed
     * to the shared `cardPlaced` manager.
     */
    constructor (cardPlaced: EventPool, turnChanged: EventPool, battleStarted: EventPool,
                 leftStarts: bool, switchId: string)
      requires cardPlaced != turnChanged && cardPlaced.Valid() && turnChanged.Valid()
      modifies cardPlaced
      ensures fresh(engine) && fresh(engine.board)
      ensures engine.battleStarted == battleStarted
      ensures engine.board.cardPlaced == cardPlaced && engine.board.turnChanged == turnChanged
      ensures engine.board.placedCards == [] && engine.board.Valid()
      ensures engine.board.turn == if leftStarts then engine.board.leftPlayer else engine.board.rightPlayer
      ensures cardPlaced.subscribers == old(cardPlaced.subscribers)[switchId := SwitchTurnsOnPlacement]
      ensures switchId !in old(cardPlaced.subscribers) ==>
        cardPlaced.Listeners() == old(cardPlaced.Listeners()) + [SwitchTurnsOnPlacement]
    {
      var boardBuilder := new BoardBuilder(cardPlaced, turnChanged);
      var board := boardBuilder.Build(None, leftStarts, switchId);
      engine := new GameEngine(board, battleStarted);
    }

    method WithBoard(board: Board) returns (b: GameEngineBuilder)
      modifies engine`board
      ensures b == this && engine.board == board
    {
      engine.board := board;
      b := this;
    }

    /**
     * `build()`: `checkForBattle` listens to the board's `cardPlaced` and
     * the capture handler listens to `battleStarted`.
     */
    method Build(checkId: string, resolveId: string) returns (e: GameEngine)
      requires engine.Valid()
      modifies engine.board.cardPlaced, engine.battleStarted
      ensures e == engine && engine.Valid()
      ensures engine.board.cardPlaced.subscribers == old(engine.board.cardPlaced.subscribers)[checkId := CheckForBattleHandler]
      ensures engine.battleStarted.subscribers == old(engine.battleStarted.subscribers)[resolveId := ResolveBattleHandler]
      ensures checkId !in old(engine.board.cardPlaced.subscribers) ==>
        engine.board.cardPlaced.Listeners() == old(engine.board.cardPlaced.Listeners()) + [CheckForBattleHandler]
      ensures resolveId !in old(engine.battleStarted.subscribers) ==>
        engine.battleStarted.Listeners() == old(engine.battleStarted.Listeners()) + [ResolveBattleHandler]
    {
      var _ := engine.board.cardPlaced.Subscribe(checkId, CheckForBattleHandler);
      var _ := engine.battleStarted.Subscribe(resolveId, ResolveBattleHandler);
      e := engine;
    }
  }
}
