/**
 * The newer board of src/modules/game/aggregates/Board.ts. It differs from
 * the board in `EntitiesBoard` in two ways: each board gets managers of its
 * own instead of sharing process-wide ones, and `cleanUp` clears both.
 */
module AggregatesBoard {
  import opened Wrappers
  import opened JsArray
  import opened Events
  import opened Players
  import opened Grids

  /** The subscriber `build` wires to `cardPlaced`: it hands the turn over. */
  const SwitchTurnsOnPlacement := Callback("board: switch turns")

  class Board {
    var leftPlayer: Player
    var rightPlayer: Player
    /** `placedCards`, a sparse array: `None` is a hole. */
    var placedCards: seq<Option<PlacedCard>>
    var turn: Player
    const cardPlaced: EventPool
    const turnChanged: EventPool

    ghost predicate Valid()
      reads this, cardPlaced, turnChanged
    {
      cardPlaced != turnChanged && cardPlaced.Valid() && turnChanged.Valid()
    }

    /** The board object `BoardBuilder()` sets up, with two new, empty managers. */
    constructor (left: Player, right: Player)
      ensures Valid()
      ensures leftPlayer == left && rightPlayer == right && turn == left
      ensures placedCards == []
      ensures fresh(cardPlaced) && fresh(turnChanged)
      ensures cardPlaced.Listeners() == [] && turnChanged.Listeners() == []
    {
      leftPlayer, rightPlayer, turn := left, right, left;
      placedCards := [];
      cardPlaced := new EventPool("cardPlaced");
      turnChanged := new EventPool("turnChanged");
    }

    /** `onCardPlaced(fn)`. */
    method OnCardPlaced(subscriptionId: string, fn: Callback)
      requires Valid()
      modifies cardPlaced
      ensures Valid()
      ensures cardPlaced.subscribers == old(cardPlaced.subscribers)[subscriptionId := fn]
      ensures subscriptionId !in old(cardPlaced.subscribers) ==> cardPlaced.Listeners() == old(cardPlaced.Listeners()) + [fn]
    {
      var _ := cardPlaced.Subscribe(subscriptionId, fn);
    }

    /** `onTurnChanged(fn)`. */
    method OnTurnChanged(subscriptionId: string, fn: Callback)
      requires Valid()
      modifies turnChanged
      ensures Valid()
      ensures turnChanged.subscribers == old(turnChanged.subscribers)[subscriptionId := fn]
      ensures subscriptionId !in old(turnChanged.subscribers) ==> turnChanged.Listeners() == old(turnChanged.Listeners()) + [fn]
    {
      var _ := turnChanged.Subscribe(subscriptionId, fn);
    }

    /**
     * The subscriber `build` wires to `cardPlaced`: the turn passes to the
     * other player and `turnChanged` is emitted carrying the new turn.
     */
    method SwitchTurns() returns (newTurn: Player, invoked: seq<Callback>)
      requires Valid()
      modifies this`turn
      ensures turn == NextTurn(old(turn), leftPlayer, rightPlayer)
      ensures turn == leftPlayer || turn == rightPlayer
      ensures newTurn == turn && invoked == turnChanged.Listeners()
    {
      turn := NextTurn(turn, leftPlayer, rightPlayer);
      newTurn := turn;
      invoked := turnChanged.Dispatch();
    }

    /** `cleanUp()`: drops every subscriber of both managers. */
    method CleanUp()
      requires Valid()
      modifies cardPlaced, turnChanged
      ensures Valid()
      ensures cardPlaced.Listeners() == [] && turnChanged.Listeners() == []
    {
      cardPlaced.UnsubscribeAll();
      turnChanged.UnsubscribeAll();
    }
  }

  /** `BoardBuilder()`: each setter writes into the board under construction. */
  class BoardBuilder {
    const board: Board

    /** Two fresh default players, an empty grid, and the left player to move. */
    constructor ()
      ensures fresh(board) && fresh(board.leftPlayer) && fresh(board.rightPlayer)
      ensures fresh(board.cardPlaced) && fresh(board.turnChanged) && board.Valid()
      ensures board.leftPlayer != board.rightPlayer
      ensures board.leftPlayer.id == "" && board.leftPlayer.cardsInHand == []
      ensures board.rightPlayer.id == "" && board.rightPlayer.cardsInHand == []
      ensures board.leftPlayer.name == "" && board.leftPlayer.score == 0
      ensures board.rightPlayer.name == "" && board.rightPlayer.score == 0
      ensures board.turn == board.leftPlayer && board.placedCards == []
    {
      var left := new Player();
      var right := new Player();
      board := new Board(left, right);
    }

    method WithLeftPlayer(player: Player) returns (b: BoardBuilder)
      modifies board`leftPlayer
      ensures b == this && board.leftPlayer == player
    {
      board.leftPlayer := player;
      b := this;
    }

    method WithRightPlayer(player: Player) returns (b: BoardBuilder)
      modifies board`rightPlayer
      ensures b == this && board.rightPlayer == player
    {
      board.rightPlayer := player;
      b := this;
    }

    /** `withPlayedCards(cards)`: replaces the whole array. */
    method WithPlayedCards(cards: seq<Option<PlacedCard>>) returns (b: BoardBuilder)
      modifies board`placedCards
      ensures b == this && board.placedCards == cards
    {
      board.placedCards := cards;
      b := this;
    }

    /** `withExistingCardPlayed(index, card)`: `placedCards[index] = card`; no other index changes. */
    method WithExistingCardPlayed(index: int, card: PlacedCard) returns (b: BoardBuilder)
      modifies board`placedCards
      ensures b == this
      ensures board.placedCards == Assign(old(board.placedCards), index, Some(card), None)
    {
      board.placedCards := Assign(board.placedCards, index, Some(card), None);
      b := this;
    }

    /**
     * `build(init)`: the turn is `init.turn` when given, otherwise the left
     * or the right player as `leftStarts` (the coin `Math.random() < 0.5`)
     * says; then the turn-switching subscriber is added to `cardPlaced`.
     */
    method Build(init: Option<Player>, leftStarts: bool, subscriptionId: string) returns (b: Board)
      requires board.Valid()
      modifies board`turn, board.cardPlaced
      ensures b == board && board.Valid()
      ensures board.turn == match init
        case Some(p) => p
        case None => if leftStarts then board.leftPlayer else board.rightPlayer
      ensures init.None? ==> board.turn == board.leftPlayer || board.turn == board.rightPlayer
      ensures board.cardPlaced.subscribers == old(board.cardPlaced.subscribers)[subscriptionId := SwitchTurnsOnPlacement]
      ensures subscriptionId !in old(board.cardPlaced.subscribers) ==>
        board.cardPlaced.Listeners() == old(board.cardPlaced.Listeners()) + [SwitchTurnsOnPlacement]
    {
      board.turn := match init
        case Some(p) => p
        case None => if leftStarts then board.leftPlayer else board.rightPlayer;
      var _ := board.cardPlaced.Subscribe(subscriptionId, SwitchTurnsOnPlacement);
      b := board;
    }
  }
}
