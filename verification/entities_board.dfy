/**
 * The board of src/modules/game/entities/Board.ts (the board type the game
 * engine and `placeCard` use), together with `placeCard` of
 * src/modules/game/aggregates/Player.ts, which writes into that board.
 *
 * The board's `cardPlaced` and `turnChanged` managers are the
 * process-wide managers of those two events, so they are handed to the
 * builder rather than created by it.
 */
module EntitiesBoard {
  import opened Wrappers
  import opened JsArray
  import opened Events
  import opened Cards
  import opened Players
  import opened Grids

  /** The subscriber `build` wires to `cardPlaced`: it hands the turn over. */
  const SwitchTurnsOnPlacement := Callback("board: switch turns")

  class Board {
    var leftPlayer: Player
    var rightPlayer: Player
    /** `placedCards`, a sparse array: `None` is a hole. */
    var placedCards: seq<Option<PlacedCard>>
    /**
     * `cards`, the array `placeCard` writes. The declared board type has no
     * such field and the builder never creates it; it starts empty here.
     */
    var cards: seq<Option<Card>>
    var turn: Player
    const cardPlaced: EventPool
    const turnChanged: EventPool

    ghost predicate Valid()
      reads this, cardPlaced, turnChanged
    {
      cardPlaced != turnChanged && cardPlaced.Valid() && turnChanged.Valid()
    }

    /** The board object `BoardBuilder()` sets up: no cards, the left player to move. */
    constructor (left: Player, right: Player, cardPlaced: EventPool, turnChanged: EventPool)
      ensures leftPlayer == left && rightPlayer == right && turn == left
      ensures placedCards == [] && cards == []
      ensures this.cardPlaced == cardPlaced && this.turnChanged == turnChanged
    {
      leftPlayer, rightPlayer, turn := left, right, left;
      placedCards, cards := [], [];
      this.cardPlaced, this.turnChanged := cardPlaced, turnChanged;
    }

    /** `onCardPlaced(fn)`. */
    method OnCardPlaced(subscriptionId: string, fn: Callback)
      requires Valid()
      modifies cardPlaced
      ensures Valid()
      ensures cardPlaced.subscribers == old(cardPlaced.subscribers)[subscriptionId := fn]
      ensures subscriptionId !in old(cardPlaced.subscribers) ==> cardPlaced.Listeners() == old(cardPlaced.Listeners()) + [fn]
    {
      var _ := cardPlaced.Subscribe(subscriptionId, fn);
    }

    /** `onTurnChanged(fn)`. */
    method OnTurnChanged(subscriptionId: string, fn: Callback)
      requires Valid()
      modifies turnChanged
      ensures Valid()
      ensures turnChanged.subscribers == old(turnChanged.subscribers)[subscriptionId := fn]
      ensures subscriptionId !in old(turnChanged.subscribers) ==> turnChanged.Listeners() == old(turnChanged.Listeners()) + [fn]
    {
      var _ := turnChanged.Subscribe(subscriptionId, fn);
    }

    /**
     * The subscriber `build` wires to `cardPlaced`: the turn passes to the
     * other player and `turnChanged` is emitted carrying the new turn.
     */
    method SwitchTurns() returns (newTurn: Player, invoked: seq<Callback>)
      requires Valid()
      modifies this`turn
      ensures turn == NextTurn(old(turn), leftPlayer, rightPlayer)
      ensures turn == leftPlayer || turn == rightPlayer
      ensures newTurn == turn && invoked == turnChanged.Listeners()
    {
      turn := NextTurn(turn, leftPlayer, rightPlayer);
      newTurn := turn;
      invoked := turnChanged.Dispatch();
    }

    /** `cleanUp()`: drops every `cardPlaced` subscriber; `turnChanged` keeps its own. */
    method CleanUp()
      requires Valid()
      modifies cardPlaced
      ensures Valid() && cardPlaced.Listeners() == []
      ensures turnChanged.order == old(turnChanged.order) && turnChanged.subscribers == old(turnChanged.subscribers)
    {
      cardPlaced.UnsubscribeAll();
    }
  }

  /** `BoardBuilder()`: each setter writes into the board under construction. */
  class BoardBuilder {
    const board: Board

    /** Two fresh default players, no cards, and the left player to move. */
    constructor (cardPlaced: EventPool, turnChanged: EventPool)
      ensures fresh(board) && fresh(board.leftPlayer) && fresh(board.rightPlayer)
      ensures board.leftPlayer != board.rightPlayer
      ensures board.leftPlayer.id == "" && board.leftPlayer.cardsInHand == []
      ensures board.rightPlayer.id == "" && board.rightPlayer.cardsInHand == []
      ensures board.leftPlayer.name == "" && board.leftPlayer.score == 0
      ensures board.rightPlayer.name == "" && board.rightPlayer.score == 0
      ensures board.turn == board.leftPlayer
      ensures board.placedCards == [] && board.cards == []
      ensures board.cardPlaced == cardPlaced && board.turnChanged == turnChanged
    {
      var left := new Player();
      var right := new Player();
      board := new Board(left, right, cardPlaced, turnChanged);
    }

    method WithLeftPlayer(player: Player) returns (b: BoardBuilder)
      modifies board`leftPlayer
      ensures b == this && board.leftPlayer == player
    {
      board.leftPlayer := player;
      b := this;
    }

    method WithRightPlayer(player: Player) returns (b: BoardBuilder)
      modifies board`rightPlayer
      ensures b == this && board.rightPlayer == player
    {
      board.rightPlayer := player;
      b := this;
    }

    /** `withPlayedCards(cards)`: replaces the whole array. */
    method WithPlayedCards(cards: seq<Option<PlacedCard>>) returns (b: BoardBuilder)
      modifies board`placedCards
      ensures b == this && board.placedCards == cards
    {
      board.placedCards := cards;
      b := this;
    }

    /** `withExistingCardPlayed(index, card)`: `placedCards[index] = card`; no other index changes. */
    method WithExistingCardPlayed(index: int, card: PlacedCard) returns (b: BoardBuilder)
      modifies board`placedCards
      ensures b == this
      ensures board.placedCards == Assign(old(board.placedCards), index, Some(card), None)
    {
      board.placedCards := Assign(board.placedCards, index, Some(card), None);
      b := this;
    }

    /**
     * `build(init)`: the turn is `init.turn` when given, otherwise the left
     * or the right player as `leftStarts` (the coin `Math.random() < 0.5`)
     * says; then the turn-switching subscriber is added to `cardPlaced`.
     */
    method Build(init: Option<Player>, leftStarts: bool, subscriptionId: string) returns (b: Board)
      requires board.Valid()
      modifies board`turn, board.cardPlaced
      ensures b == board && board.Valid()
      ensures board.turn == match init
        case Some(p) => p
        case None => if leftStarts then board.leftPlayer else board.rightPlayer
      ensures init.None? ==> board.turn == board.leftPlayer || board.turn == board.rightPlayer
      ensures board.cardPlaced.subscribers == old(board.cardPlaced.subscribers)[subscriptionId := SwitchTurnsOnPlacement]
      ensures subscriptionId !in old(board.cardPlaced.subscribers) ==>
        board.cardPlaced.Listeners() == old(board.cardPlaced.Listeners()) + [SwitchTurnsOnPlacement]
    {
      board.turn := match init
        case Some(p) => p
        case None => if leftStarts then board.leftPlayer else board.rightPlayer;
      var _ := board.cardPlaced.Subscribe(subscriptionId, SwitchTurnsOnPlacement);
      b := board;
    }
  }

  /** The errors `placeCard` throws. */
  datatype PlacementError = NotYourTurn | CardNotOwned | OutOfBounds | Occupied

  /** `placeCard` accepts positions below this hard-coded bound, whatever the grid size. */
  const PositionBound := 10

  /**
   * The checks `placeCard` makes before writing, in their order: the first
   * that fails decides the error.
   */
  function CheckPlacement(player: Player, card: Card, board: Board, position: int): (r: Option<PlacementError>)
    reads player, board
    ensures r == Some(NotYourTurn) <==> board.turn != player
    ensures r == Some(CardNotOwned) <==> board.turn == player && card !in player.cardsInHand
    ensures r == Some(OutOfBounds) <==>
      board.turn == player && card in player.cardsInHand && (position < 0 || position >= PositionBound)
    ensures r == Some(Occupied) <==>
      board.turn == player && card in player.cardsInHand && 0 <= position < PositionBound
      && Lookup(board.cards, position).Some?
    ensures r == None <==>
      board.turn == player && card in player.cardsInHand && 0 <= position < PositionBound
      && Lookup(board.cards, position).None?
  {
    if board.turn != player then Some(NotYourTurn)
    else if card !in player.cardsInHand then Some(CardNotOwned)
    else if position < 0 || position >= PositionBound then Some(OutOfBounds)
    else if Lookup(board.cards, position).Some? then Some(Occupied)
    else None
  }

  /**
   * `player.placeCard(card, board, position)`: on success the card is
   * written at `position` and `cardPlaced` is emitted (the result lists the
   * subscribers reached); on failure nothing changes and nothing is emitted.
   * The hand is left as it was.
   */
  method PlaceCard(player: Player, card: Card, board: Board, position: int)
    returns (r: Result<seq<Callback>, PlacementError>)
    requires board.Valid()
    modifies board`cards
    ensures r.Failure? <==> old(CheckPlacement(player, card, board, position)).Some?
    ensures r.Failure? ==> Some(r.error) == old(CheckPlacement(player, card, board, position))
    ensures r.Failure? ==> board.cards == old(board.cards)
    ensures r.Success? ==> board.cards == Assign(old(board.cards), position, Some(card), None)
    ensures r.Success? ==> r.value == board.cardPlaced.Listeners()
    ensures player.cardsInHand == old(player.cardsInHand)
  {
    var check := CheckPlacement(player, card, board, position);
    if check.Some? {
      return Failure(check.value);
    }
    board.cards := Assign(board.cards, position, Some(card), None);
    var invoked := board.cardPlaced.Dispatch();
    r := Success(invoked);
  }
}
