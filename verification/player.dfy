/**
 * Players of src/modules/game/aggregates/Player.ts and the turn rule the
 * boards apply after every placement. `placeCard` itself is modelled in
 * module EntitiesBoard, beside the board it writes.
 */
module Players {
  import opened Cards

  /** A player; the game compares players by identity (`===`). */
  class Player {
    var id: string
    var name: string
    var score: int
    var cardsInHand: seq<Card>

    /** The record `PlayerBuilder()` starts from. */
    constructor ()
      ensures id == "" && name == "" && score == 0 && cardsInHand == []
    {
      id, name, score, cardsInHand := "", "", 0, [];
    }
  }

  /** `PlayerBuilder()`: each setter writes one field of the player and returns the builder. */
  class PlayerBuilder {
    const player: Player

    constructor ()
      ensures fresh(player)
      ensures player.id == "" && player.name == "" && player.score == 0 && player.cardsInHand == []
    {
      player := new Player();
    }

    method WithId(id: string) returns (b: PlayerBuilder)
      modifies player
      ensures b == this && player.id == id
      ensures player.name == old(player.name) && player.score == old(player.score)
      ensures player.cardsInHand == old(player.cardsInHand)
    {
      player.id := id;
      b := this;
    }

    method WithName(name: string) returns (b: PlayerBuilder)
      modifies player
      ensures b == this && player.name == name
      ensures player.id == old(player.id) && player.score == old(player.score)
      ensures player.cardsInHand == old(player.cardsInHand)
    {
      player.name := name;
      b := this;
    }

    method WithScore(score: int) returns (b: PlayerBuilder)
      modifies player
      ensures b == this && player.score == score
      ensures player.id == old(player.id) && player.name == old(player.name)
      ensures player.cardsInHand == old(player.cardsInHand)
    {
      player.score := score;
      b := this;
    }

    method WithCardsInHand(cardsInHand: seq<Card>) returns (b: PlayerBuilder)
      modifies player
      ensures b == this && player.cardsInHand == cardsInHand
      ensures player.id == old(player.id) && player.name == old(player.name)
      ensures player.score == old(player.score)
    {
      player.cardsInHand := cardsInHand;
      b := this;
    }

    method Build() returns (p: Player)
      ensures p == player
    {
      p := player;
    }
  }

  /**
   * `PlayerAreEqual`, which both boards import from aggregates/Player.ts.
   * That file does not define it; it is taken here to compare ids.
   */
  predicate PlayerAreEqual(a: Player, b: Player)
    reads a, b
  {
    a.id == b.id
  }

  /**
   * The turn after a card is placed: the right player if the current turn
   * equals the left player, the left player otherwise.
   */
  function NextTurn(turn: Player, left: Player, right: Player): (r: Player)
    reads turn, left, right
    ensures r == left || r == right
    ensures (turn == left || turn == right) && left.id != right.id ==> r != turn
  {
    if PlayerAreEqual(turn, left) then right else left
  }

  /** With two players of different ids, two placements give the turn back. */
  lemma NextTurnTwice(turn: Player, left: Player, right: Player)
    requires turn == left || turn == right
    requires left.id != right.id
    ensures NextTurn(NextTurn(turn, left, right), left, right) == turn
  {
  }

  /**
   * When both players carry the same id (the builder default is ''),
   * the turn goes to the right player after every placement.
   */
  lemma SameIdsStickToRight(turn: Player, left: Player, right: Player)
    requires turn == left || turn == right
    requires left.id == right.id
    ensures NextTurn(turn, left, right) == right
  {
  }
}
