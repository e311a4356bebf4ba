/**
 * Cards of src/modules/game/entities/Card.ts: four directional strengths,
 * set in place by a builder whose setters hand back the card itself.
 */
module Cards {

  /** The four faces of a card, as the capture rule and the AI name them. */
  datatype Direction = Top | Left | Right | Bottom

  /** The face that touches a neighbour lying in direction `d`. */
  function Opposite(d: Direction): (r: Direction)
    ensures r != d
  {
    match d
    case Top => Bottom
    case Bottom => Top
    case Left => Right
    case Right => Left
  }

  /** A card. The game compares cards by identity, so this is a class. */
  class Card {
    var left: int
    var top: int
    var right: int
    var bottom: int

    /** The card record `CardBuilder()` starts from: every strength is 0. */
    constructor ()
      ensures left == 0 && top == 0 && right == 0 && bottom == 0
    {
      left, top, right, bottom := 0, 0, 0, 0;
    }
  }

  /** The strength a card shows in direction `d`. */
  function Facing(c: Card, d: Direction): int
    reads c
  {
    match d
    case Top => c.top
    case Left => c.left
    case Right => c.right
    case Bottom => c.bottom
  }

  /** `CardBuilder()`: holds the card its setters write into. */
  class CardBuilder {
    const card: Card

    constructor ()
      ensures fresh(card)
      ensures card.left == 0 && card.top == 0 && card.right == 0 && card.bottom == 0
    {
      card := new Card();
    }

    /** `withLeft(v)`: sets only `left` and returns the card, not the builder. */
    method WithLeft(v: int) returns (c: Card)
      modifies card
      ensures c == card && card.left == v
      ensures card.top == old(card.top) && card.right == old(card.right) && card.bottom == old(card.bottom)
    {
      card.left := v;
      c := card;
    }

    /** `withTop(v)`: sets only `top` and returns the card. */
    method WithTop(v: int) returns (c: Card)
      modifies card
      ensures c == card && card.top == v
      ensures card.left == old(card.left) && card.right == old(card.right) && card.bottom == old(card.bottom)
    {
      card.top := v;
      c := card;
    }

    /** `withRight(v)`: sets only `right` and returns the card. */
    method WithRight(v: int) returns (c: Card)
      modifies card
      ensures c == card && card.right == v
      ensures card.left == old(card.left) && card.top == old(card.top) && card.bottom == old(card.bottom)
    {
      card.right := v;
      c := card;
    }

    /** `withBottom(v)`: sets only `bottom` and returns the card. */
    method WithBottom(v: int) returns (c: Card)
      modifies card
      ensures c == card && card.bottom == v
      ensures card.left == old(card.left) && card.top == old(card.top) && card.right == old(card.right)
    {
      card.bottom := v;
      c := card;
    }

    /** `build()`: the very object the setters changed. */
    method Build() returns (c: Card)
      ensures c == card
    {
      c := card;
    }
  }
}
