/**
 * The offensive computer player of
 * src/modules/game/repositories/OffensiveStrategy.ts: every empty slot next
 * to an enemy is scored for every card in hand, and the best pair is played.
 */
module OffensiveStrategy {
  import opened Wrappers
  import opened JsArray
  import opened Squares
  import opened Cards
  import opened Players
  import opened Grids
  import opened CommonStrategy

  /** The default `killBonus` of `getNeighbourPowerDiff`. */
  const KillBonus := 5

  /** A difference below zero means the placed card wins that side: the bonus is added. */
  function WithKillBonus(d: int): int
  {
    if d < 0 then d + KillBonus else d
  }

  /** How far the neighbour in direction `d` lies from a cell of an `n`-wide grid. */
  function Offset(d: Direction, n: int): int
  {
    match d
    case Left => -1
    case Right => 1
    case Top => -n
    case Bottom => n
  }

  /**
   * What a card placed at `target` earns from the cell in direction `d`:
   * nothing for an empty cell; otherwise the neighbour's facing strength
   * minus the card's, plus the kill bonus when that is negative. The
   * neighbour's owner plays no part.
   */
  function Contribution(g: Grid, card: Card, target: int, d: Direction): int
    requires IsSquare(|g|)
    reads card, Footprint(g)
  {
    match Lookup(g, target + Offset(d, Side(|g|)))
    case None => 0
    case Some(e) => WithKillBonus(Facing(e.card, Opposite(d)) - Facing(card, d))
  }

  /**
   * `getNeighbourPowerDiff(grid, card, targetPosition, enemyPosition)`: the
   * branches test left, right, top and bottom in that order. On a grid at
   * least two wide the four offsets differ, so the branch taken is the
   * direction the neighbour lies in.
   */
  function GetNeighbourPowerDiff(g: Grid, card: Card, target: int, enemyPosition: int): (r: int)
    requires IsSquare(|g|)
    reads card, Footprint(g)
    ensures Lookup(g, enemyPosition).None? ==> r == 0
    ensures forall d :: Side(|g|) >= 2 && enemyPosition == target + Offset(d, Side(|g|)) ==>
      r == Contribution(g, card, target, d)
    ensures (enemyPosition != target - 1 && enemyPosition != target + 1 &&
             enemyPosition != target - Side(|g|) && enemyPosition != target + Side(|g|)) ==> r == 0
  {
    var n := Side(|g|);
    match Lookup(g, enemyPosition)
    case None => 0
    case Some(enemy) =>
      if enemyPosition == target - 1 then
        WithKillBonus(enemy.card.right - card.left)
      else if enemyPosition == target + 1 then
        WithKillBonus(enemy.card.left - card.right)
      else if enemyPosition == target - n then
        WithKillBonus(enemy.card.bottom - card.top)
      else if enemyPosition == target + n then
        WithKillBonus(enemy.card.top - card.bottom)
      else
        0
  }

  /** `scoreByNeighbourg.reduce((acc, power) => acc + power, 0)` over the listed neighbours. */
  function SumPowerDiffs(g: Grid, card: Card, target: int, neighbours: seq<int>): int
    requires IsSquare(|g|)
    reads card, Footprint(g)
  {
    if neighbours == [] then 0
    else
      SumPowerDiffs(g, card, target, neighbours[..|neighbours| - 1])
      + GetNeighbourPowerDiff(g, card, target, neighbours[|neighbours| - 1])
  }

  lemma {:induction false} SumPowerDiffsAppend(g: Grid, card: Card, target: int, a: seq<int>, b: seq<int>)
    requires IsSquare(|g|)
    ensures SumPowerDiffs(g, card, target, a + b) == SumPowerDiffs(g, card, target, a) + SumPowerDiffs(g, card, target, b)
    decreases |b|
  {
    if b == [] {
      assert a + b == a;
    } else {
      assert (a + b)[..|a + b| - 1] == a + b[..|b| - 1];
      SumPowerDiffsAppend(g, card, target, a, b[..|b| - 1]);
    }
  }

  /** `getScoreForPlacement(grid, card, destination)`. */
  function ScoreForPlacement(g: Grid, card: Card, destination: int): (r: EvaluatedPosition)
    requires IsSquare(|g|) && |g| > 0
    reads card, Footprint(g)
    ensures r.position == destination
  {
    EvaluatedPosition(destination, SumPowerDiffs(g, card, destination, GetNeighbours(destination, Side(|g|))))
  }

  /** What the side in direction `d` adds to the score of a card placed at `destination`. */
  function SideScore(g: Grid, card: Card, destination: int, d: Direction): int
    requires IsSquare(|g|) && |g| > 0
    reads card, Footprint(g)
  {
    var n := Side(|g|);
    if Adjacent(destination, destination + Offset(d, n), n) then Contribution(g, card, destination, d) else 0
  }

  /**
   * The score of a placement on the grid is the sum, over the four sides
   * that have a neighbouring cell, of that side's contribution.
   */
  lemma ScoreByDirection(g: Grid, card: Card, destination: int)
    requires IsSquare(|g|) && 0 <= destination < |g|
    ensures ScoreForPlacement(g, card, destination).score ==
      SideScore(g, card, destination, Top) + SideScore(g, card, destination, Bottom)
      + SideScore(g, card, destination, Left) + SideScore(g, card, destination, Right)
  {
    ScoreAsFourParts(g, card, destination);
    SingleSide(g, card, destination, Top);
    SingleSide(g, card, destination, Bottom);
    SingleSide(g, card, destination, Left);
    SingleSide(g, card, destination, Right);
  }

  /** The part of the score that the neighbour in direction `d`, if any, brings. */
  function SidePart(g: Grid, card: Card, destination: int, d: Direction): int
    requires IsSquare(|g|) && |g| > 0
    reads card, Footprint(g)
  {
    var n := Side(|g|);
    SumPowerDiffs(g, card, destination, PartList(destination, Offset(d, n), n))
  }

  lemma ScoreAsFourParts(g: Grid, card: Card, destination: int)
    requires IsSquare(|g|) && 0 <= destination < |g|
    ensures ScoreForPlacement(g, card, destination).score ==
      SidePart(g, card, destination, Top) + SidePart(g, card, destination, Bottom)
      + SidePart(g, card, destination, Left) + SidePart(g, card, destination, Right)
  {
    var n: int := Side(|g|);
    var t := PartList(destination, -n, n);
    var b := PartList(destination, n, n);
    var l := PartList(destination, -1, n);
    var r := PartList(destination, 1, n);
    NeighboursAsParts(destination, n);
    assert SidePart(g, card, destination, Top) == SumPowerDiffs(g, card, destination, t);
    assert SidePart(g, card, destination, Bottom) == SumPowerDiffs(g, card, destination, b);
    assert SidePart(g, card, destination, Left) == SumPowerDiffs(g, card, destination, l);
    assert SidePart(g, card, destination, Right) == SumPowerDiffs(g, card, destination, r);
    SumOfFour(g, card, destination, t, b, l, r);
  }

  /** The neighbour at `offset`, listed when it is adjacent. */
  function PartList(destination: int, offset: int, n: int): seq<int>
  {
    if Adjacent(destination, destination + offset, n) then [destination + offset] else []
  }

  lemma NeighboursAsParts(destination: int, n: int)
    requires n > 0 && 0 <= destination < n * n
    ensures GetNeighbours(destination, n) ==
      PartList(destination, -n, n) + PartList(destination, n, n) + PartList(destination, -1, n) + PartList(destination, 1, n)
  {
    PushedAreAdjacent(destination, n);
  }

  lemma SumOfFour(g: Grid, card: Card, destination: int, t: seq<int>, b: seq<int>, l: seq<int>, r: seq<int>)
    requires IsSquare(|g|)
    ensures SumPowerDiffs(g, card, destination, t + b + l + r) ==
      SumPowerDiffs(g, card, destination, t) + SumPowerDiffs(g, card, destination, b)
      + SumPowerDiffs(g, card, destination, l) + SumPowerDiffs(g, card, destination, r)
  {
    SumPowerDiffsAppend(g, card, destination, t + b + l, r);
    SumPowerDiffsAppend(g, card, destination, t + b, l);
    SumPowerDiffsAppend(g, card, destination, t, b);
  }

  lemma SingleSide(g: Grid, card: Card, destination: int, d: Direction)
    requires IsSquare(|g|) && 0 <= destination < |g|
    ensures SidePart(g, card, destination, d) == SideScore(g, card, destination, d)
  {
    var n := Side(|g|);
    var k := destination + Offset(d, n);
    AdjacentNeedsTwoColumns(destination, k, n);
    if Adjacent(destination, k, n) {
      assert [k][..0] == [];
      assert SumPowerDiffs(g, card, destination, [k]) == GetNeighbourPowerDiff(g, card, destination, k);
    }
  }

  /** A one-column grid has no adjacent cells. */
  lemma AdjacentNeedsTwoColumns(i: int, j: int, n: int)
    ensures Adjacent(i, j, n) ==> n >= 2
  {
    if n == 1 {
      assert i % n == 0 && j % n == 0;
    }
  }

  datatype Move = Move(position: int, score: int, card: Card)

  function MoveScore(m: Move): int
  {
    m.score
  }

  /** `emptySlots.map((position) => getScoreForPlacement(grid, card, position))`. */
  function Evaluations(g: Grid, card: Card, slots: seq<int>): (r: seq<EvaluatedPosition>)
    requires IsSquare(|g|) && |g| > 0
    reads card, Footprint(g)
    ensures |r| == |slots|
    ensures forall i :: 0 <= i < |slots| ==> r[i] == ScoreForPlacement(g, card, slots[i])
  {
    if slots == [] then []
    else Evaluations(g, card, slots[..|slots| - 1]) + [ScoreForPlacement(g, card, slots[|slots| - 1])]
  }

  /**
   * `position` is a slot of `slots` with the best score for `card`, and
   * the first such slot.
   */
  ghost predicate IsBestSlot(g: Grid, card: Card, slots: seq<int>, position: int, score: int)
    requires IsSquare(|g|) && |g| > 0
    reads card, Footprint(g)
  {
    exists k :: 0 <= k < |slots| && slots[k] == position
      && score == ScoreForPlacement(g, card, position).score
      && (forall i :: 0 <= i < |slots| ==> ScoreForPlacement(g, card, slots[i]).score <= score)
      && (forall i :: 0 <= i < k ==> ScoreForPlacement(g, card, slots[i]).score < score)
  }

  /** The entry `bestOffensiveMoveByCard` builds for one card: its best slot and that slot's score. */
  function BestMoveFor(g: Grid, card: Card, slots: seq<int>): (m: Move)
    requires IsSquare(|g|) && |g| > 0 && |slots| > 0
    reads card, Footprint(g)
    ensures m.card == card
  {
    var best := SelectPlacement(Evaluations(g, card, slots));
    Move(best.position, best.score, card)
  }

  /** The entry built for a card holds the first slot where that card scores best. */
  lemma BestMoveForIsBest(g: Grid, card: Card, slots: seq<int>)
    requires IsSquare(|g|) && |g| > 0 && |slots| > 0
    ensures var m := BestMoveFor(g, card, slots); IsBestSlot(g, card, slots, m.position, m.score)
  {
    var evaluated := Evaluations(g, card, slots);
    var best := SelectPlacement(evaluated);
    var k :| 0 <= k < |evaluated| && evaluated[k] == best
      && forall i :: 0 <= i < k ==> evaluated[i].score < best.score;
    assert forall i :: 0 <= i < |slots| ==> evaluated[i] in evaluated;
  }

  /** `cards.map(...)` of `bestOffensiveMoveByCard`, over the slots it computed once. */
  function MovesFor(g: Grid, cards: seq<Card>, slots: seq<int>): (r: seq<Move>)
    requires IsSquare(|g|) && (|cards| == 0 || (|g| > 0 && |slots| > 0))
    reads cards, Footprint(g)
    ensures |r| == |cards|
    ensures forall i :: 0 <= i < |cards| ==> r[i] == BestMoveFor(g, cards[i], slots)
  {
    seq(|cards|, i requires 0 <= i < |cards| reads cards, Footprint(g) => BestMoveFor(g, cards[i], slots))
  }

  /**
   * `bestOffensiveMoveByCard(grid, cards, player)`: one entry per card, in
   * hand order, holding the card and its best enemy-adjacent empty slot.
   * With a card in hand and no such slot, `reduce` throws.
   */
  function BestOffensiveMoveByCard(g: Grid, cards: seq<Card>, player: Player): (r: seq<Move>)
    requires IsSquare(|g|)
    requires |cards| == 0 || |EnemyAdjacentSlots(g, player, |g|)| > 0
    reads cards, Footprint(g)
    ensures |r| == |cards|
    ensures forall i :: 0 <= i < |cards| ==>
      r[i].card == cards[i] && IsBestSlot(g, cards[i], EnemyAdjacentSlots(g, player, |g|), r[i].position, r[i].score)
  {
    var slots := EnemyAdjacentSlots(g, player, |g|);
    var r := MovesFor(g, cards, slots);
    assert forall i :: 0 <= i < |cards| ==> IsBestSlot(g, cards[i], slots, r[i].position, r[i].score) by {
      forall i | 0 <= i < |cards| ensures IsBestSlot(g, cards[i], slots, r[i].position, r[i].score) {
        BestMoveForIsBest(g, cards[i], slots);
      }
    }
    r
  }

  /** `chooseBestCard(possibleMoves)`: the first entry with the best score. */
  function ChooseBestCard(moves: seq<Move>): (r: Move)
    requires |moves| > 0
    ensures r in moves
    ensures forall m :: m in moves ==> m.score <= r.score
    ensures exists k :: 0 <= k < |moves| && moves[k] == r &&
                        forall i :: 0 <= i < k ==> moves[i].score < r.score
  {
    moves[BestIndex(moves, MoveScore)]
  }

  /** A score that no card of `hand` reaches on any slot of `slots` with a better one. */
  ghost predicate Unbeaten(g: Grid, hand: seq<Card>, slots: seq<int>, score: int)
    requires IsSquare(|g|) && |g| > 0
    reads hand, Footprint(g)
  {
    forall c, s :: c in hand && s in slots ==> ScoreForPlacement(g, c, s).score <= score
  }

  /** `card` is the first card of `hand` that reaches `score` on some slot; every earlier card stays below it. */
  ghost predicate FirstToReach(g: Grid, hand: seq<Card>, slots: seq<int>, card: Card, score: int)
    requires IsSquare(|g|) && |g| > 0
    reads hand, Footprint(g)
  {
    exists k :: 0 <= k < |hand| && hand[k] == card &&
                forall i, s :: 0 <= i < k && s in slots ==> ScoreForPlacement(g, hand[i], s).score < score
  }

  /**
   * `Strategy().computeMove(grid, player)`: a card of the hand and an
   * enemy-adjacent empty slot whose score no other card and slot beats;
   * among equally good cards, the earliest in the hand. With an empty hand
   * or no enemy-adjacent empty slot, one of the seedless `reduce` calls
   * throws: that is `None`.
   */
  function ComputeMove(g: Grid, player: Player): (r: Option<Move>)
    requires IsSquare(|g|)
    reads player, player.cardsInHand, Footprint(g)
    ensures r.None? <==> |player.cardsInHand| == 0 || |EnemyAdjacentSlots(g, player, |g|)| == 0
    ensures r.Some? ==>
              |g| > 0
              && r.value.card in player.cardsInHand
              && r.value.position in EnemyAdjacentSlots(g, player, |g|)
              && r.value.score == ScoreForPlacement(g, r.value.card, r.value.position).score
              && Unbeaten(g, player.cardsInHand, EnemyAdjacentSlots(g, player, |g|), r.value.score)
              && FirstToReach(g, player.cardsInHand, EnemyAdjacentSlots(g, player, |g|), r.value.card, r.value.score)
  {
    var hand := player.cardsInHand;
    var slots := EnemyAdjacentSlots(g, player, |g|);
    if |hand| == 0 || |slots| == 0 then None
    else
      assert slots[0] in slots;
      BestMoveIsGlobal(g, hand, player);
      Some(ChooseBestCard(BestOffensiveMoveByCard(g, hand, player)))
  }

  /** The entry `chooseBestCard` picks beats every card on every slot. */
  lemma BestMoveIsGlobal(g: Grid, hand: seq<Card>, player: Player)
    requires IsSquare(|g|) && |hand| > 0 && |EnemyAdjacentSlots(g, player, |g|)| > 0
    ensures |g| > 0
    ensures var slots := EnemyAdjacentSlots(g, player, |g|);
      var best := ChooseBestCard(BestOffensiveMoveByCard(g, hand, player));
      best.card in hand && best.position in slots &&
      best.score == ScoreForPlacement(g, best.card, best.position).score &&
      Unbeaten(g, hand, slots, best.score) && FirstToReach(g, hand, slots, best.card, best.score)
  {
    var slots := EnemyAdjacentSlots(g, player, |g|);
    assert slots[0] in slots;
    var moves := BestOffensiveMoveByCard(g, hand, player);
    var k := BestIndex(moves, MoveScore);
    assert forall m :: m in moves ==> m.score <= moves[k].score;
    BestEntryIsGlobal(g, hand, slots, moves, k);
  }

  lemma BestEntryIsGlobal(g: Grid, hand: seq<Card>, slots: seq<int>, moves: seq<Move>, k: int)
    requires IsSquare(|g|) && |g| > 0 && |slots| > 0
    requires |moves| == |hand|
    requires forall i :: 0 <= i < |hand| ==> moves[i].card == hand[i] && IsBestSlot(g, hand[i], slots, moves[i].position, moves[i].score)
    requires 0 <= k < |moves|
    requires forall m :: m in moves ==> m.score <= moves[k].score
    requires forall i :: 0 <= i < k ==> moves[i].score < moves[k].score
    ensures moves[k].card in hand && moves[k].position in slots
    ensures moves[k].score == ScoreForPlacement(g, moves[k].card, moves[k].position).score
    ensures Unbeaten(g, hand, slots, moves[k].score) && FirstToReach(g, hand, slots, moves[k].card, moves[k].score)
  {
    var best := moves[k];
    assert IsBestSlot(g, hand[k], slots, best.position, best.score);
    forall c, s | c in hand && s in slots
      ensures ScoreForPlacement(g, c, s).score <= best.score
    {
      var i :| 0 <= i < |hand| && hand[i] == c;
      var j :| 0 <= j < |slots| && slots[j] == s;
      assert IsBestSlot(g, hand[i], slots, moves[i].position, moves[i].score);
      assert moves[i] in moves;
    }
    forall i, s | 0 <= i < k && s in slots
      ensures ScoreForPlacement(g, hand[i], s).score < best.score
    {
      var j :| 0 <= j < |slots| && slots[j] == s;
      assert IsBestSlot(g, hand[i], slots, moves[i].position, moves[i].score);
    }
  }
}
