/**
 * The grid of src/modules/game/aggregates/Grid.ts and the placed card of
 * src/modules/game/aggregates/PlacedCard.ts.
 */
module Grids {
  import opened Wrappers
  import opened JsArray
  import opened Squares
  import opened Cards
  import opened Players

  /** A card on the grid together with its owner; capturing a card reassigns `player`. */
  class PlacedCard {
    const card: Card
    var player: Player

    constructor (card: Card, player: Player)
      ensures this.card == card && this.player == player
    {
      this.card := card;
      this.player := player;
    }
  }

  /** A grid as the strategies read it: `null` (no card) is `None`. */
  type Grid = seq<Option<PlacedCard>>

  /** The placed cards of a grid and the cards they carry: what reading a grid touches. */
  ghost function Footprint(g: Grid): set<object>
  {
    (set i | 0 <= i < |g| && g[i].Some? :: g[i].value as object)
    + (set i | 0 <= i < |g| && g[i].Some? :: g[i].value.card as object)
  }

  /**
   * A cell of the array the builder fills: a hole (an index never written),
   * an explicit `null`, or a placed card.
   */
  datatype Slot = Hole | Null | Filled(placed: PlacedCard)

  /**
   * `Array.prototype.map`: the callback runs on every present element;
   * holes are skipped and stay holes in the result.
   */
  function MapSkippingHoles(s: seq<Slot>, f: Slot -> Slot): (r: seq<Slot>)
    ensures |r| == |s|
    ensures forall i :: 0 <= i < |s| ==> r[i] == if s[i] == Hole then Hole else f(s[i])
  {
    if s == [] then [] else MapSkippingHoles(s[..|s| - 1], f) + [if s[|s| - 1] == Hole then Hole else f(s[|s| - 1])]
  }

  /** The callback `cell => cell ?? null`. */
  function OrNull(cell: Slot): Slot
  {
    if cell == Hole then Null else cell
  }

  /** The grid a builder's array denotes once every hole and `null` reads as "no card". */
  function Normalize(s: seq<Slot>): (g: Grid)
    ensures |g| == |s|
    ensures forall i :: 0 <= i < |s| ==> (g[i].Some? <==> s[i].Filled?)
    ensures forall i :: 0 <= i < |s| && s[i].Filled? ==> g[i].value == s[i].placed
  {
    if s == [] then []
    else Normalize(s[..|s| - 1]) + [if s[|s| - 1].Filled? then Some(s[|s| - 1].placed) else None]
  }

  datatype GridError = NotAPerfectSquare

  /** `GridBuilder()`: an array of cells that `ofSize` and `withCard` extend. */
  class GridBuilder {
    var grid: seq<Slot>

    constructor ()
      ensures grid == []
    {
      grid := [];
    }

    /**
     * `ofSize(size)`: fails unless `size` is a perfect square, and otherwise
     * pushes `size` nulls onto whatever the builder already holds.
     */
    method OfSize(size: int) returns (r: Result<GridBuilder, GridError>)
      modifies this
      ensures r.Success? <==> size >= 0 && exists n: nat :: n * n == size
      ensures r.Success? ==> r.value == this && grid == old(grid) + seq(size, _ => Null)
      ensures r.Failure? ==> r.error == NotAPerfectSquare && grid == old(grid)
    {
      IsSquareIff(size);
      if !IsSquare(size) {
        return Failure(NotAPerfectSquare);
      }
      var i := 0;
      while i < size
        invariant 0 <= i <= size
        invariant grid == old(grid) + seq(i, _ => Null)
      {
        grid := grid + [Null];
        i := i + 1;
      }
      r := Success(this);
    }

    /** `withCard(index, card)`: `grid[index] = card`, growing the array with holes if needed. */
    method WithCard(index: int, card: PlacedCard) returns (b: GridBuilder)
      modifies this
      ensures b == this && grid == Assign(old(grid), index, Filled(card), Hole)
    {
      grid := Assign(grid, index, Filled(card), Hole);
      b := this;
    }

    /**
     * `build()` as written: `grid.map((cell) => cell ?? null)`. Because `map`
     * skips holes, every hole survives into the returned grid.
     */
    method BuildAsWritten() returns (g: seq<Slot>)
      modifies this
      ensures g == grid && |g| == |old(grid)|
      ensures forall i :: 0 <= i < |g| ==> (g[i] == Hole <==> old(grid)[i] == Hole)
      ensures forall i :: 0 <= i < |g| && old(grid)[i] != Hole ==> g[i] == old(grid)[i]
    {
      grid := MapSkippingHoles(grid, OrNull);
      g := grid;
    }

    /**
     * `build()` as evidently intended: every hole becomes `null`, every
     * placed card stays where it is, and the length is kept.
     */
    method Build() returns (g: Grid)
      modifies this
      ensures g == Normalize(old(grid)) && |g| == |old(grid)|
      ensures Hole !in grid && |grid| == |old(grid)|
      ensures forall i :: 0 <= i < |grid| ==> grid[i] == OrNull(old(grid)[i])
      ensures forall i :: 0 <= i < |g| ==> (g[i].Some? <==> old(grid)[i].Filled?)
    {
      var cells := grid;
      g := Normalize(cells);
      grid := seq(|cells|, i requires 0 <= i < |cells| => OrNull(cells[i]));
    }
  }

  /**
   * The discrepancy: a card written past the end of a fresh builder leaves
   * holes in front of it, and the build as written hands them on.
   */
  lemma HoleSurvivesBuildAsWritten(pc: PlacedCard)
    ensures MapSkippingHoles(Assign([], 2, Filled(pc), Hole), OrNull)[0] == Hole
  {
  }

  /**
   * After `ofSize`, writes inside the grid neither grow it nor leave holes,
   * which is why the tests never meet the discrepancy above.
   */
  lemma {:induction false} InRangeWritesKeepShape(s: seq<Slot>, writes: seq<(int, PlacedCard)>)
    requires Hole !in s
    requires forall w :: w in writes ==> 0 <= w.0 < |s|
    ensures |ApplyWrites(s, writes)| == |s| && Hole !in ApplyWrites(s, writes)
    decreases |writes|
  {
    if writes != [] {
      var s' := Assign(s, writes[0].0, Filled(writes[0].1), Hole);
      assert forall j :: 0 <= j < |s'| ==> s'[j] != Hole;
      InRangeWritesKeepShape(s', writes[1..]);
    }
  }

  /** A chain of `withCard` calls. */
  function ApplyWrites(s: seq<Slot>, writes: seq<(int, PlacedCard)>): seq<Slot>
    decreases |writes|
  {
    if writes == [] then s else ApplyWrites(Assign(s, writes[0].0, Filled(writes[0].1), Hole), writes[1..])
  }
}
