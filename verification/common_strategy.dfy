/**
 * The move-search helpers of src/modules/game/repositories/CommonStrategy.ts:
 * neighbours on an n-by-n grid, the empty and enemy-adjacent slot filters,
 * and the seedless `reduce` that keeps the best-scoring entry.
 */
module CommonStrategy {
  import opened Wrappers
  import opened JsArray
  import opened Squares
  import opened Players
  import opened Grids

  /**
   * Cells `i` and `j` of an `n`-wide square grid share a side: same row and
   * neighbouring columns, or same column and neighbouring rows.
   */
  predicate Adjacent(i: int, j: int, n: int)
  {
    n > 0 && 0 <= i < n * n && 0 <= j < n * n &&
    ((i / n == j / n && (i % n == j % n + 1 || j % n == i % n + 1)) ||
     (i % n == j % n && (i / n == j / n + 1 || j / n == i / n + 1)))
  }

  /** Row `q` and column `c` name the cell `q * n + c`. */
  lemma DivModOf(q: int, c: int, n: int)
    requires n > 0 && 0 <= c < n
    ensures (q * n + c) / n == q && (q * n + c) % n == c
  {
    var x := q * n + c;
    var d := x / n;
    assert x == d * n + x % n;
    assert (q - d) * n == x % n - c;
    if q - d >= 1 {
      assert (q - d) * n >= n by { MulAtLeast(q - d, 1, n); }
    } else if q - d <= -1 {
      assert (d - q) * n >= n by { MulAtLeast(d - q, 1, n); }
    }
  }

  lemma MulAtLeast(a: int, b: int, n: int)
    requires n > 0 && a >= b
    ensures a * n >= b * n
  {
    assert a * n - b * n == (a - b) * n;
  }

  /** A cell on the grid has a row and a column below `n`. */
  lemma RowCol(index: int, n: int)
    requires n > 0 && 0 <= index < n * n
    ensures index == (index / n) * n + index % n
    ensures 0 <= index / n < n && 0 <= index % n < n
  {
    if index / n >= n {
      MulAtLeast(index / n, n, n);
    }
  }

  /** Row `r` and column `c` name a cell of the grid exactly when the row is below `n`. */
  lemma CoordsOnGrid(r: int, c: int, n: int)
    requires n > 0 && 0 <= c < n
    ensures 0 <= r * n + c < n * n <==> 0 <= r < n
  {
    if r >= n {
      MulAtLeast(r, n, n);
    } else if r < 0 {
      MulAtLeast(-1, r, n);
    } else {
      MulAtLeast(r, 0, n);
      MulAtLeast(n - 1, r, n);
      assert (n - 1) * n == n * n - n;
    }
  }

  /** Adjacency of two cells given by row and column. */
  lemma AdjacentByCoords(ri: int, ci: int, rj: int, cj: int, n: int)
    requires n > 0 && 0 <= ri < n && 0 <= ci < n && 0 <= cj < n
    ensures Adjacent(ri * n + ci, rj * n + cj, n) <==>
      0 <= rj < n && ((ri == rj && (ci == cj + 1 || cj == ci + 1)) || (ci == cj && (ri == rj + 1 || rj == ri + 1)))
  {
    CoordsOnGrid(ri, ci, n);
    CoordsOnGrid(rj, cj, n);
    DivModOf(ri, ci, n);
    DivModOf(rj, cj, n);
  }

  lemma TopCandidate(index: int, n: int)
    requires n > 0 && 0 <= index < n * n
    ensures index / n - 1 >= 0 <==> Adjacent(index, index - n, n)
  {
    RowCol(index, n);
    var row, col := index / n, index % n;
    assert index - n == (row - 1) * n + col;
    AdjacentByCoords(row, col, row - 1, col, n);
  }

  lemma BottomCandidate(index: int, n: int)
    requires n > 0 && 0 <= index < n * n
    ensures index / n + 1 < n <==> Adjacent(index, index + n, n)
  {
    RowCol(index, n);
    var row, col := index / n, index % n;
    assert index + n == (row + 1) * n + col;
    AdjacentByCoords(row, col, row + 1, col, n);
  }

  lemma LeftCandidate(index: int, n: int)
    requires n > 0 && 0 <= index < n * n
    ensures index % n - 1 >= 0 <==> Adjacent(index, index - 1, n)
  {
    RowCol(index, n);
    var row, col := index / n, index % n;
    if col >= 1 {
      AdjacentByCoords(row, col, row, col - 1, n);
    } else {
      assert index - 1 == (row - 1) * n + (n - 1);
      AdjacentByCoords(row, col, row - 1, n - 1, n);
    }
  }

  lemma RightCandidate(index: int, n: int)
    requires n > 0 && 0 <= index < n * n
    ensures index % n + 1 < n <==> Adjacent(index, index + 1, n)
  {
    RowCol(index, n);
    var row, col := index / n, index % n;
    if col + 1 < n {
      AdjacentByCoords(row, col, row, col + 1, n);
    } else {
      assert index + 1 == (row + 1) * n + 0;
      AdjacentByCoords(row, col, row + 1, 0, n);
    }
  }

  /** Every cell adjacent to `index` is one of the four `getNeighbours` considers. */
  lemma OnlyFourCandidates(index: int, k: int, n: int)
    requires n > 0 && Adjacent(index, k, n)
    ensures k in [index - n, index + n, index - 1, index + 1]
  {
    RowCol(index, n);
    RowCol(k, n);
    var row, col := index / n, index % n;
    if k / n == row {
      assert k == row * n + k % n;
    } else if k / n == row + 1 {
      assert k == (row + 1) * n + col;
      assert (row + 1) * n == row * n + n;
    } else {
      assert k == (row - 1) * n + col;
      assert (row - 1) * n == row * n - n;
    }
  }

  /**
   * `getNeighbours(index, gridSize)`: the row comes from the floored
   * quotient and the column from the truncating remainder; the cells above,
   * below, to the left and to the right are pushed in that order when they
   * are on the grid. For a cell on the grid these are exactly its adjacent
   * cells.
   */
  function GetNeighbours(index: int, gridSize: int): (r: seq<int>)
    requires gridSize > 0
    ensures |r| <= 4
  {
    var row := index / gridSize;
    var col := JsRem(index, gridSize);
    var top, bottom, left, right := row - 1, row + 1, col - 1, col + 1;
    (if top >= 0 then [top * gridSize + col] else [])
    + (if bottom < gridSize then [bottom * gridSize + col] else [])
    + (if left >= 0 then [row * gridSize + left] else [])
    + (if right < gridSize then [row * gridSize + right] else [])
  }

  /** For a cell on the grid the four pushed values are `index - n`, `index + n`, `index - 1` and `index + 1`. */
  lemma PushedValues(index: int, n: int)
    requires n > 0 && 0 <= index < n * n
    ensures GetNeighbours(index, n) ==
      (if index / n - 1 >= 0 then [index - n] else []) + (if index / n + 1 < n then [index + n] else [])
      + (if index % n - 1 >= 0 then [index - 1] else []) + (if index % n + 1 < n then [index + 1] else [])
  {
    RowCol(index, n);
    var row, col := index / n, index % n;
    assert JsRem(index, n) == col;
    assert (row - 1) * n + col == index - n;
    assert (row + 1) * n + col == index + n;
  }

  lemma PushedAreAdjacent(index: int, n: int)
    requires n > 0 && 0 <= index < n * n
    ensures GetNeighbours(index, n) ==
      (if Adjacent(index, index - n, n) then [index - n] else []) + (if Adjacent(index, index + n, n) then [index + n] else [])
      + (if Adjacent(index, index - 1, n) then [index - 1] else []) + (if Adjacent(index, index + 1, n) then [index + 1] else [])
  {
    PushedValues(index, n);
    TopCandidate(index, n);
    BottomCandidate(index, n);
    LeftCandidate(index, n);
    RightCandidate(index, n);
  }

  /**
   * For a cell on the grid, `getNeighbours` lists the cells above, below,
   * to the left and to the right, in that order, keeping exactly those on
   * the grid: an index is listed exactly when its cell is adjacent.
   */
  lemma NeighboursOnGrid(index: int, n: int)
    requires n > 0 && 0 <= index < n * n
    ensures GetNeighbours(index, n) ==
      (if Adjacent(index, index - n, n) then [index - n] else []) + (if Adjacent(index, index + n, n) then [index + n] else [])
      + (if Adjacent(index, index - 1, n) then [index - 1] else []) + (if Adjacent(index, index + 1, n) then [index + 1] else [])
    ensures forall k :: k in GetNeighbours(index, n) <==> Adjacent(index, k, n)
  {
    PushedAreAdjacent(index, n);
    var t := if Adjacent(index, index - n, n) then [index - n] else [];
    var b := if Adjacent(index, index + n, n) then [index + n] else [];
    var l := if Adjacent(index, index - 1, n) then [index - 1] else [];
    var r := if Adjacent(index, index + 1, n) then [index + 1] else [];
    forall k ensures k in t + b + l + r <==> Adjacent(index, k, n) {
      if Adjacent(index, k, n) {
        OnlyFourCandidates(index, k, n);
      }
    }
  }

  /** The neighbour relation is symmetric. */
  lemma NeighboursSymmetric(i: int, j: int, n: int)
    requires n > 0 && 0 <= i < n * n && 0 <= j < n * n
    ensures j in GetNeighbours(i, n) <==> i in GetNeighbours(j, n)
  {
    NeighboursOnGrid(i, n);
    NeighboursOnGrid(j, n);
  }

  /** Cell `k` holds a card whose owner is not `self`. */
  predicate EnemyAt(g: Grid, k: int, self: Player)
    reads Footprint(g)
  {
    0 <= k < |g| && g[k].Some? && g[k].value.player != self
  }

  /** `neighbours.some(...)`: some listed index holds an enemy card. */
  function AnyEnemyAmong(g: Grid, ks: seq<int>, self: Player): (r: bool)
    reads Footprint(g)
    ensures r <==> exists k :: k in ks && EnemyAt(g, k, self)
  {
    if ks == [] then false
    else EnemyAt(g, ks[0], self) || AnyEnemyAmong(g, ks[1..], self)
  }

  /**
   * `hasNeighbourEnemy(grid, index, self)`, for a grid whose length is a
   * perfect square: some cell adjacent to `index` holds an enemy card.
   */
  function HasNeighbourEnemy(g: Grid, index: int, self: Player): (r: bool)
    requires IsSquare(|g|) && |g| > 0
    reads Footprint(g)
    ensures r <==> exists k :: k in GetNeighbours(index, Side(|g|)) && EnemyAt(g, k, self)
  {
    AnyEnemyAmong(g, GetNeighbours(index, Side(|g|)), self)
  }

  /** For a cell on the grid, `hasNeighbourEnemy` holds iff some adjacent cell holds an enemy card. */
  lemma NeighbourEnemyByAdjacency(g: Grid, index: int, self: Player)
    requires IsSquare(|g|) && 0 <= index < |g|
    ensures HasNeighbourEnemy(g, index, self) <==> exists k :: Adjacent(index, k, Side(|g|)) && EnemyAt(g, k, self)
  {
    NeighboursOnGrid(index, Side(|g|));
  }

  /** Appending an index above every listed one keeps the list increasing. */
  lemma AppendKeepsIncreasing(s: seq<int>, x: int)
    requires forall i, j :: 0 <= i < j < |s| ==> s[i] < s[j]
    requires forall k :: k in s ==> k < x
    ensures forall i, j :: 0 <= i < j < |s + [x]| ==> (s + [x])[i] < (s + [x])[j]
  {
    forall i, j | 0 <= i < j < |s + [x]|
      ensures (s + [x])[i] < (s + [x])[j]
    {
      assert (s + [x])[i] == s[i];
      assert s[i] in s;
    }
  }

  /** The indices below `upto` of the empty cells, in increasing order. */
  function EmptyPositions(g: Grid, upto: nat): (r: seq<int>)
    requires upto <= |g|
    ensures forall i, j :: 0 <= i < j < |r| ==> r[i] < r[j]
    ensures forall k :: k in r <==> 0 <= k < upto && g[k].None?
  {
    if upto == 0 then []
    else
      var earlier := EmptyPositions(g, upto - 1);
      AppendKeepsIncreasing(earlier, upto - 1);
      if g[upto - 1].None? then earlier + [upto - 1] else earlier
  }

  /** The indices below `upto` of the empty cells next to an enemy card, in increasing order. */
  function EnemyAdjacentSlots(g: Grid, self: Player, upto: nat): (r: seq<int>)
    requires upto <= |g| && IsSquare(|g|)
    reads Footprint(g)
    ensures forall i, j :: 0 <= i < j < |r| ==> r[i] < r[j]
    ensures forall k :: k in r <==> 0 <= k < upto && g[k].None? && HasNeighbourEnemy(g, k, self)
  {
    if upto == 0 then []
    else
      var earlier := EnemyAdjacentSlots(g, self, upto - 1);
      AppendKeepsIncreasing(earlier, upto - 1);
      if g[upto - 1].None? && HasNeighbourEnemy(g, upto - 1, self) then earlier + [upto - 1] else earlier
  }

  /** `findEmptyPositions(grid)`. */
  method FindEmptyPositions(g: Grid) returns (r: seq<int>)
    ensures r == EmptyPositions(g, |g|)
  {
    r := [];
    var i := 0;
    while i < |g|
      invariant 0 <= i <= |g|
      invariant r == EmptyPositions(g, i)
    {
      if g[i].None? {
        r := r + [i];
      }
      i := i + 1;
    }
  }

  /** `findAvailableSlotsWithNeighbourEnemy(grid, self)`. */
  method FindAvailableSlotsWithNeighbourEnemy(g: Grid, self: Player) returns (r: seq<int>)
    requires IsSquare(|g|)
    ensures r == EnemyAdjacentSlots(g, self, |g|)
  {
    r := [];
    var i := 0;
    while i < |g|
      invariant 0 <= i <= |g|
      invariant r == EnemyAdjacentSlots(g, self, i)
    {
      var keep := g[i].None? && HasNeighbourEnemy(g, i, self);
      assert EnemyAdjacentSlots(g, self, i + 1) == if keep then r + [i] else r;
      if keep {
        r := r + [i];
      }
      i := i + 1;
    }
  }

  /** The enemy-adjacent slots are some of the empty positions, in the same order. */
  lemma SlotsAreEmptyPositions(g: Grid, self: Player, upto: nat)
    requires upto <= |g| && IsSquare(|g|)
    ensures forall k :: k in EnemyAdjacentSlots(g, self, upto) ==> k in EmptyPositions(g, upto)
  {
  }

  datatype EvaluatedPosition = EvaluatedPosition(position: int, score: int)

  function PositionScore(p: EvaluatedPosition): int
  {
    p.score
  }

  /**
   * The index `reduce((acc, x) => score(x) > score(acc) ? x : acc)` ends
   * on: a best score, and the first of them because a later entry only
   * wins when strictly better.
   */
  function BestIndex<T>(s: seq<T>, score: T -> int): (k: nat)
    requires |s| > 0
    ensures k < |s|
    ensures forall i :: 0 <= i < |s| ==> score(s[i]) <= score(s[k])
    ensures forall i :: 0 <= i < k ==> score(s[i]) < score(s[k])
  {
    if |s| == 1 then 0
    else
      var k := BestIndex(s[..|s| - 1], score);
      if score(s[|s| - 1]) > score(s[k]) then |s| - 1 else k
  }

  /** `selectPlacement(positions)`: `reduce` has no seed, so the list must not be empty. */
  function SelectPlacement(positions: seq<EvaluatedPosition>): (r: EvaluatedPosition)
    requires |positions| > 0
    ensures r in positions
    ensures forall p :: p in positions ==> p.score <= r.score
    ensures exists k :: 0 <= k < |positions| && positions[k] == r &&
                        forall i :: 0 <= i < k ==> positions[i].score < r.score
  {
    var k := BestIndex(positions, PositionScore);
    positions[k]
  }
}
