/**
 * The few pieces of JavaScript array and number semantics the game code
 * relies on: `Array.prototype.at`, assignment to an index past the end of
 * an array (which leaves holes), and the truncating remainder operator.
 */
module JsArray {
  import opened Wrappers

  /** `a % b` in JavaScript for a positive divisor: the sign follows the dividend. */
  function JsRem(a: int, b: int): (r: int)
    requires b > 0
    ensures a >= 0 ==> 0 <= r < b && r == a % b
    ensures a < 0 ==> -b < r <= 0 && r == -((-a) % b)
  {
    if a >= 0 then a % b else -((-a) % b)
  }

  /**
   * `s.at(i)` on an array whose holes are `None`: a negative index counts
   * back from the end, and an index outside the array gives `None`.
   */
  function At<T>(s: seq<Option<T>>, i: int): (r: Option<T>)
    ensures 0 <= i < |s| ==> r == s[i]
    ensures -|s| <= i < 0 ==> r == s[|s| + i]
    ensures (i >= |s| || i < -|s|) ==> r == None
  {
    var k := if i < 0 then |s| + i else i;
    if 0 <= k < |s| then s[k] else None
  }

  /** `s[i]` for a plain index read: anything outside the array is `undefined`. */
  function Lookup<T>(s: seq<Option<T>>, i: int): Option<T>
  {
    if 0 <= i < |s| then s[i] else None
  }

  /**
   * `s[i] = v`: within the array only index `i` changes; past the end the
   * array grows to length `i + 1` and the gap is filled with holes; a
   * negative index names a property, not an element, so no element changes.
   */
  function Assign<T>(s: seq<T>, i: int, v: T, hole: T): (r: seq<T>)
    ensures i < 0 ==> r == s
    ensures i >= 0 ==> |r| == if i < |s| then |s| else i + 1
    ensures i >= 0 ==> r[i] == v
    ensures i >= 0 ==> forall j :: 0 <= j < |s| && j != i ==> r[j] == s[j]
    ensures i >= 0 ==> forall j :: |s| <= j < i ==> r[j] == hole
  {
    if i < 0 then s
    else if i < |s| then s[i := v]
    else s + Holes(i - |s|, hole) + [v]
  }

  /** `n` copies of `hole`. */
  function Holes<T>(n: nat, hole: T): (r: seq<T>)
    ensures |r| == n && forall j :: 0 <= j < n ==> r[j] == hole
  {
    if n == 0 then [] else Holes(n - 1, hole) + [hole]
  }
}
