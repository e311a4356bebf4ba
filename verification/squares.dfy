/**
 * Integer square roots. The source takes `Math.sqrt` of a grid length and
 * tests `% 1 !== 0` to reject lengths that are not perfect squares; the
 * model computes the integer side length instead.
 */
module Squares {

  /** The integer square root of `len`, searched upward from `r`. */
  function SideFrom(len: nat, r: nat): (s: nat)
    requires r * r <= len
    ensures s * s <= len < (s + 1) * (s + 1)
    decreases len - r
  {
    assert r <= len by { if r > 0 { assert r <= r * r; } }
    if (r + 1) * (r + 1) > len then r else SideFrom(len, r + 1)
  }

  /** The side of a square grid of `len` cells (the floor of its square root). */
  function Side(len: nat): (s: nat)
    ensures s * s <= len < (s + 1) * (s + 1)
  {
    SideFrom(len, 0)
  }

  /** `Math.sqrt(len) % 1 === 0`: `len` is the square of a whole number. */
  predicate IsSquare(len: int)
  {
    len >= 0 && Side(len) * Side(len) == len
  }

  lemma SquareMonotone(a: nat, b: nat)
    ensures a <= b ==> a * a <= b * b
  {
    if a <= b {
      assert a * a <= a * b;
      assert a * b <= b * b;
    }
  }

  lemma SquareStrictlyMonotone(a: nat, b: nat)
    ensures a < b ==> a * a < b * b
  {
    if a < b {
      assert a * a <= a * b;
      assert a * b < b * b;
    }
  }

  /** Only `n` itself lies between `n` and the next whole root. */
  lemma RootUnique(s: nat, n: nat)
    ensures s * s <= n * n < (s + 1) * (s + 1) ==> s == n
  {
    SquareMonotone(s + 1, n);
    SquareStrictlyMonotone(n, s);
  }

  /** A length passes the check exactly when some whole number squared gives it. */
  lemma IsSquareIff(len: int)
    ensures IsSquare(len) <==> exists n: nat :: n * n == len
  {
    if len >= 0 {
      var s := Side(len);
      if IsSquare(len) {
        assert s * s == len;
      }
      if n: nat :| n * n == len {
        RootUnique(s, n);
      }
    }
  }

  /** On a square length the side is the exact root. */
  lemma SideOfSquare(n: nat)
    ensures Side(n * n) == n && IsSquare(n * n)
  {
    RootUnique(Side(n * n), n);
  }
}
