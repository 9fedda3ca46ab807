/**
 * Python's built-in `round(x)` on a float, called without `ndigits`: the
 * nearest integer, with a tie (a fractional part of exactly one half) going
 * to the even neighbour.  Floats are modelled as exact reals, so the binary
 * representation error of IEEE doubles is not part of this model.
 *
 * `Round` states its meaning in the lemma `RoundNearest` rather than in its
 * own contract, so that the facts are brought in only where a proof needs
 * them and not wherever a scaled size appears.  For the same reason the
 * product of a side and a factor, `Times`, is defined by recursion on the
 * side and related to `*` by a lemma.
 */
module Rounding {

  /** Python's `round(x)`. */
  function Round(x: real): int
  {
    var f := x.Floor;
    var d := x - f as real;
    if d < 0.5 then f
    else if d > 0.5 then f + 1
    else if f % 2 == 0 then f
    else f + 1
  }

  /** Round(x) is a nearest integer to x, and the even one when x lies half-way. */
  lemma RoundNearest(x: real)
    ensures x - 0.5 <= Round(x) as real <= x + 0.5
    ensures (Round(x) as real == x - 0.5 || Round(x) as real == x + 0.5) ==> Round(x) % 2 == 0
  {
  }

  /** The two properties of RoundNearest single out Round's result. */
  lemma RoundUnique(x: real, m: int)
    requires x - 0.5 <= m as real <= x + 0.5
    requires (m as real == x - 0.5 || m as real == x + 0.5) ==> m % 2 == 0
    ensures m == Round(x)
  {
    // two distinct integers within one half of x would be one apart with x
    // at their midpoint, and only one of them can be even
    RoundNearest(x);
  }

  /** Rounding an integer-valued real gives that integer back. */
  lemma RoundOfInt(k: int)
    ensures Round(k as real) == k
  {
    RoundUnique(k as real, k);
  }

  /** Round is monotone: a larger real never rounds to a smaller integer. */
  lemma RoundMonotone(x: real, y: real)
    requires x <= y
    ensures Round(x) <= Round(y)
  {
    // Round(x) > Round(y) would force x == y at the midpoint of two
    // consecutive integers, both of which would then have to be even
    RoundNearest(x);
    RoundNearest(y);
  }

  /** `n * f` for an integer n: n copies of f added up (subtracted for a negative n). */
  function Times(n: int, f: real): real
    decreases if n < 0 then -n else n
  {
    if n == 0 then 0.0
    else if n < 0 then Times(n + 1, f) - f
    else Times(n - 1, f) + f
  }

  /** Times is the product of the side and the factor. */
  lemma {:induction false} TimesIsProduct(n: int, f: real)
    ensures Times(n, f) == n as real * f
    decreases if n < 0 then -n else n
  {
    if n < 0 {
      TimesIsProduct(n + 1, f);
      assert (n + 1) as real * f - f == n as real * f;
    } else if n > 0 {
      TimesIsProduct(n - 1, f);
      assert (n - 1) as real * f + f == n as real * f;
    }
  }

  /** `round(n * f)`: a side scaled by a factor and rounded as Python does. */
  function Scale(n: int, f: real): int
  {
    Round(Times(n, f))
  }

  /** Scaling by one gives the side back. */
  lemma ScaleByOne(n: int)
    ensures Scale(n, 1.0) == n
  {
    TimesIsProduct(n, 1.0);
    RoundOfInt(n);
  }
}
