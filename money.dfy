/**
 * The `Money` helper: decimal amounts handled through integer minor units
 * ("kopecks", hundredths). Amounts are exact reals here, so the floating-point
 * drift the helper exists to avoid does not arise in the model at all; what is
 * modelled is the rounding to whole kopecks that every operation performs.
 */
module Money {

  /** Minor units of an amount: `Math.round(v * 100)`, rounding halves upwards. */
  function From(v: real): (k: int)
    ensures k as real - 0.5 <= v * 100.0 < k as real + 0.5
  {
    (v * 100.0 + 0.5).Floor
  }

  /** The amount that `k` minor units stand for: `k / 100` with two decimals. */
  function To(k: int): (v: real)
    ensures v * 100.0 == k as real
  {
    k as real / 100.0
  }

  /** `add`: works on minor units, so the sum has two decimals and exactly the operands' minor units added. */
  function Add(a: real, b: real): (r: real)
    ensures IsCents(r)
    ensures From(r) == From(a) + From(b)
  {
    var k := From(a) + From(b);
    ToIsCents(k);
    FromTo(k);
    To(k)
  }

  /** `subtract`: the difference has two decimals and the operands' minor units subtracted. */
  function Subtract(a: real, b: real): (r: real)
    ensures IsCents(r)
    ensures From(r) == From(a) - From(b)
  {
    var k := From(a) - From(b);
    ToIsCents(k);
    FromTo(k);
    To(k)
  }

  /** `multiply` with an integer factor (a fractional factor is not modelled): the minor units are multiplied. */
  function Multiply(a: real, n: int): (r: real)
    ensures IsCents(r)
    ensures From(r) == From(a) * n
  {
    var k := From(a) * n;
    ToIsCents(k);
    FromTo(k);
    To(k)
  }

  /**
   * `round`: `Math.round` of the minor units is the identity on the integer
   * they already are, so the result is the amount rounded to the nearest
   * hundredth, halves upwards.
   */
  function Round(v: real): (r: real)
    ensures IsCents(r)
    ensures r - 0.005 <= v < r + 0.005
  {
    ToIsCents(From(v));
    To(From(v))
  }

  /** `v` is a whole number of minor units, i.e. has at most two decimal digits. */
  predicate IsCents(v: real)
  {
    (v * 100.0).Floor as real == v * 100.0
  }

  /** Converting minor units to an amount and back gives the same minor units. */
  lemma FromTo(k: int)
    ensures From(To(k)) == k
  {
  }

  /** An amount with at most two decimals converts to minor units and back unchanged. */
  lemma ToFrom(v: real)
    requires IsCents(v)
    ensures To(From(v)) == v
  {
    var k := (v * 100.0).Floor;
    assert v == To(k);
    FromTo(k);
  }

  /** Every amount `To` produces has at most two decimals. */
  lemma ToIsCents(k: int)
    ensures IsCents(To(k))
  {
    assert To(k) * 100.0 == k as real;
  }

  lemma AddCommutes(a: real, b: real)
    ensures Add(a, b) == Add(b, a)
  {
  }

  /** Subtracting `b` undoes adding `b`, up to rounding `a` to whole minor units. */
  lemma SubtractUndoesAdd(a: real, b: real)
    ensures Subtract(Add(a, b), b) == Round(a)
  {
  }

  /** For amounts with at most two decimals, subtracting then adding back is exact. */
  lemma AddUndoesSubtract(a: real, b: real)
    requires IsCents(a)
    ensures Add(Subtract(a, b), b) == a
  {
    FromTo(From(a) - From(b));
    ToFrom(a);
  }

  lemma SubtractSelf(a: real)
    ensures Subtract(a, a) == 0.0
  {
  }

  /** Rounding yields a whole number of minor units, and rounding again changes nothing. */
  lemma RoundIdempotent(a: real)
    ensures IsCents(Round(a))
    ensures Round(Round(a)) == Round(a)
  {
    ToIsCents(From(a));
    FromTo(From(a));
  }

  /** An amount with at most two decimals is its own rounding. */
  lemma RoundOfCents(a: real)
    requires IsCents(a)
    ensures Round(a) == a
  {
    ToFrom(a);
  }

  /** Multiplying by one only rounds. */
  lemma MultiplyByOne(a: real)
    ensures Multiply(a, 1) == Round(a)
  {
  }
}
