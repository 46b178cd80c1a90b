/**
 The random draws of the engine. Every call of the source's `random()` is
 one `Unit` taken from a caller-supplied stream; the functions here turn a
 draw into the decision the source derives from it. Reals stand in for
 double-precision numbers.
 */
module Randomness {

  /** One value of `random()`: a real in [0, 1). */
  type Unit = r: real | 0.0 <= r < 1.0

  /** Fraction of note-ons played as written when the key is free. */
  const Skill: real := 19.0 / 20.0

  /** Initial search radius of a substitute pitch. */
  const FlubProximity: int := 2

  /** Attempts made at one radius before the radius grows by one. */
  const AttemptsPerRadius: nat := 20

  /** A free key is flubbed when its chance draw exceeds `Skill`. */
  function FlubByChance(u: Unit): (b: bool)
    ensures b ==> Skill < u < 1.0
    ensures !b ==> 0.0 <= u <= Skill
  {
    u > Skill
  }

  /** Direction of a substitute: up when the draw is below one half. */
  function Sign(u: Unit): (s: int)
    ensures s == 1 || s == -1
    ensures s == 1 <==> u < 0.5
  {
    if u < 0.5 then 1 else -1
  }

  /** Search radius of the attempt numbered `k` (from 0). */
  function FlubRange(k: nat): (r: int)
    ensures r >= FlubProximity
    ensures k < AttemptsPerRadius ==> r == FlubProximity
    ensures r - FlubProximity <= k
  {
    FlubProximity + k / AttemptsPerRadius
  }

  /** The radius grows by exactly one with each further block of
      `AttemptsPerRadius` attempts. */
  lemma FlubRangeGrows(k: nat)
    requires k >= AttemptsPerRadius
    ensures FlubRange(k) == FlubRange(k - AttemptsPerRadius) + 1
  {
    assert k / AttemptsPerRadius == (k - AttemptsPerRadius) / AttemptsPerRadius + 1;
  }

  /** Least integer not below `x`. */
  function Ceil(x: real): (n: int)
    ensures x <= n as real < x + 1.0
  {
    var f := x.Floor;
    if f as real == x then f else f + 1
  }

  /** Distance of a substitute: `ceil(u * range)`. It is zero exactly when
      the draw is zero, and never exceeds the radius. */
  function Magnitude(u: Unit, range: int): (m: int)
    requires range >= 1
    ensures 0 <= m <= range
    ensures m == 0 <==> u == 0.0
  {
    var x := u * range as real;
    assert 0.0 <= x;
    assert x < range as real by {
      assert x == range as real - (1.0 - u) * range as real;
      assert (1.0 - u) * range as real > 0.0;
    }
    assert u > 0.0 ==> x > 0.0;
    Ceil(x)
  }
}
