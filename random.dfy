/** The seeded random sources of the sketches (GameKit's `GKARC4RandomSource`
    and `GKRandomSource`), seen only through their stream of draws, and the
    `randomReal` helper the sketches build on `nextUniform()`. */
module Random {

  /** The values a source hands out, one per call, in call order. GameKit
      promises each `nextUniform()` lies in [0, 1). */
  ghost predicate IsUnitStream(draws: nat -> real)
  {
    forall k: nat :: 0.0 <= draws(k) < 1.0
  }

  /** `nextInt(upperBound: n)`: one draw of the stream, scaled to [0, n) and
      truncated. */
  function UniformToInt(u: real, upperBound: int): (k: int)
    requires 0.0 <= u < 1.0 && upperBound > 0
    ensures 0 <= k < upperBound
  {
    assert u * upperBound as real < 1.0 * upperBound as real;
    (u * upperBound as real).Floor
  }

  /** Modelling `nextInt` through one uniform draw loses nothing: every
      integer in [0, n) is the result of some draw. */
  lemma UniformToIntOnto(k: int, n: int)
    requires 0 <= k < n
    ensures 0.0 <= k as real / n as real < 1.0
    ensures UniformToInt(k as real / n as real, n) == k
  {
    var u := k as real / n as real;
    assert u * n as real == k as real;
  }

  /** The value `randomReal` returns for the uniform draw `alpha`:
      `(1 - alpha) * lower + alpha * upper`. */
  function Interpolate(alpha: real, lower: real, upper: real): (r: real)
    ensures 0.0 <= alpha <= 1.0 && lower <= upper ==> lower <= r <= upper
    ensures 0.0 <= alpha <= 1.0 && upper <= lower ==> upper <= r <= lower
    ensures alpha == 0.0 ==> r == lower
    ensures alpha == 1.0 ==> r == upper
  {
    var r := (1.0 - alpha) * lower + alpha * upper;
    assert r - lower == alpha * (upper - lower);
    assert upper - r == (1.0 - alpha) * (upper - lower);
    if 0.0 <= alpha <= 1.0 then
      MulSign(alpha, upper - lower);
      MulSign(1.0 - alpha, upper - lower);
      r
    else
      r
  }

  lemma MulSign(a: real, b: real)
    requires a >= 0.0
    ensures b >= 0.0 ==> a * b >= 0.0
    ensures b <= 0.0 ==> a * b <= 0.0
  {
  }

  /** A random source: the stream it draws from and how many draws it has
      handed out so far. */
  class RandomSource {
    const draws: nat -> real
    var pos: nat

    ghost predicate Valid()
    {
      IsUnitStream(draws)
    }

    constructor (draws: nat -> real)
      requires IsUnitStream(draws)
      ensures Valid() && this.draws == draws && pos == 0
    {
      this.draws := draws;
      pos := 0;
    }

    /** `nextUniform()` */
    method NextUniform() returns (u: real)
      requires Valid()
      modifies this
      ensures pos == old(pos) + 1
      ensures u == draws(old(pos)) && 0.0 <= u < 1.0
    {
      u := draws(pos);
      pos := pos + 1;
    }

    /** `nextInt(upperBound:)` */
    method NextInt(upperBound: int) returns (k: int)
      requires Valid() && upperBound > 0
      modifies this
      ensures pos == old(pos) + 1
      ensures k == UniformToInt(draws(old(pos)), upperBound) && 0 <= k < upperBound
    {
      k := UniformToInt(draws(pos), upperBound);
      pos := pos + 1;
    }
  }

  /** `randomReal(rds, lower:, upper:)`: one uniform draw, interpolated
      between the two bounds. */
  method RandomReal(rds: RandomSource, lower: real, upper: real) returns (r: real)
    requires rds.Valid()
    modifies rds
    ensures rds.pos == old(rds.pos) + 1
    ensures r == Interpolate(rds.draws(old(rds.pos)), lower, upper)
    ensures lower <= upper ==> lower <= r <= upper
  {
    var alpha := rds.NextUniform();
    r := Interpolate(alpha, lower, upper);
  }
}
