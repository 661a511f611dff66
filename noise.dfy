/** Perturbation of a point by a sampled coherent-noise field (`noisify` in
    each sketch). The noise map itself (GameKit's Perlin noise) is a parameter:
    any function from integer coordinates to a value. */
module Noise {
  import opened Geometry

  /** `noisify(point:noiseMap:)`: the map is sampled at the point's coordinates
      truncated to `Int32`, the sample is multiplied by the sketch's scale, and
      the product is added to both coordinates. */
  function Noisify(p: Point, noise: (int, int) -> real, scale: real): Point
  {
    var dr := noise(Trunc(p.x), Trunc(p.y)) * scale;
    Point(p.x + dr, p.y + dr)
  }

  /** The point moves by the scaled sample of the noise field at its own
      truncated coordinates, by the same amount on both axes, so it stays on
      its diagonal. */
  lemma NoisifyMoves(p: Point, noise: (int, int) -> real, scale: real)
    ensures var q := Noisify(p, noise, scale);
      q.x - p.x == scale * noise(Trunc(p.x), Trunc(p.y)) &&
      q.y - p.y == q.x - p.x
  {
  }

  /** A point moves by at most `scale * bound` on each axis when the noise
      field stays within `[-bound, bound]`. */
  lemma NoisifyBounded(p: Point, noise: (int, int) -> real, scale: real, bound: real)
    requires scale >= 0.0
    requires forall a: int, b: int :: -bound <= noise(a, b) <= bound
    ensures var q := Noisify(p, noise, scale);
      -scale * bound <= q.x - p.x <= scale * bound &&
      -scale * bound <= q.y - p.y <= scale * bound
  {
    NoisifyMoves(p, noise, scale);
    var s := noise(Trunc(p.x), Trunc(p.y));
    assert scale * bound - scale * s == scale * (bound - s);
    assert scale * s + scale * bound == scale * (s + bound);
    NonnegProduct(scale, bound - s);
    NonnegProduct(scale, s + bound);
  }

  lemma NonnegProduct(a: real, b: real)
    requires a >= 0.0 && b >= 0.0
    ensures a * b >= 0.0
  {
  }
}
