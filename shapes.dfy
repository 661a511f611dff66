/** The filled quadrilateral that the quad-grid (ad001) and nested-quad
    (ad005) sketches draw: four vertices taken from a rect's corners in a fixed
    winding order, then each moved by the noise field. */
module Shapes {
  import opened Geometry
  import opened Noise

  /** The state of a `Quad` (ad001) or `QuadCell` (ad005): its four vertices
      and its fill colour. */
  datatype QuadShape = QuadShape(va: Point, vb: Point, vc: Point, vd: Point, fill: Color)

  /** `init(rect:fillColor:)`: the corners (minX, minY), (minX, maxY),
      (maxX, maxY), (maxX, minY), in that order. */
  function Corners(rect: Rect, fill: Color): QuadShape
  {
    QuadShape(Point(MinX(rect), MinY(rect)), Point(MinX(rect), MaxY(rect)),
              Point(MaxX(rect), MaxY(rect)), Point(MaxX(rect), MinY(rect)), fill)
  }

  /** The corners form the standardized rect: the first is its minimum
      corner, the sides are axis-parallel, the diagonal spans its width and
      height, and the fill is the one given. */
  lemma CornersShape(rect: Rect, fill: Color)
    ensures var q := Corners(rect, fill);
      q.va == Point(MinX(rect), MinY(rect)) &&
      q.va.x == q.vb.x && q.vc.x == q.vd.x && q.va.y == q.vd.y && q.vb.y == q.vc.y &&
      q.vc.x - q.va.x == StdWidth(rect) &&
      q.vc.y - q.va.y == MaxY(rect) - MinY(rect) >= 0.0 &&
      q.fill == fill
  {
  }

  /** `addNoise(noiseMap)`: every vertex goes through `noisify`; the fill
      colour is untouched. */
  function NoisedQuad(q: QuadShape, noise: (int, int) -> real, scale: real): QuadShape
  {
    QuadShape(Noisify(q.va, noise, scale), Noisify(q.vb, noise, scale),
              Noisify(q.vc, noise, scale), Noisify(q.vd, noise, scale), q.fill)
  }

  /** The noise keeps the fill and moves every vertex along its diagonal. */
  lemma NoisedQuadShape(q: QuadShape, noise: (int, int) -> real, scale: real)
    ensures var r := NoisedQuad(q, noise, scale);
      r.fill == q.fill &&
      r.va.x - r.va.y == q.va.x - q.va.y && r.vb.x - r.vb.y == q.vb.x - q.vb.y &&
      r.vc.x - r.vc.y == q.vc.x - q.vc.y && r.vd.x - r.vd.y == q.vd.x - q.vd.y
  {
    NoisifyMoves(q.va, noise, scale);
    NoisifyMoves(q.vb, noise, scale);
    NoisifyMoves(q.vc, noise, scale);
    NoisifyMoves(q.vd, noise, scale);
  }

  /** Within `d` of each other on both axes. */
  predicate Near(p: Point, q: Point, d: real)
  {
    -d <= q.x - p.x <= d && -d <= q.y - p.y <= d
  }

  /** With the noise field in `[-bound, bound]`, every vertex of the noised
      quad stays within `scale * bound` of where it was on both axes. */
  lemma NoisedQuadBounded(q: QuadShape, noise: (int, int) -> real, scale: real, bound: real)
    requires scale >= 0.0
    requires forall a: int, b: int :: -bound <= noise(a, b) <= bound
    ensures var r := NoisedQuad(q, noise, scale);
      Near(q.va, r.va, scale * bound) && Near(q.vb, r.vb, scale * bound) &&
      Near(q.vc, r.vc, scale * bound) && Near(q.vd, r.vd, scale * bound)
  {
    NoisifyBounded(q.va, noise, scale, bound);
    NoisifyBounded(q.vb, noise, scale, bound);
    NoisifyBounded(q.vc, noise, scale, bound);
    NoisifyBounded(q.vd, noise, scale, bound);
  }
}
