/** ad001: a padded grid of filled quads. Each grid position is kept with a
    70% chance; a kept position gets a quad in one of four palette colours,
    whose four corners are then moved by the noise field. */
module QuadGrid {
  import opened Geometry
  import opened Random
  import opened Noise
  import opened Shapes
  import opened Grid

  /** The factor `noisify` applies to the noise sample in this sketch. */
  const NoiseScale: real := 3.0

  /** A position is kept when `nextInt(upperBound: 100)` is below this. */
  const KeepBelow: int := 70

  /** `fillColors`: cyan, green, gold and black. */
  const Palette: seq<Color> := [
    Color(0.00, 0.94, 1.00, 1.0),
    Color(0.53, 0.94, 0.55, 1.0),
    Color(1.00, 0.84, 0.00, 1.0),
    Color(0.0, 0.0, 0.0, 1.0)]

  /** A `Quad`: four vertices that `addNoise` moves and a fixed fill colour. */
  class Quad {
    var va: Point
    var vb: Point
    var vc: Point
    var vd: Point
    const fillColor: Color

    /** The quad this object currently describes. */
    function Shape(): QuadShape
      reads this
    {
      QuadShape(va, vb, vc, vd, fillColor)
    }

    /** `init(rect:fillColor:)` */
    constructor (rect: Rect, fillColor: Color)
      ensures Shape() == Corners(rect, fillColor)
    {
      va := Point(MinX(rect), MinY(rect));
      vb := Point(MinX(rect), MaxY(rect));
      vc := Point(MaxX(rect), MaxY(rect));
      vd := Point(MaxX(rect), MinY(rect));
      this.fillColor := fillColor;
    }

    /** `addNoise(noiseMap)`: each vertex in turn goes through `noisify`. */
    method AddNoise(noise: (int, int) -> real)
      modifies this
      ensures Shape() == NoisedQuad(old(Shape()), noise, NoiseScale)
    {
      va := Noisify(va, noise, NoiseScale);
      vb := Noisify(vb, noise, NoiseScale);
      vc := Noisify(vc, noise, NoiseScale);
      vd := Noisify(vd, noise, NoiseScale);
    }
  }

  /** `rds.nextInt(upperBound: 100) < 70` for the draw `u`. */
  predicate Kept(u: real)
    requires 0.0 <= u < 1.0
  {
    UniformToInt(u, 100) < KeepBelow
  }

  /** The 70% rule: a position is kept exactly when its draw is below 0.7,
      that is, on 70% of the unit interval. */
  lemma KeptIff(u: real)
    requires 0.0 <= u < 1.0
    ensures Kept(u) <==> u < 0.7
  {
    var k := UniformToInt(u, 100);
    assert k as real <= u * 100.0 < k as real + 1.0;
  }

  /** The grid positions below `hi` that are kept, in increasing order. The
      grid is walked i-major, so position `i * n + j` is cell (i, j) and uses
      draw `i * n + j` of `rds`. */
  function KeptPositions(draws: nat -> real, hi: nat): (ps: seq<nat>)
    requires IsUnitStream(draws)
    ensures |ps| <= hi
  {
    if hi == 0 then []
    else
      var ps := KeptPositions(draws, hi - 1);
      if Kept(draws(hi - 1)) then ps + [hi - 1] else ps
  }

  /** Only kept positions below `hi` are listed, each once, in increasing
      order. */
  lemma {:induction false} KeptPositionsSound(draws: nat -> real, hi: nat)
    requires IsUnitStream(draws)
    ensures forall t :: 0 <= t < |KeptPositions(draws, hi)| ==>
      KeptPositions(draws, hi)[t] < hi && Kept(draws(KeptPositions(draws, hi)[t]))
    ensures forall s, t :: 0 <= s < t < |KeptPositions(draws, hi)| ==>
      KeptPositions(draws, hi)[s] < KeptPositions(draws, hi)[t]
  {
    if hi > 0 {
      KeptPositionsSound(draws, hi - 1);
      var ps := KeptPositions(draws, hi - 1);
      var qs := KeptPositions(draws, hi);
      if Kept(draws(hi - 1)) {
        assert qs == ps + [hi - 1];
        assert forall t :: 0 <= t < |ps| ==> qs[t] == ps[t];
      }
    }
  }

  /** Every kept position below `hi` is listed: with KeptPositionsSound, `p`
      is listed exactly when `p < hi` and its draw keeps it. */
  lemma {:induction false} KeptPositionsComplete(draws: nat -> real, hi: nat, p: nat)
    requires IsUnitStream(draws)
    requires p < hi && Kept(draws(p))
    ensures p in KeptPositions(draws, hi)
  {
    if p < hi - 1 {
      KeptPositionsComplete(draws, hi - 1, p);
    }
  }

  /** The quad for the `t`-th kept position `p`: the cell's rect, the colour
      the `t`-th draw of `rcp` picks, moved by the noise field. */
  function QuadAt(g: PaddedGrid, p: nat, colorDraw: real, noise: (int, int) -> real): QuadShape
    requires 0.0 <= colorDraw < 1.0 && 0 < g.n
  {
    NoisedQuad(Corners(PaddedCell(g, p / g.n, p % g.n), Palette[UniformToInt(colorDraw, |Palette|)]),
               noise, NoiseScale)
  }

  /** Position `i * n + j` of the i-major walk is cell (i, j). */
  lemma QuadAtCell(g: PaddedGrid, p: nat, i: int, j: int, colorDraw: real, noise: (int, int) -> real)
    requires 0.0 <= colorDraw < 1.0
    requires 0 <= i && 0 <= j < g.n && p == i * g.n + j
    ensures QuadAt(g, p, colorDraw, noise)
      == NoisedQuad(Corners(PaddedCell(g, i, j), Palette[UniformToInt(colorDraw, |Palette|)]), noise, NoiseScale)
  {
    GridPosition(i, j, g.n);
  }

  /** The quads the walk over the first `hi` grid positions draws, in order:
      quad `t` sits at the `t`-th kept position and takes the `t`-th draw of
      the colour source. */
  function Layout(g: PaddedGrid, draws: nat -> real, colorDraws: nat -> real,
                  noise: (int, int) -> real, hi: nat): seq<QuadShape>
    requires IsUnitStream(draws) && IsUnitStream(colorDraws) && 0 < g.n
  {
    var ps := KeptPositions(draws, hi);
    seq(|ps|, t requires 0 <= t < |ps| => QuadAt(g, ps[t], colorDraws(t), noise))
  }

  /** Walking one more position: the layout gains the quad of position `p`,
      in the next unused colour, when `p` is kept, and is unchanged
      otherwise. */
  lemma LayoutStep(g: PaddedGrid, draws: nat -> real, colorDraws: nat -> real,
                   noise: (int, int) -> real, p: nat)
    requires IsUnitStream(draws) && IsUnitStream(colorDraws) && 0 < g.n
    ensures var before := Layout(g, draws, colorDraws, noise, p);
      Layout(g, draws, colorDraws, noise, p + 1)
        == if Kept(draws(p)) then before + [QuadAt(g, p, colorDraws(|before|), noise)] else before
  {
    var before := Layout(g, draws, colorDraws, noise, p);
    var after := Layout(g, draws, colorDraws, noise, p + 1);
    var ps := KeptPositions(draws, p);
    if Kept(draws(p)) {
      assert KeptPositions(draws, p + 1) == ps + [p];
      assert after == before + [QuadAt(g, p, colorDraws(|before|), noise)];
    } else {
      assert KeptPositions(draws, p + 1) == ps;
    }
  }

  /** The body of the inner loop of `generateQuads` for a kept position `p`,
      cell (i, j): `rcp` picks the fill colour, the quad is built on the
      cell's rect and moved by the noise field. */
  method PlaceQuad(g: PaddedGrid, ghost p: nat, i: int, j: int, rcp: RandomSource, noise: (int, int) -> real)
    returns (quad: Quad)
    requires rcp.Valid() && 0 <= i && 0 <= j < g.n && p == i * g.n + j
    modifies rcp
    ensures rcp.pos == old(rcp.pos) + 1
    ensures fresh(quad) && quad.Shape() == QuadAt(g, p, rcp.draws(old(rcp.pos)), noise)
  {
    var fillIndex := rcp.NextInt(|Palette|);
    quad := new Quad(PaddedCell(g, i, j), Palette[fillIndex]);
    quad.AddNoise(noise);
    QuadAtCell(g, p, i, j, rcp.draws(old(rcp.pos)), noise);
  }

  /** One pass of the inner loop of `generateQuads`, at cell (i, j): `rds`
      decides whether position `i * n + j` is kept and, exactly when it is,
      a fresh quad is placed there, in the colour of the next draw of `rcp`. */
  method VisitCell(g: PaddedGrid, i: int, j: int, rds: RandomSource, rcp: RandomSource,
                   noise: (int, int) -> real) returns (quad: Quad?)
    requires rds.Valid() && rcp.Valid() && rds != rcp && 0 <= i && 0 <= j < g.n
    requires rds.pos == i * g.n + j
    modifies rds, rcp
    ensures rds.pos == old(rds.pos) + 1
    ensures quad != null <==> Kept(rds.draws(old(rds.pos)))
    ensures quad == null ==> rcp.pos == old(rcp.pos)
    ensures quad != null ==>
      fresh(quad) && rcp.pos == old(rcp.pos) + 1 &&
      quad.Shape() == QuadAt(g, old(rds.pos), rcp.draws(old(rcp.pos)), noise)
  {
    ghost var p := rds.pos;
    var pick := rds.NextInt(100);
    quad := null;
    if pick < KeepBelow {
      quad := PlaceQuad(g, p, i, j, rcp, noise);
    }
  }

  /** The inner loop of `generateQuads` for column `i`: every cell of the
      column is visited in turn, and the quads placed are the layout of the
      grid up to the end of the column. The quads placed before stay as they
      are and the new ones are fresh. */
  method PlaceColumn(g: PaddedGrid, i: int, rds: RandomSource, rcp: RandomSource, noise: (int, int) -> real,
                     quads: seq<Quad>, ghost shapes: seq<QuadShape>)
    returns (quads': seq<Quad>, ghost shapes': seq<QuadShape>)
    requires rds.Valid() && rcp.Valid() && rds != rcp && 0 <= i && 0 < g.n
    requires rds.pos == i * g.n && rcp.pos == |quads| == |shapes|
    requires shapes == Layout(g, rds.draws, rcp.draws, noise, rds.pos)
    requires forall t :: 0 <= t < |quads| ==> quads[t].Shape() == shapes[t]
    requires forall s, t :: 0 <= s < t < |quads| ==> quads[s] != quads[t]
    modifies rds, rcp
    ensures rds.pos == old(rds.pos) + g.n && rcp.pos == |quads'| == |shapes'|
    ensures shapes' == Layout(g, rds.draws, rcp.draws, noise, rds.pos)
    ensures forall t :: 0 <= t < |quads'| ==> quads'[t].Shape() == shapes'[t]
    ensures |quads| <= |quads'| && forall t :: 0 <= t < |quads| ==> quads'[t] == quads[t]
    ensures forall t :: |quads| <= t < |quads'| ==> fresh(quads'[t])
    ensures forall s, t :: 0 <= s < t < |quads'| ==> quads'[s] != quads'[t]
  {
    quads', shapes' := quads, shapes;
    for j := 0 to g.n
      invariant rds.pos == i * g.n + j && rcp.pos == |quads'| == |shapes'|
      invariant shapes' == Layout(g, rds.draws, rcp.draws, noise, rds.pos)
      invariant forall t :: 0 <= t < |quads'| ==> quads'[t].Shape() == shapes'[t]
      invariant |quads| <= |quads'| && forall t :: 0 <= t < |quads| ==> quads'[t] == quads[t]
      invariant forall t :: |quads| <= t < |quads'| ==> fresh(quads'[t])
      invariant forall s, t :: 0 <= s < t < |quads'| ==> quads'[s] != quads'[t]
    {
      quads', shapes' := PlaceNext(g, i, j, rds, rcp, noise, quads', shapes');
    }
  }

  /** Cell (i, j) visited: the quads placed so far gain the quad of this
      cell when it is kept, and stay the layout of the grid so far. */
  method PlaceNext(g: PaddedGrid, i: int, j: int, rds: RandomSource, rcp: RandomSource, noise: (int, int) -> real,
                   quads: seq<Quad>, ghost shapes: seq<QuadShape>)
    returns (quads': seq<Quad>, ghost shapes': seq<QuadShape>)
    requires rds.Valid() && rcp.Valid() && rds != rcp && 0 <= i && 0 <= j < g.n
    requires rds.pos == i * g.n + j && rcp.pos == |quads| == |shapes|
    requires shapes == Layout(g, rds.draws, rcp.draws, noise, rds.pos)
    requires forall t :: 0 <= t < |quads| ==> quads[t].Shape() == shapes[t]
    requires forall s, t :: 0 <= s < t < |quads| ==> quads[s] != quads[t]
    modifies rds, rcp
    ensures rds.pos == old(rds.pos) + 1 && rcp.pos == |quads'| == |shapes'|
    ensures shapes' == Layout(g, rds.draws, rcp.draws, noise, rds.pos)
    ensures forall t :: 0 <= t < |quads'| ==> quads'[t].Shape() == shapes'[t]
    ensures |quads| <= |quads'| && forall t :: 0 <= t < |quads| ==> quads'[t] == quads[t]
    ensures forall t :: |quads| <= t < |quads'| ==> fresh(quads'[t])
    ensures forall s, t :: 0 <= s < t < |quads'| ==> quads'[s] != quads'[t]
  {
    ghost var p := rds.pos;
    var quad := VisitCell(g, i, j, rds, rcp, noise);
    LayoutStep(g, rds.draws, rcp.draws, noise, p);
    assert rds.pos == p + 1;
    quads', shapes' := quads, shapes;
    if quad != null {
      assert quad.Shape() == QuadAt(g, p, rcp.draws(|shapes|), noise);
      quads' := quads + [quad];
      shapes' := shapes + [quad.Shape()];
    }
  }

  /** `generateQuads(width:height:padding:boundWidth:boundHeight:)`: `rds`
      decides once per grid position whether to draw a quad there, and `rcp`,
      a second source, picks the colour of each quad drawn. The quads are
      the layout of the whole grid, in order. */
  method GenerateQuads(width: int, height: int, padding: int, boundWidth: int, boundHeight: int,
                       draws: nat -> real, colorDraws: nat -> real, noise: (int, int) -> real)
    returns (quads: seq<Quad>)
    requires width + padding != 0 && height + padding != 0
    requires MakePaddedGrid(width, height, padding, boundWidth, boundHeight).m >= 0
    requires MakePaddedGrid(width, height, padding, boundWidth, boundHeight).m > 0 ==>
      MakePaddedGrid(width, height, padding, boundWidth, boundHeight).n >= 0
    requires IsUnitStream(draws) && IsUnitStream(colorDraws)
    ensures var g := MakePaddedGrid(width, height, padding, boundWidth, boundHeight);
      |quads| == |KeptPositions(draws, g.m * g.n)| &&
      (g.n > 0 ==> forall t :: 0 <= t < |quads| ==>
        quads[t].Shape() == Layout(g, draws, colorDraws, noise, g.m * g.n)[t])
    ensures forall t :: 0 <= t < |quads| ==> fresh(quads[t])
    ensures forall s, t :: 0 <= s < t < |quads| ==> quads[s] != quads[t]
  {
    var g := MakePaddedGrid(width, height, padding, boundWidth, boundHeight);
    var rds := new RandomSource(draws);
    var rcp := new RandomSource(colorDraws);
    quads := [];
    if g.n <= 0 {
      return;
    }
    ghost var shapes: seq<QuadShape> := [];
    for i := 0 to g.m
      invariant rds.Valid() && rds.draws == draws && rds.pos == i * g.n
      invariant rcp.Valid() && rcp.draws == colorDraws && rcp.pos == |quads| == |shapes|
      invariant shapes == Layout(g, draws, colorDraws, noise, rds.pos)
      invariant forall t :: 0 <= t < |quads| ==> fresh(quads[t])
      invariant forall s, t :: 0 <= s < t < |quads| ==> quads[s] != quads[t]
      invariant forall t :: 0 <= t < |quads| ==> quads[t].Shape() == shapes[t]
    {
      quads, shapes := PlaceColumn(g, i, rds, rcp, noise, quads, shapes);
      assert (i + 1) * g.n == i * g.n + g.n;
    }
  }
}
