/** ad005: a padded grid of nested quads. Every grid cell holds a group of
    5 to 15 quads, each the previous one inset by a random amount on all four
    sides and filled with a random warm shade; every corner of every quad is
    then moved by the noise field. */
module NestedQuads {
  import opened Geometry
  import opened Random
  import opened Noise
  import opened Shapes
  import opened Grid

  /** The factor `noisify` applies to the noise sample in this sketch. */
  const NoiseScale: real := 2.0

  /** `randomShade` for the uniform draw `alpha`: one offset between -0.2
      and 0.05 is added to each channel of a warm off-white, fully opaque. */
  function Shade(alpha: real): (c: Color)
    ensures 0.0 <= alpha <= 1.0 ==> -0.2 <= c.red - 0.942 <= 0.05
    ensures c.green - 0.919 == c.red - 0.942 && c.blue - 0.839 == c.red - 0.942
    ensures c.alpha == 1.0
    ensures alpha == 0.0 ==> c.red == 0.742
    ensures alpha == 1.0 ==> c.red == 0.992
  {
    var r := Interpolate(alpha, -0.2, 0.05);
    Color(0.942 + r, 0.919 + r, 0.839 + r, 1.0)
  }

  /** `randomShade(rds)`: one uniform draw. */
  method RandomShade(rds: RandomSource) returns (c: Color)
    requires rds.Valid()
    modifies rds
    ensures rds.pos == old(rds.pos) + 1
    ensures c == Shade(rds.draws(old(rds.pos)))
  {
    var alpha := rds.NextUniform();
    c := Shade(alpha);
  }

  /** A `QuadCell`: four vertices that `addNoise` moves and a fixed fill. */
  class QuadCell {
    var va: Point
    var vb: Point
    var vc: Point
    var vd: Point
    const fillColor: Color

    /** The quad this object currently describes. */
    function Shape(): QuadShape
      reads this
    {
      QuadShape(va, vb, vc, vd, fillColor)
    }

    /** `init(rect:fillColor:)` */
    constructor (rect: Rect, fillColor: Color)
      ensures Shape() == Corners(rect, fillColor)
    {
      va := Point(MinX(rect), MinY(rect));
      vb := Point(MinX(rect), MaxY(rect));
      vc := Point(MaxX(rect), MaxY(rect));
      vd := Point(MaxX(rect), MinY(rect));
      this.fillColor := fillColor;
    }

    /** `addNoise(noiseMap)`: each vertex in turn goes through `noisify`. */
    method AddNoise(noise: (int, int) -> real)
      modifies this
      ensures Shape() == NoisedQuad(old(Shape()), noise, NoiseScale)
    {
      va := Noisify(va, noise, NoiseScale);
      vb := Noisify(vb, noise, NoiseScale);
      vc := Noisify(vc, noise, NoiseScale);
      vd := Noisify(vd, noise, NoiseScale);
    }
  }

  /** `5 + nextInt(upperBound: 7) + nextInt(upperBound: 5)` for the draws
      `a` and `b`: the number of cells of a group. */
  function CellCount(a: real, b: real): (count: int)
    requires 0.0 <= a < 1.0 && 0.0 <= b < 1.0
    ensures 5 <= count <= 15
  {
    5 + UniformToInt(a, 7) + UniformToInt(b, 5)
  }

  /** Every count from 5 to 15 is drawn by some pair of draws. */
  lemma CellCountOnto(count: int)
    requires 5 <= count <= 15
    ensures exists a: real, b: real :: 0.0 <= a < 1.0 && 0.0 <= b < 1.0 && CellCount(a, b) == count
  {
    var k1 := if count - 5 <= 6 then count - 5 else 6;
    var k2 := count - 5 - k1;
    UniformToIntOnto(k1, 7);
    UniformToIntOnto(k2, 5);
    var a, b := k1 as real / 7.0, k2 as real / 5.0;
    assert CellCount(a, b) == count;
  }

  /** `rect.width / CGFloat(count)`: the largest inset of one step. */
  function Gap(rect: Rect, count: int): real
    requires count > 0
  {
    StdWidth(rect) / count as real
  }

  /** The draws a group starting at draw `pos` consumes: two for its count,
      then an inset and a shade per cell. */
  function GroupDraws(draws: nat -> real, pos: nat): nat
    requires IsUnitStream(draws)
  {
    2 + 2 * CellCount(draws(pos), draws(pos + 1))
  }

  /** The total inset, on each side, of the first `n` cells of a group whose
      count was drawn at `pos`: cell `t` takes the uniform draw `pos + 2 + 2t`
      times the gap. */
  function InsetSum(draws: nat -> real, pos: nat, gap: real, n: nat): real
  {
    if n == 0 then 0.0 else InsetSum(draws, pos, gap, n - 1) + draws(pos + 2 + 2 * (n - 1)) * gap
  }

  /** The rect of cell `k` of the group on `rect`: the base inset by every
      step up to and including its own. */
  function CellRect(rect: Rect, draws: nat -> real, pos: nat, k: nat): Rect
    requires IsUnitStream(draws)
  {
    var gap := Gap(rect, CellCount(draws(pos), draws(pos + 1)));
    InsetRect(rect, InsetSum(draws, pos, gap, k + 1))
  }

  /** Cell `k` of the group on `rect` drawn from `pos` on, before noise: its
      nested rect, in the shade of draw `pos + 3 + 2k`. */
  function CellAt(rect: Rect, draws: nat -> real, pos: nat, k: nat): QuadShape
    requires IsUnitStream(draws)
  {
    Corners(CellRect(rect, draws, pos, k), Shade(draws(pos + 3 + 2 * k)))
  }

  /** The group `Quad.init(rect:rds:)` builds from draw `pos` on, before
      noise. */
  function NestedCells(rect: Rect, draws: nat -> real, pos: nat): seq<QuadShape>
    requires IsUnitStream(draws)
  {
    var count := CellCount(draws(pos), draws(pos + 1));
    seq(count, k requires 0 <= k < count => CellAt(rect, draws, pos, k))
  }

  /** A group after `Quad.addNoise`: every cell moved by the noise field. */
  function NoisedCells(cells: seq<QuadShape>, noise: (int, int) -> real): (r: seq<QuadShape>)
    ensures |r| == |cells|
  {
    seq(|cells|, k requires 0 <= k < |cells| => NoisedQuad(cells[k], noise, NoiseScale))
  }

  /** Taking two insets in turn is taking their sum. */
  lemma InsetTwice(r: Rect, a: real, b: real)
    ensures InsetRect(InsetRect(r, a), b) == InsetRect(r, a + b)
  {
  }

  /** With a non-negative gap, the first `n` steps inset each side by
      between 0 and `n` gaps. */
  lemma {:induction false} InsetSumBounds(draws: nat -> real, pos: nat, gap: real, n: nat)
    requires IsUnitStream(draws) && gap >= 0.0
    ensures 0.0 <= InsetSum(draws, pos, gap, n) <= n as real * gap
  {
    if n > 0 {
      InsetSumBounds(draws, pos, gap, n - 1);
      var u := draws(pos + 2 + 2 * (n - 1));
      MulSign(gap, u);
      MulSign(gap, 1.0 - u);
      assert (n - 1) as real * gap + gap == n as real * gap;
    }
  }

  /** Over the whole group, each side is inset by at most the width of the
      base rect, since `count` gaps make up that width. */
  lemma TotalInsetWithinWidth(rect: Rect, draws: nat -> real, pos: nat)
    requires IsUnitStream(draws)
    ensures var count := CellCount(draws(pos), draws(pos + 1));
      0.0 <= InsetSum(draws, pos, Gap(rect, count), count) <= StdWidth(rect)
  {
    var count := CellCount(draws(pos), draws(pos + 1));
    var gap := Gap(rect, count);
    assert gap >= 0.0;
    InsetSumBounds(draws, pos, gap, count);
    assert count as real * gap == StdWidth(rect);
  }

  /** Each cell is the one before it inset equally on all four sides, by
      between 0 and one gap; the first is the base rect inset so. Sizes
      therefore never grow from one cell to the next. */
  lemma CellsNest(rect: Rect, draws: nat -> real, pos: nat, k: nat)
    requires IsUnitStream(draws)
    ensures var count := CellCount(draws(pos), draws(pos + 1));
      var inset := draws(pos + 2 + 2 * k) * Gap(rect, count);
      var before := if k == 0 then rect else CellRect(rect, draws, pos, k - 1);
      var cell := CellRect(rect, draws, pos, k);
      0.0 <= inset <= Gap(rect, count) &&
      cell == InsetRect(before, inset) &&
      cell.width <= before.width && cell.height <= before.height
  {
    var count := CellCount(draws(pos), draws(pos + 1));
    var gap := Gap(rect, count);
    var u := draws(pos + 2 + 2 * k);
    MulSign(u, gap);
    MulSign(1.0 - u, gap);
    if k == 0 {
      assert InsetSum(draws, pos, gap, 0) == 0.0;
      InsetTwice(rect, 0.0, u * gap);
      assert InsetRect(rect, 0.0) == rect;
    } else {
      InsetTwice(rect, InsetSum(draws, pos, gap, k), u * gap);
    }
  }

  /** Sizes do not strictly decrease: an inset draw of 0 leaves a cell the
      size of the one before. */
  lemma ZeroInsetKeepsSize(rect: Rect, draws: nat -> real, pos: nat, k: nat)
    requires IsUnitStream(draws) && draws(pos + 2 + 2 * (k + 1)) == 0.0
    ensures CellRect(rect, draws, pos, k + 1).width == CellRect(rect, draws, pos, k).width
    ensures CellRect(rect, draws, pos, k + 1).height == CellRect(rect, draws, pos, k).height
  {
    CellsNest(rect, draws, pos, k + 1);
  }

  /** A stream that always draws `c`. */
  function Constant(c: real): nat -> real
  {
    (i: nat) => c
  }

  /** When every inset draw is `c`, `n` steps inset each side by `n` times
      `c` gaps. */
  lemma {:induction false} InsetSumConstant(c: real, pos: nat, gap: real, n: nat)
    ensures InsetSum(Constant(c), pos, gap, n) == n as real * c * gap
  {
    if n > 0 {
      InsetSumConstant(c, pos, gap, n - 1);
    }
  }

  /** Nothing keeps the innermost cell from turning inside out: when every
      draw is 0.9, a 35 by 35 base gets 15 cells, and the last is inset by
      31.5 on each side, leaving a width and height of -28. */
  lemma InnermostMayInvert()
    ensures var draws := Constant(0.9);
      IsUnitStream(draws) &&
      CellCount(draws(0), draws(1)) == 15 &&
      CellRect(Rect(Point(0.0, 0.0), 35.0, 35.0), draws, 0, 14).width == -28.0 &&
      CellRect(Rect(Point(0.0, 0.0), 35.0, 35.0), draws, 0, 14).height == -28.0
  {
    var draws := Constant(0.9);
    assert IsUnitStream(draws);
    assert UniformToInt(0.9, 7) == 6;
    assert UniformToInt(0.9, 5) == 4;
    InsetSumConstant(0.9, 0, 35.0 / 15.0, 15);
  }

  /** Every cell of a group on a base of non-negative width lies within
      the base's left and right edges: its standardised edges are between
      the base's, even once it has turned inside out. When the base is at
      least as high as it is wide (as the square cells of the sketch are),
      the same holds vertically. */
  lemma CellWithinBase(rect: Rect, draws: nat -> real, pos: nat, k: nat)
    requires IsUnitStream(draws) && k < CellCount(draws(pos), draws(pos + 1))
    requires 0.0 <= rect.width
    ensures var cell := CellRect(rect, draws, pos, k);
      MinX(rect) <= MinX(cell) && MaxX(cell) <= MaxX(rect)
    ensures rect.width <= rect.height ==>
      var cell := CellRect(rect, draws, pos, k);
      MinY(rect) <= MinY(cell) && MaxY(cell) <= MaxY(rect)
  {
    var count := CellCount(draws(pos), draws(pos + 1));
    var gap := Gap(rect, count);
    var inset := InsetSum(draws, pos, gap, k + 1);
    InsetWithinWidth(rect, count, inset, k + 1, draws, pos);
  }

  /** Helper for CellWithinBase: `n <= count` steps of at most one gap
      each inset by no more than the base is wide. */
  lemma InsetWithinWidth(rect: Rect, count: int, inset: real, n: nat, draws: nat -> real, pos: nat)
    requires IsUnitStream(draws) && 0 < n <= count && 0.0 <= rect.width
    requires inset == InsetSum(draws, pos, Gap(rect, count), n)
    ensures 0.0 <= inset <= rect.width
  {
    var gap := Gap(rect, count);
    InsetSumBounds(draws, pos, gap, n);
    MulSign(gap, (count - n) as real);
    assert gap * (count - n) as real == count as real * gap - n as real * gap;
    assert count as real * gap == rect.width;
  }

  /** One pass of the loop of `Quad.init`, the `k`-th, up to the append:
      the inset and the shade are drawn and the cell is built on the last
      rect inset by that much; it is cell `k` of the group drawn from `pos`
      on. */
  method NextCell(rect: Rect, lastRect: Rect, gap: real, rds: RandomSource, ghost pos: nat, ghost k: nat)
    returns (cell: QuadCell, cellRect: Rect)
    requires rds.Valid() && rds.pos == pos + 2 + 2 * k
    requires gap == Gap(rect, CellCount(rds.draws(pos), rds.draws(pos + 1)))
    requires lastRect == InsetRect(rect, InsetSum(rds.draws, pos, gap, k))
    modifies rds
    ensures rds.pos == old(rds.pos) + 2
    ensures cellRect == InsetRect(rect, InsetSum(rds.draws, pos, gap, k + 1))
    ensures fresh(cell) && cell.Shape() == CellAt(rect, rds.draws, pos, k)
  {
    var u := rds.NextUniform();
    assert u == rds.draws(pos + 2 + 2 * k);
    var inset := u * gap;
    assert InsetSum(rds.draws, pos, gap, k + 1) == InsetSum(rds.draws, pos, gap, k) + inset;
    InsetTwice(rect, InsetSum(rds.draws, pos, gap, k), inset);
    cellRect := InsetRect(lastRect, inset);
    var shade := RandomShade(rds);
    assert shade == Shade(rds.draws(pos + 3 + 2 * k));
    cell := new QuadCell(cellRect, shade);
  }

  /** A `Quad`: the group of nested cells built on one grid cell. */
  class Quad {
    var cells: seq<QuadCell>

    /** No cell appears twice, so noising one cell leaves the others be. */
    ghost predicate Valid()
      reads this
    {
      forall a, b :: 0 <= a < b < |cells| ==> cells[a] != cells[b]
    }

    /** The cells currently describe `shapes`, in order. */
    ghost predicate Describes(shapes: seq<QuadShape>)
      reads this, cells
    {
      |cells| == |shapes| && forall k :: 0 <= k < |cells| ==> cells[k].Shape() == shapes[k]
    }

    /** `init(rect:rds:)`: draws the count and the gap, then appends the
        cells one by one, each inset from the last. */
    constructor (rect: Rect, rds: RandomSource)
      requires rds.Valid()
      modifies rds
      ensures Valid() && forall k :: 0 <= k < |cells| ==> fresh(cells[k])
      ensures rds.pos == old(rds.pos) + GroupDraws(rds.draws, old(rds.pos))
      ensures Describes(NestedCells(rect, rds.draws, old(rds.pos)))
    {
      cells := [];
      new;
      ghost var pos := rds.pos;
      ghost var draws := rds.draws;
      var countA := rds.NextInt(7);
      var countB := rds.NextInt(5);
      var count := 5 + countA + countB;
      assert count == CellCount(draws(pos), draws(pos + 1));
      var gap := StdWidth(rect) / count as real;
      var lastRect := rect;
      assert InsetRect(rect, 0.0) == rect;
      for k := 0 to count
        invariant Valid() && rds.draws == draws && rds.pos == pos + 2 + 2 * k
        invariant lastRect == InsetRect(rect, InsetSum(draws, pos, gap, k))
        invariant |cells| == k && forall t :: 0 <= t < k ==> fresh(cells[t])
        invariant forall t :: 0 <= t < k ==> cells[t].Shape() == CellAt(rect, draws, pos, t)
      {
        lastRect := AddCell(rect, lastRect, gap, rds, pos, k);
      }
    }

    /** One pass of the loop of `init`, the `k`-th: the next cell is built
        and appended, and the cells stay the first ones of the group drawn
        from `pos` on. */
    method AddCell(rect: Rect, lastRect: Rect, gap: real, rds: RandomSource, ghost pos: nat, ghost k: nat)
      returns (cellRect: Rect)
      requires Valid() && rds.Valid() && rds.pos == pos + 2 + 2 * k
      requires gap == Gap(rect, CellCount(rds.draws(pos), rds.draws(pos + 1)))
      requires lastRect == InsetRect(rect, InsetSum(rds.draws, pos, gap, k))
      requires |cells| == k && forall t :: 0 <= t < k ==> cells[t].Shape() == CellAt(rect, rds.draws, pos, t)
      modifies this, rds
      ensures Valid() && rds.pos == old(rds.pos) + 2
      ensures cellRect == InsetRect(rect, InsetSum(rds.draws, pos, gap, k + 1))
      ensures |cells| == k + 1 && forall t :: 0 <= t <= k ==> cells[t].Shape() == CellAt(rect, rds.draws, pos, t)
      ensures forall t :: 0 <= t < k ==> cells[t] == old(cells[t])
      ensures fresh(cells[k])
    {
      var cell;
      cell, cellRect := NextCell(rect, lastRect, gap, rds, pos, k);
      cells := cells + [cell];
    }

    /** `addNoise(noiseMap)`: every cell in turn is moved by the noise. */
    method AddNoise(noise: (int, int) -> real)
      requires Valid()
      modifies cells
      ensures forall k :: 0 <= k < |cells| ==> cells[k].Shape() == NoisedQuad(old(cells[k].Shape()), noise, NoiseScale)
    {
      for k := 0 to |cells|
        invariant forall t :: 0 <= t < k ==> cells[t].Shape() == NoisedQuad(old(cells[t].Shape()), noise, NoiseScale)
        invariant forall t :: k <= t < |cells| ==> cells[t].Shape() == old(cells[t].Shape())
      {
        assert forall t :: 0 <= t < |cells| && t != k ==> cells[t] != cells[k];
        cells[k].AddNoise(noise);
      }
    }
  }

  /** The draw at which group `t` of the walk starts: each group takes two
      draws for its count and two per cell. */
  function GroupPos(draws: nat -> real, t: nat): nat
    requires IsUnitStream(draws)
  {
    if t == 0 then 0 else GroupPos(draws, t - 1) + GroupDraws(draws, GroupPos(draws, t - 1))
  }

  /** The first `t` groups take between 12 and 32 draws each. */
  lemma {:induction false} GroupPosBounds(draws: nat -> real, t: nat)
    requires IsUnitStream(draws)
    ensures 12 * t <= GroupPos(draws, t) <= 32 * t
  {
    if t > 0 {
      GroupPosBounds(draws, t - 1);
    }
  }

  /** The group built on `rect` from draw `pos` on, after noise. */
  function GroupOn(rect: Rect, draws: nat -> real, pos: nat, noise: (int, int) -> real): seq<QuadShape>
    requires IsUnitStream(draws)
  {
    NoisedCells(NestedCells(rect, draws, pos), noise)
  }

  /** Group `t` of the grid walk, on cell (t / n, t % n). */
  function Group(g: PaddedGrid, draws: nat -> real, noise: (int, int) -> real, t: nat): seq<QuadShape>
    requires IsUnitStream(draws) && 0 < g.n
  {
    GroupOn(PaddedCell(g, t / g.n, t % g.n), draws, GroupPos(draws, t), noise)
  }

  /** With the sketch's square cells, every cell of every group of the grid
      lies, before noise, inside the canvas and at least `padding` from each
      edge. */
  lemma NestedCellsInCanvas(size: int, padding: int, boundWidth: int, boundHeight: int,
                            draws: nat -> real, i: int, j: int, pos: nat, k: nat)
    requires 0 <= size && 0 <= padding && 0 < size + padding
    requires padding <= boundWidth && padding <= boundHeight
    requires var g := MakePaddedGrid(size, size, padding, boundWidth, boundHeight);
      0 <= i < g.m && 0 <= j < g.n
    requires IsUnitStream(draws) && k < CellCount(draws(pos), draws(pos + 1))
    ensures var g := MakePaddedGrid(size, size, padding, boundWidth, boundHeight);
      var cell := CellRect(PaddedCell(g, i, j), draws, pos, k);
      padding as real <= MinX(cell) && MaxX(cell) <= (boundWidth - padding) as real &&
      padding as real <= MinY(cell) && MaxY(cell) <= (boundHeight - padding) as real
  {
    var g := MakePaddedGrid(size, size, padding, boundWidth, boundHeight);
    PaddedCellInCanvas(size, size, padding, boundWidth, boundHeight, i, j);
    CellWithinBase(PaddedCell(g, i, j), draws, pos, k);
  }

  /** The body of the inner loop of `generateQuads` on a cell's rect: a
      group is built on it from the next draws and moved by the noise field. */
  method BuildGroup(rect: Rect, rds: RandomSource, noise: (int, int) -> real) returns (quad: Quad)
    requires rds.Valid()
    modifies rds
    ensures rds.pos == old(rds.pos) + GroupDraws(rds.draws, old(rds.pos))
    ensures fresh(quad) && quad.Valid()
    ensures quad.Describes(GroupOn(rect, rds.draws, old(rds.pos), noise))
  {
    quad := new Quad(rect, rds);
    quad.AddNoise(noise);
  }

  /** One pass of the inner loop of `generateQuads`, at cell (i, j): the
      group of position `i * n + j` of the walk. */
  method PlaceGroup(g: PaddedGrid, i: int, j: int, rds: RandomSource, noise: (int, int) -> real, ghost t: nat)
    returns (quad: Quad)
    requires rds.Valid() && 0 <= i && 0 <= j < g.n && t == i * g.n + j && rds.pos == GroupPos(rds.draws, t)
    modifies rds
    ensures rds.pos == GroupPos(rds.draws, t + 1)
    ensures fresh(quad) && quad.Valid() && quad.Describes(Group(g, rds.draws, noise, t))
  {
    GridPosition(i, j, g.n);
    assert t / g.n == i && t % g.n == j;
    assert GroupPos(rds.draws, t + 1) == rds.pos + GroupDraws(rds.draws, rds.pos);
    quad := BuildGroup(PaddedCell(g, i, j), rds, noise);
  }

  /** The inner loop of `generateQuads` for column `i`: a group for every
      cell of the column, appended in order. The groups placed before stay
      as they are and the new ones are fresh. */
  method PlaceColumn(g: PaddedGrid, i: int, rds: RandomSource, noise: (int, int) -> real, quads: seq<Quad>)
    returns (quads': seq<Quad>)
    requires rds.Valid() && 0 <= i && 0 < g.n
    requires |quads| == i * g.n && rds.pos == GroupPos(rds.draws, |quads|)
    requires forall t :: 0 <= t < |quads| ==> quads[t].Valid() && quads[t].Describes(Group(g, rds.draws, noise, t))
    requires forall s, t :: 0 <= s < t < |quads| ==> quads[s] != quads[t]
    modifies rds
    ensures |quads'| == |quads| + g.n && rds.pos == GroupPos(rds.draws, |quads'|)
    ensures forall t :: 0 <= t < |quads'| ==> quads'[t].Valid() && quads'[t].Describes(Group(g, rds.draws, noise, t))
    ensures forall t :: 0 <= t < |quads| ==> quads'[t] == quads[t]
    ensures forall t :: |quads| <= t < |quads'| ==> fresh(quads'[t])
    ensures forall s, t :: 0 <= s < t < |quads'| ==> quads'[s] != quads'[t]
  {
    quads' := quads;
    for j := 0 to g.n
      invariant |quads'| == i * g.n + j && rds.pos == GroupPos(rds.draws, |quads'|)
      invariant forall t :: 0 <= t < |quads'| ==> quads'[t].Valid() && quads'[t].Describes(Group(g, rds.draws, noise, t))
      invariant forall t :: 0 <= t < |quads| ==> quads'[t] == quads[t]
      invariant forall t :: |quads| <= t < |quads'| ==> fresh(quads'[t])
      invariant forall s, t :: 0 <= s < t < |quads'| ==> quads'[s] != quads'[t]
    {
      quads' := PlaceNext(g, i, j, rds, noise, quads');
    }
  }

  /** Cell (i, j) visited: the groups placed so far gain the group of this
      cell, and stay the groups of the walk so far. */
  method PlaceNext(g: PaddedGrid, i: int, j: int, rds: RandomSource, noise: (int, int) -> real, quads: seq<Quad>)
    returns (quads': seq<Quad>)
    requires rds.Valid() && 0 <= i && 0 <= j < g.n
    requires |quads| == i * g.n + j && rds.pos == GroupPos(rds.draws, |quads|)
    requires forall t :: 0 <= t < |quads| ==> quads[t].Valid() && quads[t].Describes(Group(g, rds.draws, noise, t))
    requires forall s, t :: 0 <= s < t < |quads| ==> quads[s] != quads[t]
    modifies rds
    ensures |quads'| == |quads| + 1 && rds.pos == GroupPos(rds.draws, |quads'|)
    ensures forall t :: 0 <= t < |quads'| ==> quads'[t].Valid() && quads'[t].Describes(Group(g, rds.draws, noise, t))
    ensures forall t :: 0 <= t < |quads| ==> quads'[t] == quads[t]
    ensures fresh(quads'[|quads|])
    ensures forall s, t :: 0 <= s < t < |quads'| ==> quads'[s] != quads'[t]
  {
    var quad := PlaceGroup(g, i, j, rds, noise, |quads|);
    assert forall s :: 0 <= s < |quads| ==> quads[s] != quad;
    quads' := quads + [quad];
  }

  /** `generateQuads(width:height:padding:boundWidth:boundHeight:)`: one
      group per grid cell, i-major, all drawn from a single random source,
      each group starting where the one before stopped drawing. */
  method GenerateQuads(width: int, height: int, padding: int, boundWidth: int, boundHeight: int,
                       draws: nat -> real, noise: (int, int) -> real)
    returns (quads: seq<Quad>)
    requires width + padding != 0 && height + padding != 0
    requires MakePaddedGrid(width, height, padding, boundWidth, boundHeight).m >= 0
    requires MakePaddedGrid(width, height, padding, boundWidth, boundHeight).m > 0 ==>
      MakePaddedGrid(width, height, padding, boundWidth, boundHeight).n >= 0
    requires IsUnitStream(draws)
    ensures var g := MakePaddedGrid(width, height, padding, boundWidth, boundHeight);
      |quads| == g.m * g.n &&
      (g.n > 0 ==> forall t :: 0 <= t < |quads| ==> quads[t].Valid() && quads[t].Describes(Group(g, draws, noise, t)))
    ensures forall t :: 0 <= t < |quads| ==> fresh(quads[t])
    ensures forall s, t :: 0 <= s < t < |quads| ==> quads[s] != quads[t]
  {
    var g := MakePaddedGrid(width, height, padding, boundWidth, boundHeight);
    var rds := new RandomSource(draws);
    quads := [];
    if g.n <= 0 {
      return;
    }
    for i := 0 to g.m
      invariant rds.Valid() && rds.draws == draws
      invariant |quads| == i * g.n && rds.pos == GroupPos(draws, |quads|)
      invariant forall t :: 0 <= t < |quads| ==> quads[t].Valid() && quads[t].Describes(Group(g, draws, noise, t))
      invariant forall t :: 0 <= t < |quads| ==> fresh(quads[t])
      invariant forall s, t :: 0 <= s < t < |quads| ==> quads[s] != quads[t]
    {
      quads := PlaceColumn(g, i, rds, noise, quads);
      assert (i + 1) * g.n == i * g.n + g.n;
    }
  }
}
