/** ad003: pairs of tall stroked rects. Each rect's x is drawn at random
    between the two padded edges; its y follows a downward parabola in x,
    gently for the upper rect of a pair and more gently still (inverted) for
    the lower one. Every rect's origin is then moved by the noise field. */
module LongRects {
  import opened Geometry
  import opened Random
  import opened Noise

  /** The factor `noisify` applies to the noise sample in this sketch. */
  const NoiseScale: real := 10.0

  /** A `LongRect`: an origin that `addNoise` moves, and a fixed size. */
  class LongRect {
    var origin: Point
    const width: real
    const height: real

    /** The rect this object currently describes. */
    function Value(): Rect
      reads this
    {
      Rect(origin, width, height)
    }

    constructor (origin: Point, width: real, height: real)
      ensures Value() == Rect(origin, width, height)
    {
      this.origin := origin;
      this.width := width;
      this.height := height;
    }

    /** `addNoise(noiseMap)`: moves the origin; the size stays as built. */
    method AddNoise(noise: (int, int) -> real)
      modifies this
      ensures origin == Noisify(old(origin), noise, NoiseScale)
      ensures Value() == Rect(Noisify(old(origin), noise, NoiseScale), width, height)
    {
      origin := Noisify(origin, noise, NoiseScale);
    }
  }

  /** `-x * x + x * (x1 + x2) - x1 * x2`, the height of the arc at `x`: it is
      the product of the distances from `x` to the two ends. */
  function Parabola(x: real, x1: real, x2: real): (h: real)
    ensures h == (x - x1) * (x2 - x)
  {
    -x * x + x * (x1 + x2) - x1 * x2
  }

  /** The arc is zero at both ends, non-negative between them and highest in
      the middle, where it is `((x2 - x1) / 2)²`. */
  lemma ParabolaShape(x: real, x1: real, x2: real)
    requires x1 <= x <= x2
    ensures Parabola(x1, x1, x2) == 0.0 && Parabola(x2, x1, x2) == 0.0
    ensures 0.0 <= Parabola(x, x1, x2) <= Peak(x1, x2)
  {
    NonnegProduct(x - x1, x2 - x);
    var mid := (x1 + x2) / 2.0;
    assert Peak(x1, x2) - Parabola(x, x1, x2) == (x - mid) * (x - mid);
    SquareNonneg(x - mid);
  }

  lemma SquareNonneg(a: real)
    ensures a * a >= 0.0
  {
    if a < 0.0 {
      NonnegProduct(-a, -a);
    } else {
      NonnegProduct(a, a);
    }
  }

  function Peak(x1: real, x2: real): real
  {
    ((x2 - x1) / 2.0) * ((x2 - x1) / 2.0)
  }

  /** `x1 = padding * 2` and `x2 = boundWidth - padding * 2`: the range the
      rects' x is drawn from. */
  function LeftEdge(padding: int): real
  {
    (padding * 2) as real
  }

  function RightEdge(padding: int, boundWidth: int): real
  {
    (boundWidth - padding * 2) as real
  }

  /** The origin of an upper rect drawn at `ux`: `uy = padding + uh / 2000`. */
  function UpperOrigin(ux: real, padding: int, boundWidth: int): Point
  {
    Point(ux, padding as real + Parabola(ux, LeftEdge(padding), RightEdge(padding, boundWidth)) / 2000.0)
  }

  /** The origin of a lower rect drawn at `lx`:
      `ly = padding / 2 + height - lh / 10000`, with Swift's integer
      `padding / 2`. */
  function LowerOrigin(lx: real, padding: int, height: int, boundWidth: int): Point
  {
    Point(lx, TruncDiv(padding, 2) as real + height as real
              - Parabola(lx, LeftEdge(padding), RightEdge(padding, boundWidth)) / 10000.0)
  }

  /** Where the rect built from uniform draw `u` sits before noise: upper
      rects come from even draws, lower rects from odd ones. */
  function PlacedOrigin(t: nat, u: real, padding: int, height: int, boundWidth: int): Point
  {
    var x := Interpolate(u, LeftEdge(padding), RightEdge(padding, boundWidth));
    if t % 2 == 0 then UpperOrigin(x, padding, boundWidth) else LowerOrigin(x, padding, height, boundWidth)
  }

  /** Rect `t` of the output, after noise. It uses draw `t` of the stream. */
  function RectAt(t: nat, width: int, height: int, padding: int, boundWidth: int,
                  draws: nat -> real, noise: (int, int) -> real): Rect
  {
    Rect(Noisify(PlacedOrigin(t, draws(t), padding, height, boundWidth), noise, NoiseScale),
         width as real, height as real)
  }

  /** Placement before noise, when the canvas is at least four paddings wide:
      x lies in `[x1, x2]`, an upper rect is never above `padding`, and a
      lower rect is never below `padding / 2 + height`. */
  lemma PlacementBounds(t: nat, u: real, padding: int, height: int, boundWidth: int)
    requires 0.0 <= u <= 1.0
    requires 4 * padding <= boundWidth
    ensures var p := PlacedOrigin(t, u, padding, height, boundWidth);
      LeftEdge(padding) <= p.x <= RightEdge(padding, boundWidth) &&
      (t % 2 == 0 ==> padding as real <= p.y) &&
      (t % 2 == 1 ==> p.y <= TruncDiv(padding, 2) as real + height as real)
  {
    var x1, x2 := LeftEdge(padding), RightEdge(padding, boundWidth);
    var x := Interpolate(u, x1, x2);
    ParabolaShape(x, x1, x2);
  }

  /** In the unperturbed layout an upper rect starts above every lower rect
      once `height` exceeds `padding` plus six ten-thousandths of the arc's
      peak; the sketch's numbers (padding 20, height 180, width 600) clear
      this by far. */
  lemma UpperAboveLower(ux: real, lx: real, padding: int, height: int, boundWidth: int)
    requires 0 <= padding && 4 * padding <= boundWidth
    requires LeftEdge(padding) <= ux <= RightEdge(padding, boundWidth)
    requires LeftEdge(padding) <= lx <= RightEdge(padding, boundWidth)
    requires height as real > padding as real + Peak(LeftEdge(padding), RightEdge(padding, boundWidth)) * 0.0006
    ensures UpperOrigin(ux, padding, boundWidth).y < LowerOrigin(lx, padding, height, boundWidth).y
  {
    var x1, x2 := LeftEdge(padding), RightEdge(padding, boundWidth);
    ParabolaShape(ux, x1, x2);
    ParabolaShape(lx, x1, x2);
    assert TruncDiv(padding, 2) == padding / 2;
  }

  /** One pass of `generateLongRects`, the `k`-th: `ux` and `lx` are drawn,
      both rects are built on their arcs and moved by the noise field. They
      are rects `2k` and `2k + 1` of the output. */
  method DrawPair(k: nat, width: int, height: int, padding: int, boundWidth: int,
                  rds: RandomSource, noise: (int, int) -> real)
    returns (upperRect: LongRect, lowerRect: LongRect)
    requires rds.Valid() && rds.pos == 2 * k
    modifies rds
    ensures rds.pos == old(rds.pos) + 2
    ensures fresh(upperRect) && fresh(lowerRect) && upperRect != lowerRect
    ensures upperRect.Value() == RectAt(2 * k, width, height, padding, boundWidth, rds.draws, noise)
    ensures lowerRect.Value() == RectAt(2 * k + 1, width, height, padding, boundWidth, rds.draws, noise)
  {
    var x1 := LeftEdge(padding);
    var x2 := RightEdge(padding, boundWidth);

    var ux := RandomReal(rds, x1, x2);
    var uh := Parabola(ux, x1, x2);
    var uy := padding as real + uh / 2000.0;

    var lx := RandomReal(rds, x1, x2);
    var lh := Parabola(lx, x1, x2);
    var ly := TruncDiv(padding, 2) as real + height as real - lh / 10000.0;

    upperRect := new LongRect(Point(ux, uy), width as real, height as real);
    lowerRect := new LongRect(Point(lx, ly), width as real, height as real);

    upperRect.AddNoise(noise);
    lowerRect.AddNoise(noise);
    Parity(k);
  }

  /** `generateLongRects(count:width:height:padding:boundWidth:boundHeight:)`:
      `count` passes, each drawing `ux` then `lx` from a fresh source and
      appending the noised upper rect, then the noised lower rect. */
  method GenerateLongRects(count: nat, width: int, height: int, padding: int,
                           boundWidth: int, boundHeight: int,
                           draws: nat -> real, noise: (int, int) -> real)
    returns (longRects: seq<LongRect>)
    requires IsUnitStream(draws)
    ensures |longRects| == 2 * count
    ensures forall t :: 0 <= t < |longRects| ==>
      fresh(longRects[t]) && longRects[t].Value() == RectAt(t, width, height, padding, boundWidth, draws, noise)
    ensures forall s, t :: 0 <= s < t < |longRects| ==> longRects[s] != longRects[t]
  {
    var rds := new RandomSource(draws);
    longRects := [];
    var k := 0;
    while k < count
      invariant 0 <= k <= count
      invariant rds.Valid() && rds.draws == draws
      invariant |longRects| == 2 * k && rds.pos == 2 * k
      invariant forall t :: 0 <= t < |longRects| ==>
        fresh(longRects[t]) && longRects[t].Value() == RectAt(t, width, height, padding, boundWidth, draws, noise)
      invariant forall s, t :: 0 <= s < t < |longRects| ==> longRects[s] != longRects[t]
    {
      var upperRect, lowerRect := DrawPair(k, width, height, padding, boundWidth, rds, noise);
      longRects := longRects + [upperRect, lowerRect];
      k := k + 1;
    }
  }

  lemma Parity(k: nat)
    ensures (2 * k) % 2 == 0 && (2 * k + 1) % 2 == 1
  {
  }
}
