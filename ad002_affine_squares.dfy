/** ad002: a grid of stroked squares, each rotated by a random angle whose
    range grows with the square's distance from the top of the canvas, and
    nudged off its grid point by a few hundredths of a point. */
module AffineSquares {
  import opened Geometry
  import opened Random
  import opened Grid

  /** The largest positional nudge, in points, on each axis. */
  const Jitter: real := 0.03

  /** An `AffineSquare`: its rect and its rotation in radians. It is never
      changed after construction. */
  datatype AffineSquare = AffineSquare(rect: Rect, angle: real)

  /** `AffineSquare.init(rect:angle:)`: keeps the rect and converts the angle,
      given in degrees, to radians. */
  function MakeAffineSquare(rect: Rect, angleDegrees: real): (s: AffineSquare)
    ensures s.rect == rect
    ensures s.angle * 180.0 == angleDegrees * Pi
  {
    AffineSquare(rect, Radians(angleDegrees))
  }

  /** `r = y * y * 0.22 / 1000`: the largest rotation, in degrees, of a square
      whose grid point has ordinate `y`. */
  function RotationBound(y: int): (r: real)
    ensures r >= 0.0
  {
    (y * y) as real * 0.22 / 1000.0
  }

  /** Squares lower on the canvas may turn further. */
  lemma RotationBoundMonotone(y: int, y': int)
    requires 0 <= y <= y'
    ensures RotationBound(y) <= RotationBound(y')
  {
    MulMonotone(y, y', y);
    MulMonotone(y, y', y');
  }

  /** The square of cell (i, j) when the walk reaches it with `t` squares
      already drawn: its three draws are `3t` (angle), `3t + 1` (x nudge) and
      `3t + 2` (y nudge). */
  function CellSquare(g: SquareGrid, i: int, j: int, t: nat, draws: nat -> real): AffineSquare
  {
    var x := g.dx + i * g.length;
    var y := g.dy + j * g.length;
    var r := RotationBound(y);
    var angle := Interpolate(draws(3 * t), -r, r);
    var randx := x as real + Interpolate(draws(3 * t + 1), -Jitter, Jitter);
    var randy := y as real + Interpolate(draws(3 * t + 2), -Jitter, Jitter);
    MakeAffineSquare(Rect(Point(randx, randy), g.length as real, g.length as real), angle)
  }

  /** What the square of cell (i, j) looks like, whatever the draws: side
      `length`, origin within `Jitter` of the grid point
      `(dx + i * length, dy + j * length)` on each axis, and a rotation
      within `[-radians(r), radians(r)]` for the row's bound `r`. */
  lemma CellSquareShape(g: SquareGrid, i: int, j: int, t: nat, draws: nat -> real)
    requires IsUnitStream(draws)
    ensures var s := CellSquare(g, i, j, t, draws);
      var x := g.dx + i * g.length;
      var y := g.dy + j * g.length;
      s.rect.width == s.rect.height == g.length as real &&
      x as real - Jitter <= s.rect.origin.x <= x as real + Jitter &&
      y as real - Jitter <= s.rect.origin.y <= y as real + Jitter &&
      -Radians(RotationBound(y)) <= s.angle <= Radians(RotationBound(y))
  {
    var y := g.dy + j * g.length;
    var r := RotationBound(y);
    var angle := Interpolate(draws(3 * t), -r, r);
    assert -r <= angle <= r;
    RadiansMonotone(-r, angle);
    RadiansMonotone(angle, r);
  }

  /** The squares the walk has drawn before reaching cell (i, j): every cell
      of the columns before `i`, then the first `j` cells of column `i`. */
  function Walk(g: SquareGrid, draws: nat -> real, i: nat, j: nat): (squares: seq<AffineSquare>)
    requires j <= g.n
    decreases i, j
  {
    if j > 0 then
      var before := Walk(g, draws, i, j - 1);
      before + [CellSquare(g, i, j - 1, |before|, draws)]
    else if i > 0 then Walk(g, draws, i - 1, g.n)
    else []
  }

  /** The walk has drawn one square per cell passed: `i * n + j` of them. */
  lemma {:induction false} WalkLength(g: SquareGrid, draws: nat -> real, i: nat, j: nat)
    requires j <= g.n
    ensures |Walk(g, draws, i, j)| == i * g.n + j
    decreases i, j
  {
    if j > 0 {
      WalkLength(g, draws, i, j - 1);
    } else if i > 0 {
      WalkLength(g, draws, i - 1, g.n);
      assert (i - 1) * g.n + g.n == i * g.n;
    }
  }

  /** Walking on never changes a square already drawn. */
  lemma {:induction false} WalkExtends(g: SquareGrid, draws: nat -> real, i: nat, j: nat, i': nat, j': nat)
    requires j <= g.n && j' <= g.n
    requires i < i' || (i == i' && j <= j')
    ensures |Walk(g, draws, i, j)| <= |Walk(g, draws, i', j')|
    ensures Walk(g, draws, i, j) == Walk(g, draws, i', j')[..|Walk(g, draws, i, j)|]
    decreases i', j'
  {
    if i == i' && j == j' {
    } else if j' > 0 {
      WalkExtends(g, draws, i, j, i', j' - 1);
    } else {
      WalkExtends(g, draws, i, j, i' - 1, g.n);
    }
  }

  /** In the finished walk over `m` columns, square `i * n + j` is the
      square of cell (i, j), drawn from draws `3(i * n + j)` onwards. */
  lemma WalkAt(g: SquareGrid, draws: nat -> real, i: nat, j: nat)
    requires i < g.m && j < g.n
    ensures |Walk(g, draws, g.m, 0)| == g.m * g.n
    ensures Walk(g, draws, g.m, 0)[i * g.n + j] == CellSquare(g, i, j, i * g.n + j, draws)
  {
    WalkLength(g, draws, g.m, 0);
    WalkLength(g, draws, i, j);
    WalkExtends(g, draws, i, j + 1, g.m, 0);
  }

  /** The body of the inner loop of `generateSquares` for cell (i, j), the
      walk having drawn `t` squares: three draws of `rds` give the angle and
      the two nudges of the next square of the walk. */
  method DrawSquare(g: SquareGrid, i: int, j: int, rds: RandomSource, ghost t: nat)
    returns (square: AffineSquare)
    requires rds.Valid() && rds.pos == 3 * t
    modifies rds
    ensures rds.pos == old(rds.pos) + 3
    ensures square == CellSquare(g, i, j, t, rds.draws)
  {
    var x := g.dx + i * g.length;
    var y := g.dy + j * g.length;
    var r := RotationBound(y);
    var angle := RandomReal(rds, -r, r);
    var nudgeX := RandomReal(rds, -Jitter, Jitter);
    var randx := x as real + nudgeX;
    var nudgeY := RandomReal(rds, -Jitter, Jitter);
    var randy := y as real + nudgeY;
    square := MakeAffineSquare(Rect(Point(randx, randy), g.length as real, g.length as real), angle);
  }

  /** `generateSquares(length:boundWidth:boundHeight:)`: one square per grid
      cell, in i-major order, three draws of a fresh random source per square. */
  method GenerateSquares(length: int, boundWidth: int, boundHeight: int, draws: nat -> real)
    returns (squares: seq<AffineSquare>)
    requires length != 0
    requires IsUnitStream(draws)
    requires MakeSquareGrid(length, boundWidth, boundHeight).m >= 0
    requires MakeSquareGrid(length, boundWidth, boundHeight).m > 0 ==>
      MakeSquareGrid(length, boundWidth, boundHeight).n >= 0
    ensures var g := MakeSquareGrid(length, boundWidth, boundHeight);
      squares == if g.m == 0 then [] else Walk(g, draws, g.m, 0)
  {
    var g := MakeSquareGrid(length, boundWidth, boundHeight);
    var rds := new RandomSource(draws);
    squares := [];
    if g.m == 0 {
      return;
    }
    var i := 0;
    while i < g.m
      invariant 0 <= i <= g.m
      invariant rds.Valid() && rds.draws == draws && rds.pos == 3 * |squares|
      invariant squares == Walk(g, draws, i, 0)
    {
      var j := 0;
      while j < g.n
        invariant 0 <= j <= g.n
        invariant rds.Valid() && rds.draws == draws && rds.pos == 3 * |squares|
        invariant squares == Walk(g, draws, i, j)
      {
        var square := DrawSquare(g, i, j, rds, |squares|);
        squares := squares + [square];
        j := j + 1;
      }
      i := i + 1;
    }
  }
}
