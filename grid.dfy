/** The centred grids the sketches lay their shapes on. The number of cells
    and the margins come from Swift's truncating `Int` division. */
module Grid {
  import opened Geometry

  /** How many cells of `step` fit into `room`: `room / step` in Swift. When
      both are positive it is the largest count that fits. */
  function FitCount(room: int, step: int): (c: int)
    requires step != 0
    ensures 0 <= room && 0 < step ==> 0 <= c && c * step <= room < (c + 1) * step
  {
    var c := TruncDiv(room, step);
    if 0 <= room && 0 < step then
      DivBounds(room, step);
      assert (c + 1) * step == c * step + step;
      c
    else
      c
  }

  /** The margin that centres a block of `used` points in `bound`:
      `(bound - used) / 2` in Swift, half the leftover rounded toward zero. */
  function Margin(bound: int, used: int): (d: int)
    ensures 0 <= bound - used ==> 0 <= 2 * d <= bound - used <= 2 * d + 1
    ensures bound - used < 0 ==> bound - used <= 2 * d <= bound - used + 1 && d <= 0
  {
    TruncDiv(bound - used, 2)
  }

  /** Cells of `width × height` with `padding` between them and around them
      (ad001 and ad005): `m` columns, `n` rows, shifted by the margins
      `dx`, `dy` that centre the block in the canvas. */
  datatype PaddedGrid = PaddedGrid(width: int, height: int, padding: int, m: int, n: int, dx: int, dy: int)

  /** `m = (boundWidth - padding) / (width + padding)` and
      `dx = (boundWidth - (m * (width + padding) + padding)) / 2`, likewise for
      `n` and `dy`. */
  function MakePaddedGrid(width: int, height: int, padding: int, boundWidth: int, boundHeight: int): (g: PaddedGrid)
    requires width + padding != 0 && height + padding != 0
    ensures g.width == width && g.height == height && g.padding == padding
    ensures 0 <= boundWidth - padding && 0 < width + padding ==>
      0 <= g.m && g.m * (width + padding) <= boundWidth - padding < (g.m + 1) * (width + padding) &&
      0 <= 2 * g.dx <= boundWidth - (g.m * (width + padding) + padding) <= 2 * g.dx + 1
    ensures 0 <= boundHeight - padding && 0 < height + padding ==>
      0 <= g.n && g.n * (height + padding) <= boundHeight - padding < (g.n + 1) * (height + padding) &&
      0 <= 2 * g.dy <= boundHeight - (g.n * (height + padding) + padding) <= 2 * g.dy + 1
  {
    var m := FitCount(boundWidth - padding, width + padding);
    var n := FitCount(boundHeight - padding, height + padding);
    PaddedGrid(width, height, padding, m, n,
               Margin(boundWidth, m * (width + padding) + padding),
               Margin(boundHeight, n * (height + padding) + padding))
  }

  /** The rect of cell (i, j): `CGRect(x: dx + padding + i * (width + padding),
      y: dy + padding + j * (height + padding), width: width, height: height)`. */
  function PaddedCell(g: PaddedGrid, i: int, j: int): (r: Rect)
    ensures r.width == g.width as real && r.height == g.height as real
  {
    Rect(Point((g.dx + g.padding + i * (g.width + g.padding)) as real,
               (g.dy + g.padding + j * (g.height + g.padding)) as real),
         g.width as real, g.height as real)
  }

  /** With non-negative sizes and padding and a canvas at least `padding`
      wide and high, the margins are non-negative and every cell of the grid
      lies inside the canvas, at least `padding` away from each edge. */
  lemma PaddedCellInCanvas(width: int, height: int, padding: int, boundWidth: int, boundHeight: int, i: int, j: int)
    requires 0 <= width && 0 <= height && 0 <= padding && 0 < width + padding && 0 < height + padding
    requires padding <= boundWidth && padding <= boundHeight
    requires var g := MakePaddedGrid(width, height, padding, boundWidth, boundHeight);
      0 <= i < g.m && 0 <= j < g.n
    ensures var g := MakePaddedGrid(width, height, padding, boundWidth, boundHeight);
      var r := PaddedCell(g, i, j);
      0 <= g.dx && 0 <= g.dy &&
      padding as real <= MinX(r) && MaxX(r) <= (boundWidth - padding) as real &&
      padding as real <= MinY(r) && MaxY(r) <= (boundHeight - padding) as real
  {
    var g := MakePaddedGrid(width, height, padding, boundWidth, boundHeight);
    AxisCellInBounds(width, padding, boundWidth, g.m, g.dx, i);
    AxisCellInBounds(height, padding, boundHeight, g.n, g.dy, j);
  }

  /** One axis of PaddedCellInCanvas. */
  lemma AxisCellInBounds(size: int, padding: int, bound: int, count: int, margin: int, i: int)
    requires 0 <= size && 0 <= padding && 0 <= i < count
    requires count * (size + padding) <= bound - padding
    requires 0 <= 2 * margin <= bound - (count * (size + padding) + padding)
    ensures 0 <= margin
    ensures padding <= margin + padding + i * (size + padding)
    ensures margin + padding + i * (size + padding) + size <= bound - padding
  {
    var step := size + padding;
    MulMonotone(i, count - 1, step);
    MulMonotone(0, i, step);
    assert (count - 1) * step == count * step - step;
  }

  /** Neighbouring cells are exactly `padding` apart. */
  lemma PaddedCellSpacing(g: PaddedGrid, i: int, j: int)
    ensures PaddedCell(g, i + 1, j).origin.x - (PaddedCell(g, i, j).origin.x + PaddedCell(g, i, j).width) == g.padding as real
    ensures PaddedCell(g, i, j + 1).origin.y - (PaddedCell(g, i, j).origin.y + PaddedCell(g, i, j).height) == g.padding as real
  {
    assert (i + 1) * (g.width + g.padding) == i * (g.width + g.padding) + g.width + g.padding;
    assert (j + 1) * (g.height + g.padding) == j * (g.height + g.padding) + g.height + g.padding;
  }

  /** Squares of side `length` without padding (ad002). */
  datatype SquareGrid = SquareGrid(length: int, m: int, n: int, dx: int, dy: int)

  /** `m = (boundWidth - length) / length`, `dx = (boundWidth - length * m) / 2`,
      likewise for `n` and `dy`. One square's worth of room is held back before
      counting, so the grid has one column fewer than would fit whenever the
      width is an exact multiple of `length`. */
  function MakeSquareGrid(length: int, boundWidth: int, boundHeight: int): (g: SquareGrid)
    requires length != 0
    ensures g.length == length
    ensures 0 < length <= boundWidth ==>
      0 <= g.m && g.m * length <= boundWidth - length < (g.m + 1) * length &&
      0 <= 2 * g.dx <= boundWidth - length * g.m <= 2 * g.dx + 1
    ensures 0 < length <= boundHeight ==>
      0 <= g.n && g.n * length <= boundHeight - length < (g.n + 1) * length &&
      0 <= 2 * g.dy <= boundHeight - length * g.n <= 2 * g.dy + 1
  {
    var m := FitCount(boundWidth - length, length);
    var n := FitCount(boundHeight - length, length);
    SquareGrid(length, m, n, Margin(boundWidth, length * m), Margin(boundHeight, length * n))
  }

  /** The grid fits the canvas: non-negative margins and `dx + m * length`
      at most the width (likewise for the height), so each square
      `[dx + i * length, dx + (i + 1) * length]` of the grid lies inside. */
  lemma SquareGridInCanvas(length: int, boundWidth: int, boundHeight: int)
    requires 0 < length <= boundWidth && length <= boundHeight
    ensures var g := MakeSquareGrid(length, boundWidth, boundHeight);
      0 <= g.dx && g.dx + g.m * length <= boundWidth &&
      0 <= g.dy && g.dy + g.n * length <= boundHeight
  {
  }

  /** The grid the ad002 sketch uses: squares of 20 on a 410 × 610 canvas
      make a 19 × 29 grid with margins of 15. */
  lemma SketchSquareGrid()
    ensures MakeSquareGrid(20, 410, 610) == SquareGrid(20, 19, 29, 15, 15)
  {
  }

  /** Grid positions are numbered i-major: position `i * n + j` is cell (i, j). */
  lemma GridPosition(i: int, j: int, n: int)
    requires 0 <= i && 0 <= j < n
    ensures (i * n + j) / n == i && (i * n + j) % n == j
  {
    var a := i * n + j;
    var q, r := a / n, a % n;
    assert a == q * n + r;
    if q < i {
      assert (q + 1) * n == q * n + n;
      MulMonotone(q + 1, i, n);
    } else if i < q {
      assert (i + 1) * n == i * n + n;
      MulMonotone(i + 1, q, n);
    }
  }

  lemma MulMonotone(a: int, b: int, c: int)
    requires a <= b && 0 <= c
    ensures a * c <= b * c
  {
  }
}
