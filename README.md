# Generative sketches: layout and perturbation

This project models five small generative-art sketches, ad001 to ad005. Each
one computes a list of shapes, perturbs them and hands them to a view that
draws them. The model covers the computing and perturbing part:

- **ad001 (module `QuadGrid`)**: a padded grid of quads. Each grid position is
  kept with probability 70 %, takes a colour from a four-entry palette, and has
  its corners moved by a noise map.
- **ad002 (module `AffineSquares`)**: a grid of squares. Each square is rotated
  by a random angle whose bound grows with `y²`, and its origin is jittered by
  at most 0.03.
- **ad003 (module `LongRects`)**: pairs of long rectangles. Their y position
  follows the parabola `(x - x1)(x2 - x)` of a random x. One of each pair hangs
  from the top edge and one stands on the bottom edge.
- **ad004 (module `RadialWedges`)**: ten rings of noised chords. Each chord
  passes through a jittered centre while its radius does a bounded random
  walk. The two outlines through the chord ends are closed at the centre.
- **ad005 (module `NestedQuads`)**: a padded grid of groups of 5 to 15 nested
  quads. Each quad is the previous one inset by a random fraction of a gap, and
  gets a random warm shade.

Shared modules:

- `Geometry` holds points, rectangles with the standardised `minX`/`maxX`
  accessors, `UIEdgeInsets` insetting, Swift's truncating integer division,
  and the `Int32` truncation of a coordinate.
- `Grid` holds the padded and unpadded grid arithmetic.
- `Noise` holds `noisify`.
- `Shapes` holds the four-corner quad.
- `Random` holds the random source.

How the environment is represented:

- **Random source.** It is an explicit stream of draws `draws: nat -> real`,
  each in `[0, 1)`, read through the `Random.RandomSource` class whose `pos`
  field counts the draws consumed. `nextInt(upperBound: n)` is `floor(u * n)`
  of one draw.
- **Noise map.** It is an uninterpreted function `noise: (int, int) -> real`,
  sampled at the truncated coordinates of a point, exactly as the code
  truncates them.
- **ad004's trigonometry.** `cos` and `sin` are parameters.
- **Numbers.** Coordinates are exact reals.

Every generator is a method whose loops mirror the sketch's loops. Each is
proved equal to a specification function: `Layout` (ad001), `Walk` (ad002),
`RectAt` (ad003), `Rings`/`Fills` (ad004), and `NestedCells`/`Group` (ad005).
The promised properties are lemmas about those functions.

The code is followed as written in three places:

- The ad002 sketch (410 × 610 canvas, squares of 20) gets a 19 × 29 grid with
  margins of 15, not 20 × 30 (`Grid.SketchSquareGrid`).
- Noise coordinates are truncated toward zero and never clamped.
- Nested insets in ad005 can be 0, so cells need not shrink strictly. Widths
  can even become negative (`NestedQuads.InnermostMayInvert`).

## Model

| member | source | states |
|---|---|---|
| Geometry.MinX | ad001.playground/Contents.swift:23-24 | `rect.minX`: the left edge of the standardised rect, the origin for a non-negative width and origin plus width otherwise; used for the corners, whose properties `Shapes.CornersShape` states |
| Geometry.MaxX | ad001.playground/Contents.swift:25-26 | `rect.maxX`: the right edge of the standardised rect, origin plus width for a non-negative width and the origin otherwise |
| Geometry.MinY | ad001.playground/Contents.swift:23-26 | `rect.minY`: the top edge of the standardised rect, chosen by the sign of the height |
| Geometry.MaxY | ad001.playground/Contents.swift:24-25 | `rect.maxY`: the bottom edge of the standardised rect, chosen by the sign of the height |
| Geometry.StdWidth | ad005.playground/Contents.swift:68 | `rect.width` is the standardised width: non-negative, `maxX - minX`, and equal to the stored width up to sign |
| Geometry.InsetRect | ad005.playground/Contents.swift:74 | an equal inset moves each of the four edges inward by exactly the inset |
| Geometry.TruncDiv | ad001.playground/Contents.swift:73-76 | Swift `Int` division truncates toward zero: the magnitude of the quotient times the divisor is at most the dividend's and within one divisor of it; the sign follows the dividend; for non-negative operands it agrees with floor division |
| Geometry.Trunc | ad001.playground/Contents.swift:12 | `Int32(x)`: the integer part of `x`, dropping the fraction toward zero; `Geometry.TruncTowardZero` states it |
| Geometry.TruncTowardZero | ad001.playground/Contents.swift:12 | `Int32(x)` rounds toward zero: it is within 1 of `x`, below it for positive `x` and above it for negative `x` |
| Geometry.Radians | ad002.playground/Contents.swift:26-28 | `radians(v) * 180 == v * pi` |
| Geometry.RadiansMonotone | ad002.playground/Contents.swift:26-28 | `radians` is non-decreasing |
| Grid.FitCount | ad001.playground/Contents.swift:73-74 | the grid count is the largest `c` with `c * step <= room` |
| Grid.Margin | ad001.playground/Contents.swift:75-76 | the centring margin is half the leftover room, rounded toward zero |
| Grid.MakePaddedGrid | ad001.playground/Contents.swift:73-76 | `m`, `n` are the most padded cells that fit; `dx`, `dy` are non-negative and split the leftover room evenly |
| Grid.PaddedCell | ad001.playground/Contents.swift:82-84 | every cell has size `width × height` |
| Grid.PaddedCellInCanvas | ad001.playground/Contents.swift:73-84 | for non-negative sizes and padding, `dx, dy >= 0` and every cell lies inside the canvas less the padding on each side |
| Grid.AxisCellInBounds | ad001.playground/Contents.swift:75-83 | along one axis, cell `i` starts at or after the padding and ends at or before `bound - padding` |
| Grid.PaddedCellSpacing | ad001.playground/Contents.swift:82-83 | horizontally and vertically adjacent cells are exactly `padding` apart |
| Grid.MakeSquareGrid | ad002.playground/Contents.swift:39-42 | `m = (bw - L) / L` and `n = (bh - L) / L` are counts that fit; `dx`, `dy` are half the leftover, rounded down |
| Grid.SquareGridInCanvas | ad002.playground/Contents.swift:39-46 | `dx >= 0` and `dx + m * L <= bw`, and likewise for y |
| Grid.SketchSquareGrid | ad002.playground/Contents.swift:105 | the sketch's call (L = 20 on 410 × 610) yields 19 × 29 squares with `dx = dy = 15` |
| Grid.GridPosition | ad001.playground/Contents.swift:78-79 | i-major order: position `i * n + j` recovers `i` and `j` by division and remainder |
| Noise.Noisify | ad001.playground/Contents.swift:10-16 | `noisify`: the noise sample at the truncated coordinates, times the sketch's scale, added to both coordinates; `Noise.NoisifyMoves` and `Noise.NoisifyBounded` state its properties |
| Noise.NoisifyMoves | ad001.playground/Contents.swift:10-16 | `noisify` adds the same `scale * noise(trunc x, trunc y)` to both coordinates |
| Noise.NoisifyBounded | ad003.playground/Contents.swift:15-21 | if the noise is bounded by `b`, each coordinate moves by at most `scale * b` |
| Shapes.Corners | ad001.playground/Contents.swift:22-28 | `Quad.init`: the four corners (minX,minY), (minX,maxY), (maxX,maxY), (maxX,minY) and the fill; `Shapes.CornersShape` states the shape they form |
| Shapes.CornersShape | ad001.playground/Contents.swift:22-28 | corners are (minX,minY), (minX,maxY), (maxX,maxY), (maxX,minY) in that order; the quad is as wide as the standardised width and keeps its fill |
| Shapes.NoisedQuad | ad001.playground/Contents.swift:30-35 | `addNoise`: every vertex through `noisify`, the fill kept; `Shapes.NoisedQuadShape` and `Shapes.NoisedQuadBounded` state its properties |
| Shapes.NoisedQuadShape | ad001.playground/Contents.swift:30-35 | adding noise keeps the fill and moves each vertex along the diagonal (`x - y` unchanged) |
| Shapes.NoisedQuadBounded | ad005.playground/Contents.swift:37-42 | with noise bounded by `b`, every vertex stays within `scale * b` of where it was |
| Random.UniformToInt | ad001.playground/Contents.swift:80-81 | `nextInt(upperBound: n)` lies in `[0, n)`, so the palette lookup is in bounds |
| Random.UniformToIntOnto | ad001.playground/Contents.swift:81 | every index in `[0, n)` is reachable from some draw |
| Random.Interpolate | ad002.playground/Contents.swift:30-33 | `randomReal` lies between `lower` and `upper` (either order), is `lower` at alpha 0 and `upper` at alpha 1 |
| Random.RandomSource.constructor | ad001.playground/Contents.swift:55 | a fresh source starts at the first draw of its stream |
| Random.RandomSource.NextUniform | ad002.playground/Contents.swift:31 | consumes exactly one draw and returns it, in `[0, 1)` |
| Random.RandomSource.NextInt | ad001.playground/Contents.swift:80 | consumes exactly one draw and returns its integer image in `[0, upperBound)` |
| Random.RandomReal | ad002.playground/Contents.swift:30-33 | consumes one draw; the result interpolates it between the bounds and lies within them |
| QuadGrid.Quad.constructor | ad001.playground/Contents.swift:22-28 | the new quad has the four corners of its rect and the given fill |
| QuadGrid.Quad.AddNoise | ad001.playground/Contents.swift:30-35 | each vertex is noisified with scale 3; fill unchanged |
| QuadGrid.Kept | ad001.playground/Contents.swift:80 | the keep test `rds.nextInt(upperBound: 100) < 70` on one draw; `QuadGrid.KeptIff` gives it as `u < 0.7` |
| QuadGrid.KeptIff | ad001.playground/Contents.swift:80 | a position is kept iff `nextInt(upperBound: 100) < 70`, i.e. iff its draw is below 0.7 |
| QuadGrid.KeptPositions | ad001.playground/Contents.swift:78-90 | at most one kept position per grid position |
| QuadGrid.KeptPositionsSound | ad001.playground/Contents.swift:78-90 | every kept position is a grid position whose draw passes the test; they appear in increasing order |
| QuadGrid.KeptPositionsComplete | ad001.playground/Contents.swift:78-90 | every grid position whose draw passes the test is kept |
| QuadGrid.QuadAt | ad001.playground/Contents.swift:81-86 | the quad placed at grid position `p`: the corners of cell `(p / n, p % n)` in the palette colour of its colour draw, noised at scale 3; `QuadGrid.QuadAtCell` ties it to cell `(i, j)` |
| QuadGrid.QuadAtCell | ad001.playground/Contents.swift:81-86 | the quad at position `i * n + j` is the noised corner quad of padded cell `(i, j)`, coloured by the palette entry its colour draw selects |
| QuadGrid.Layout | ad001.playground/Contents.swift:78-90 | the quads the first `hi` grid positions produce: quad `t` at the `t`-th kept position in the colour of colour draw `t`; `QuadGrid.LayoutStep` and the KeptPositions lemmas state its shape |
| QuadGrid.LayoutStep | ad001.playground/Contents.swift:80-87 | visiting a position appends one quad (taking the next colour draw) iff the position is kept, and nothing otherwise |
| QuadGrid.PlaceQuad | ad001.playground/Contents.swift:81-86 | builds and noises the quad of one cell, consuming exactly one colour draw |
| QuadGrid.VisitCell | ad001.playground/Contents.swift:80-88 | consumes one selection draw; returns a quad iff the position is kept, consuming a colour draw only then |
| QuadGrid.PlaceColumn | ad001.playground/Contents.swift:79-89 | one pass of the inner loop consumes `n` selection draws and extends the quads to the layout of the positions visited so far |
| QuadGrid.PlaceNext | ad001.playground/Contents.swift:80-88 | one iteration keeps the emitted quads equal to the layout so far and leaves earlier quads unchanged |
| QuadGrid.GenerateQuads | ad001.playground/Contents.swift:54-92 | as many distinct fresh quads as positions passing the 70 % test, each equal to the layout's entry, in i-major order |
| AffineSquares.MakeAffineSquare | ad002.playground/Contents.swift:10-13 | the square keeps its rect and stores its angle converted to radians |
| AffineSquares.RotationBound | ad002.playground/Contents.swift:48 | the rotation bound `y² * 0.22 / 1000` is non-negative |
| AffineSquares.RotationBoundMonotone | ad002.playground/Contents.swift:48 | the bound does not decrease as `y` grows from 0 |
| AffineSquares.CellSquare | ad002.playground/Contents.swift:46-55 | the square of cell `(i, j)` made from draws `3t` (angle within the row's bound), `3t + 1` and `3t + 2` (nudges within 0.03); `AffineSquares.CellSquareShape` states its properties |
| AffineSquares.CellSquareShape | ad002.playground/Contents.swift:46-55 | each square is `length × length`, its origin is within 0.03 of the grid point, and its angle lies within the rotation bound (in radians) |
| AffineSquares.Walk | ad002.playground/Contents.swift:44-59 | the squares drawn before cell `(i, j)` in i-major order, square `t` using draws from `3t`; `AffineSquares.WalkLength`, `AffineSquares.WalkExtends` and `AffineSquares.WalkAt` state its properties |
| AffineSquares.WalkLength | ad002.playground/Contents.swift:44-59 | after `i` full columns and `j` rows there are `i * n + j` squares |
| AffineSquares.WalkExtends | ad002.playground/Contents.swift:44-59 | later loop states only append to the squares of earlier ones |
| AffineSquares.WalkAt | ad002.playground/Contents.swift:44-59 | there are `m * n` squares and entry `i * n + j` is the square of cell `(i, j)` made from draws `3t`, `3t+1`, `3t+2` |
| AffineSquares.DrawSquare | ad002.playground/Contents.swift:46-55 | one square consumes exactly three draws (angle, x, y) and equals the cell's square |
| AffineSquares.GenerateSquares | ad002.playground/Contents.swift:35-62 | the result is the full i-major walk of the grid, and empty when there are no columns |
| LongRects.LongRect.constructor | ad003.playground/Contents.swift:28-32 | the rect has the given origin and size |
| LongRects.LongRect.AddNoise | ad003.playground/Contents.swift:34-36 | only the origin moves, noisified with scale 10; width and height stay |
| LongRects.Parabola | ad003.playground/Contents.swift:65 | `-x² + x(x1 + x2) - x1 x2` equals `(x - x1)(x2 - x)` |
| LongRects.ParabolaShape | ad003.playground/Contents.swift:65 | the parabola is 0 at both ends and between 0 and its peak on `[x1, x2]` |
| LongRects.UpperOrigin | ad003.playground/Contents.swift:64-66 | the origin of an upper rect drawn at `ux`: `y = padding + uh / 2000` on the parabola; `LongRects.PlacementBounds` bounds it |
| LongRects.LowerOrigin | ad003.playground/Contents.swift:68-70 | the origin of a lower rect drawn at `lx`: `y = padding / 2 + height - lh / 10000`, with integer `padding / 2`; `LongRects.PlacementBounds` bounds it |
| LongRects.PlacedOrigin | ad003.playground/Contents.swift:61-70 | rect `t` before noise: x interpolated in `[2p, bw - 2p]` from its draw, an upper origin for even `t` and a lower one for odd `t` |
| LongRects.RectAt | ad003.playground/Contents.swift:60-81 | rect `t` of the output: the placed origin moved by noise at scale 10, size `width × height`; `LongRects.GenerateLongRects` produces exactly these |
| LongRects.PlacementBounds | ad003.playground/Contents.swift:61-70 | x lies in `[2p, bw - 2p]`; the upper rect has `y >= padding`; the lower rect has `y <= padding / 2 + height` with integer division |
| LongRects.UpperAboveLower | ad003.playground/Contents.swift:64-70 | when `height` exceeds `padding` plus the combined parabola lifts, the upper rect starts above the lower one |
| LongRects.DrawPair | ad003.playground/Contents.swift:61-77 | one pass consumes two draws and yields two distinct fresh rects, upper then lower, equal to their specification |
| LongRects.GenerateLongRects | ad003.playground/Contents.swift:47-83 | exactly `2 * count` distinct fresh rects, alternating upper and lower, each equal to its specification |
| RadialWedges.MutablePath.constructor | ad004.playground/Contents.swift:73-74 | a new path is empty |
| RadialWedges.MutablePath.Move | ad004.playground/Contents.swift:104-105 | appends one move element |
| RadialWedges.MutablePath.AddLine | ad004.playground/Contents.swift:100-101 | appends one line element |
| RadialWedges.MutablePath.Close | ad004.playground/Contents.swift:111 | appends one close element |
| RadialWedges.Side | ad004.playground/Contents.swift:50 | `side = width / 2 - 50` |
| RadialWedges.FirstEnd | ad004.playground/Contents.swift:83-87 | `p1`: the point at the chord's angle on its circle, noised; `RadialWedges.ChordThroughCenter` states its properties |
| RadialWedges.SecondEnd | ad004.playground/Contents.swift:89-93 | `p2`: the point half a turn further on, noised; `RadialWedges.ChordThroughCenter` states its properties |
| RadialWedges.ChordThroughCenter | ad004.playground/Contents.swift:83-93 | before noise, the two chord ends are symmetric about the centre; noise moves each along the diagonal by at most `10 * bound` |
| RadialWedges.ChordCount | ad004.playground/Contents.swift:78 | the number of angles `stride(from: s, to: e, by: 5)` visits; `RadialWedges.ChordCountIff` characterises it |
| RadialWedges.ChordCountIff | ad004.playground/Contents.swift:78 | the stride visits `ceil((end - start) / 5)` angles: the least `n` with `start + 5n >= end`, which is 0 when the angles are equal |
| RadialWedges.WalkRadius | ad004.playground/Contents.swift:56-81 | the radius after `k` steps, each adding `randomReal(-3, 3)` of the next draw; `RadialWedges.WalkBound` bounds it |
| RadialWedges.WalkBound | ad004.playground/Contents.swift:56-81 | after `k` steps the radius is within `3k` of the ring's start radius |
| RadialWedges.Chords | ad004.playground/Contents.swift:78-81 | one chord per step |
| RadialWedges.ChordsAt | ad004.playground/Contents.swift:78-81 | chord `i` has angle `start + 5i` and the radius after `i + 1` walk steps |
| RadialWedges.ChordsSweepFacts | ad004.playground/Contents.swift:78-81 | every chord angle is below `end`, the angles step by 5 from `start`, and each radius is within `3(i+1)` of the start radius |
| RadialWedges.FirstEnds | ad004.playground/Contents.swift:83-87 | one first end per chord |
| RadialWedges.SecondEnds | ad004.playground/Contents.swift:89-93 | one second end per chord |
| RadialWedges.EndsAt | ad004.playground/Contents.swift:83-93 | end `i` of each outline is the noised end of chord `i` |
| RadialWedges.EndsStep | ad004.playground/Contents.swift:83-106 | a new chord appends its two ends to the two point lists |
| RadialWedges.OpenPath | ad004.playground/Contents.swift:99-106 | one path element per point |
| RadialWedges.OpenPathAt | ad004.playground/Contents.swift:99-106 | the first point is a move and every later point a line |
| RadialWedges.OpenPathStep | ad004.playground/Contents.swift:99-106 | a point is appended as a move iff no point came before (`started` is false) |
| RadialWedges.OpenPathPoints | ad004.playground/Contents.swift:99-106 | the open path passes through exactly the given points in order |
| RadialWedges.Outline | ad004.playground/Contents.swift:99-116 | an outline: the open path through the points, a line to the centre, and the close; `RadialWedges.OutlineShape` states its shape |
| RadialWedges.OutlineShape | ad004.playground/Contents.swift:99-116 | an outline visits the chord ends in sweep order, then the unperturbed centre, then closes |
| RadialWedges.FirstOutline | ad004.playground/Contents.swift:99-113 | `outer1` of a ring: the outline through the first ends of its chords, closed at its centre |
| RadialWedges.SecondOutline | ad004.playground/Contents.swift:99-118 | `outer2` of a ring: the outline through the second ends of its chords, closed at its centre |
| RadialWedges.StartAngle | ad004.playground/Contents.swift:59-67 | `startAngle` after the swap: the smaller of the two drawn angles; `RadialWedges.AnglesOrdered` states it |
| RadialWedges.EndAngle | ad004.playground/Contents.swift:59-67 | `endAngle` after the swap: the larger of the two drawn angles; `RadialWedges.AnglesOrdered` states it |
| RadialWedges.AnglesOrdered | ad004.playground/Contents.swift:59-67 | after the swap, `0 <= start <= end < 360` and `{start, end}` are the two drawn angles |
| RadialWedges.RingCenter | ad004.playground/Contents.swift:68-71 | the ring centre is within 10 of the canvas centre on each axis |
| RadialWedges.RingAt | ad004.playground/Contents.swift:59-107 | the ring whose draws start at `pos`: two angles, the centre jitter, then one radius step per chord of the sweep; `RadialWedges.RingAtWellFormed` states its properties |
| RadialWedges.RingPos | ad004.playground/Contents.swift:54-81 | the draw at which ring `k` starts: four draws per earlier ring plus one per chord; `RadialWedges.RingsStep` states its step |
| RadialWedges.RingAtWellFormed | ad004.playground/Contents.swift:59-107 | each ring's angles are ordered, its centre is near the middle, and its chords satisfy the sweep facts |
| RadialWedges.RingRadius | ad004.playground/Contents.swift:52-55 | the value of `startRadius` after `k` decrements of 10 from `side`; `RadialWedges.RingRadiusValue` gives it in closed form |
| RadialWedges.RingRadiusValue | ad004.playground/Contents.swift:50-55 | after `k` decrements the start radius is `side - 10k` with `side = width / 2 - 50` |
| RadialWedges.NthRing | ad004.playground/Contents.swift:54-119 | ring `i` of the sketch: starting at the radius after `i + 1` decrements and drawing from where ring `i - 1` stopped |
| RadialWedges.Rings | ad004.playground/Contents.swift:54-119 | the first `k` rings in drawing order; `RadialWedges.RingsStep` and `RadialWedges.RingShape` state its properties |
| RadialWedges.RingsStep | ad004.playground/Contents.swift:54-59 | each iteration appends one ring, lowers the radius by 10, and consumes `4 + chord count` draws |
| RadialWedges.RingShape | ad004.playground/Contents.swift:50-107 | ring `i` starts at `side - 10(i + 1)` and is well formed |
| RadialWedges.Fills | ad004.playground/Contents.swift:110-118 | two filled outlines per ring |
| RadialWedges.FillsAt | ad004.playground/Contents.swift:110-118 | fill `2i` is ring `i`'s first outline and fill `2i + 1` its second |
| RadialWedges.FillsStep | ad004.playground/Contents.swift:110-118 | each ring appends its two outlines in order |
| RadialWedges.DrawChord | ad004.playground/Contents.swift:80-93 | one step consumes one draw, extends the chord list by the specified chord, and computes its two noised ends |
| RadialWedges.ExtendOutlines | ad004.playground/Contents.swift:99-106 | the paths stay the open paths through the ends of the chords swept so far |
| RadialWedges.SweepChords | ad004.playground/Contents.swift:77-107 | the sweep consumes one draw per chord, produces the specified chords, and leaves both paths as the open paths through their ends |
| RadialWedges.DrawRing | ad004.playground/Contents.swift:56-118 | one ring consumes `4 + chord count` draws and yields the specified ring and its two outlines |
| RadialWedges.DrawNextRing | ad004.playground/Contents.swift:54-119 | one iteration advances the radius, the rings, the fills and the draws consumed from `k` rings to `k + 1` |
| RadialWedges.DrawRings | ad004.playground/Contents.swift:50-119 | the loop produces exactly the 10 specified rings and their 20 fills |
| NestedQuads.Shade | ad005.playground/Contents.swift:18-23 | the offset is in `[-0.2, 0.05]` and the same on all three channels; alpha is 1; the ends are reached at draws 0 and 1 |
| NestedQuads.RandomShade | ad005.playground/Contents.swift:18-23 | consumes one draw and returns its shade |
| NestedQuads.QuadCell.constructor | ad005.playground/Contents.swift:29-35 | the cell has the four corners of its rect, in winding order, and the given fill |
| NestedQuads.QuadCell.AddNoise | ad005.playground/Contents.swift:37-42 | each vertex is noisified with scale 2; fill unchanged |
| NestedQuads.CellCount | ad005.playground/Contents.swift:67 | `5 + nextInt(7) + nextInt(5)` lies in `[5, 15]` |
| NestedQuads.CellCountOnto | ad005.playground/Contents.swift:67 | every count in `[5, 15]` can occur |
| NestedQuads.Gap | ad005.playground/Contents.swift:68 | `gap = rect.width / count`, with the standardised width |
| NestedQuads.InsetSum | ad005.playground/Contents.swift:70-78 | the total inset per side after `n` cells, cell `t` adding its draw times the gap; `NestedQuads.InsetSumBounds` bounds it |
| NestedQuads.CellRect | ad005.playground/Contents.swift:70-78 | the rect of cell `k`: the base inset by the insets of cells `0..k`; `NestedQuads.CellsNest` ties it to the previous rect |
| NestedQuads.CellAt | ad005.playground/Contents.swift:73-76 | cell `k` before noise: the corners of its rect in the shade of its draw |
| NestedQuads.NestedCells | ad005.playground/Contents.swift:64-80 | the `count` cells `Quad.init` builds, in order; `NestedQuads.Quad.constructor` is proved to build exactly these |
| NestedQuads.NoisedCells | ad005.playground/Contents.swift:82-86 | noising keeps one quad per cell |
| NestedQuads.InsetSumBounds | ad005.playground/Contents.swift:73 | with each inset in `[0, gap]`, the total after `n` cells is in `[0, n * gap]` |
| NestedQuads.TotalInsetWithinWidth | ad005.playground/Contents.swift:68-79 | the total inset per side over all cells is at most the rect's width |
| NestedQuads.CellsNest | ad005.playground/Contents.swift:70-78 | each inset is in `[0, gap]`; each cell is the previous rect inset equally on all sides; width and height do not increase |
| NestedQuads.ZeroInsetKeepsSize | ad005.playground/Contents.swift:73-74 | a zero draw leaves the next cell the same size, so the decrease is not strict |
| NestedQuads.InsetSumConstant | ad005.playground/Contents.swift:73 | with a constant draw `c` the total inset after `n` cells is `n * c * gap` |
| NestedQuads.InnermostMayInvert | ad005.playground/Contents.swift:68-78 | on a 35 × 35 base with every draw 0.9 there are 15 cells, and the innermost has width and height -28 |
| NestedQuads.CellWithinBase | ad005.playground/Contents.swift:68-78 | for a non-negative base width, every cell stays within the base horizontally, and vertically when the base is at least as tall as wide |
| NestedQuads.NextCell | ad005.playground/Contents.swift:73-76 | one iteration consumes two draws, insets the last rect by the next inset, and builds the specified cell |
| NestedQuads.Quad.constructor | ad005.playground/Contents.swift:64-80 | the group consumes `2 + 2 * count` draws and holds exactly `count` distinct fresh cells, in iteration order, each the specified nested cell |
| NestedQuads.Quad.AddCell | ad005.playground/Contents.swift:73-78 | one iteration appends the next specified cell and keeps earlier cells |
| NestedQuads.Quad.AddNoise | ad005.playground/Contents.swift:82-86 | every cell is noised, none is skipped |
| NestedQuads.GroupPos | ad005.playground/Contents.swift:112-119 | the draw at which group `t` of the grid walk starts: each earlier group took `2 + 2 * count` draws; `NestedQuads.GroupPosBounds` bounds it |
| NestedQuads.Group | ad005.playground/Contents.swift:112-119 | group `t` of the walk: the nested cells on padded cell `(t / n, t % n)` from its starting draw, noised; `NestedQuads.GenerateQuads` produces exactly these |
| NestedQuads.GroupPosBounds | ad005.playground/Contents.swift:67-73 | `t` groups consume between `12t` and `32t` draws |
| NestedQuads.NestedCellsInCanvas | ad005.playground/Contents.swift:107-117 | for square cells, every nested rect of every group lies, before noise, inside the canvas less the padding |
| NestedQuads.BuildGroup | ad005.playground/Contents.swift:114-118 | builds and noises one group, equal to its specification |
| NestedQuads.PlaceGroup | ad005.playground/Contents.swift:114-119 | the group at `i * n + j` is built on padded cell `(i, j)` from the draws after the earlier groups |
| NestedQuads.PlaceColumn | ad005.playground/Contents.swift:113-120 | one inner-loop pass appends `n` specified groups and keeps earlier ones |
| NestedQuads.PlaceNext | ad005.playground/Contents.swift:114-119 | one iteration appends the next specified group and keeps earlier ones |
| NestedQuads.GenerateQuads | ad005.playground/Contents.swift:95-123 | exactly `m * n` distinct fresh groups in i-major order, each equal to its specification |

## Left out

- Drawing is not modelled: the views, every `draw` method, Bezier paths and
  contexts, colour setting, alpha, image and PDF rendering, file writing and
  the playground page. These are UI and I/O. In ad004 the chord strokes on the
  context are not modelled either; each ring records its chords instead.
- The GameKit random sources and Perlin noise map are foreign library code.
  They become an assumed-range stream of draws and an uninterpreted
  `noise(int, int)`. Determinism, seeding and seamless tiling are not
  modelled.
- `cos` and `sin` in ad004 are uninterpreted parameters. The symmetry of the
  chord ends holds under the stated `cos(t + pi) = -cos(t)` hypothesis.
- Float, Double and CGFloat rounding is not modelled: all arithmetic is on
  exact reals.
- Geometry.Trunc: the trap that `Int32(x)` raises for out-of-range
  coordinates is not modelled; truncation is unbounded.
- `nextUniform` is taken to lie in `[0, 1)`, so that one draw feeds both
  `nextUniform` and `nextInt`. The bound 1 itself is excluded.
- The grayscale `randomShade` of ad004 is not modelled. The sketch never calls
  it, because its only call is commented out.
- NestedQuads.GenerateQuads: the groups are pairwise distinct and the cells
  within each group are pairwise distinct. Distinctness between the cells of
  two different groups is not stated.
- QuadGrid.GenerateQuads and NestedQuads.GenerateQuads: inputs on which Swift
  traps are excluded by preconditions rather than modelled as a trap. These
  are a zero `width + padding` or `height + padding` (division by zero), and a
  negative `m`, or a negative `n` when `m > 0` (a range `0..<k` with
  `k < 0`). A negative `n` with `m = 0` is modelled, and gives no quads.
- AffineSquares.GenerateSquares: likewise, `length = 0` (division by zero),
  a negative `m`, and a negative `n` when `m > 0` are excluded by
  preconditions, not modelled as traps. A negative `n` with `m = 0` gives no
  squares.
- LongRects.GenerateLongRects: `count` is a natural number. A negative count,
  on which the range `0..<count` traps in Swift, is not modelled.
- RadialWedges.MutablePath: the path records the calls the sketch makes, not
  CoreGraphics' rendition of them. For a ring whose two angles are equal, the
  outline records a line to the centre with no current point. CoreGraphics
  would reject that line.
- NestedQuads.CellWithinBase: the vertical containment is stated only for a
  base at least as tall as it is wide. The gap comes from the width, so a
  flatter base can invert vertically.
- The helper methods `PlaceColumn`, `PlaceNext`, `VisitCell`, `PlaceQuad`,
  `DrawPair`, `DrawChord`, `ExtendOutlines`, `DrawNextRing`, `AddCell`,
  `NextCell`, `BuildGroup` and `PlaceGroup` are loop bodies factored out of the
  sketches' single functions. They are not separate functions in the code.
