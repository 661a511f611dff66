/** ad004: ten concentric rings of chords. Each ring starts 10 points inside
    the previous one, sweeps the angle in steps of 5 degrees between two
    random angles, lets its radius wander by up to 3 points per step, and
    strokes a noised chord through its jittered centre at every step. The
    far ends of the chords on each side are joined into an outline that is
    closed through the centre and filled. The drawing context is left out: a
    ring records the chords it strokes, and the two outlines it fills are
    functions of the ring. */
module RadialWedges {
  import opened Geometry
  import opened Random
  import opened Noise

  /** The factor `noisify` applies to the noise sample in this sketch. */
  const NoiseScale: real := 10.0
  /** The number of rings. */
  const RingCount: nat := 10
  /** How much further in each ring starts. */
  const RingGap: real := 10.0
  /** The largest offset of a ring centre from the canvas centre, per axis. */
  const CenterJitter: real := 10.0
  /** The largest change of the radius per chord. */
  const RadiusJitter: real := 3.0

  /** One element of a CGMutablePath. */
  datatype PathOp = MoveTo(p: Point) | LineTo(p: Point) | CloseSubpath

  /** The sequence of path calls the sketch makes on one of its
      `CGMutablePath`s, recorded one element at a time (not CoreGraphics'
      own rendition of the path). */
  class MutablePath {
    var ops: seq<PathOp>

    constructor ()
      ensures ops == []
    {
      ops := [];
    }

    /** `move(to:)` */
    method Move(p: Point)
      modifies this
      ensures ops == old(ops) + [MoveTo(p)]
    {
      ops := ops + [MoveTo(p)];
    }

    /** `addLine(to:)` */
    method AddLine(p: Point)
      modifies this
      ensures ops == old(ops) + [LineTo(p)]
    {
      ops := ops + [LineTo(p)];
    }

    /** `closeSubpath()` */
    method Close()
      modifies this
      ensures ops == old(ops) + [CloseSubpath]
    {
      ops := ops + [CloseSubpath];
    }
  }

  /** One stroked chord: the sweep angle (degrees) and the radius it was
      drawn at. Its two ends are `FirstEnd` and `SecondEnd`. */
  datatype Chord = Chord(angle: int, radius: real)

  /** One pass of the ring loop: its start radius, its two angles after the
      swap, its jittered centre and the chords it strokes. */
  datatype Ring = Ring(startRadius: real, startAngle: int, endAngle: int, center: Point, chords: seq<Chord>)

  /** `side = width / 2 - 50`: the radius the first ring is measured from. */
  function Side(width: real): real
  {
    width / 2.0 - 50.0
  }

  /** The point at `angle` (radians) on the circle of the given radius about
      `center`. */
  function OnCircle(center: Point, radius: real, angle: real, cos: real -> real, sin: real -> real): Point
  {
    Point(center.x + radius * cos(angle), center.y + radius * sin(angle))
  }

  /** The end of chord `c` at its own angle, moved by the noise field. */
  function FirstEnd(center: Point, c: Chord, noise: (int, int) -> real, cos: real -> real, sin: real -> real): Point
  {
    Noisify(OnCircle(center, c.radius, Radians(c.angle as real), cos, sin), noise, NoiseScale)
  }

  /** The end of chord `c` half a turn further on, moved by the noise field. */
  function SecondEnd(center: Point, c: Chord, noise: (int, int) -> real, cos: real -> real, sin: real -> real): Point
  {
    Noisify(OnCircle(center, c.radius, Radians(c.angle as real) + Pi, cos, sin), noise, NoiseScale)
  }

  /** Before the noise, the two ends of a chord are opposite points of its
      circle, so the chord passes through the centre; the noise then moves
      each end along the diagonal by at most `10 * bound` per axis. */
  lemma ChordThroughCenter(center: Point, c: Chord, noise: (int, int) -> real, cos: real -> real, sin: real -> real,
                           bound: real)
    requires var t := Radians(c.angle as real); cos(t + Pi) == -cos(t) && sin(t + Pi) == -sin(t)
    requires forall i, j :: -bound <= noise(i, j) <= bound
    ensures var t := Radians(c.angle as real);
      var q1, q2 := OnCircle(center, c.radius, t, cos, sin), OnCircle(center, c.radius, t + Pi, cos, sin);
      q1.x + q2.x == 2.0 * center.x && q1.y + q2.y == 2.0 * center.y &&
      -NoiseScale * bound <= FirstEnd(center, c, noise, cos, sin).x - q1.x <= NoiseScale * bound &&
      FirstEnd(center, c, noise, cos, sin).x - q1.x == FirstEnd(center, c, noise, cos, sin).y - q1.y &&
      -NoiseScale * bound <= SecondEnd(center, c, noise, cos, sin).x - q2.x <= NoiseScale * bound &&
      SecondEnd(center, c, noise, cos, sin).x - q2.x == SecondEnd(center, c, noise, cos, sin).y - q2.y
  {
    var t := Radians(c.angle as real);
    NoisifyBounded(OnCircle(center, c.radius, t, cos, sin), noise, NoiseScale, bound);
    NoisifyBounded(OnCircle(center, c.radius, t + Pi, cos, sin), noise, NoiseScale, bound);
  }

  /** The number of values `stride(from: s, to: e, by: 5)` yields. */
  function ChordCount(s: int, e: int): nat
  {
    if s >= e then 0 else (e - s + 5 - 1) / 5
  }

  /** The sweep stops at the first angle `s + 5n` that reaches `e`: `n` is
      the chord count exactly when `s + 5n >= e` and, if `n > 0`, angle
      `s + 5(n - 1)` is still below `e`. */
  lemma ChordCountIff(s: int, e: int, n: nat)
    ensures n == ChordCount(s, e) <==>
      (s + 5 * n >= e && (n == 0 || s + 5 * (n - 1) < e))
  {
    if s < e {
      var c := ChordCount(s, e);
      assert 5 * c <= e - s + 5 - 1 < 5 * c + 5;
      if s + 5 * n >= e && (n == 0 || s + 5 * (n - 1) < e) {
        if n < c {
          MulLe(n + 1, c);
        } else if n > c {
          MulLe(c + 1, n);
        }
      }
    }
  }

  lemma MulLe(a: int, b: int)
    requires a <= b
    ensures 5 * a <= 5 * b
  {
  }

  /** The radius after `k` steps of the walk from `r0`, step `i` using draw
      `pos + i`. */
  function WalkRadius(r0: real, draws: nat -> real, pos: nat, k: nat): real
  {
    if k == 0 then r0
    else WalkRadius(r0, draws, pos, k - 1) + Interpolate(draws(pos + k - 1), -RadiusJitter, RadiusJitter)
  }

  /** Each step moves the radius by at most 3, so `k` steps by at most `3k`. */
  lemma {:induction false} WalkBound(r0: real, draws: nat -> real, pos: nat, k: nat)
    requires IsUnitStream(draws)
    ensures -RadiusJitter * k as real <= WalkRadius(r0, draws, pos, k) - r0 <= RadiusJitter * k as real
  {
    if k > 0 {
      WalkBound(r0, draws, pos, k - 1);
      var d := Interpolate(draws(pos + k - 1), -RadiusJitter, RadiusJitter);
      assert -RadiusJitter <= d <= RadiusJitter;
    }
  }

  /** The first `k` chords of a sweep from angle `s`, radius `r0`, whose walk
      draws start at `pos`: chord `i` is drawn at angle `s + 5i` with the
      radius after `i + 1` steps. */
  function Chords(r0: real, s: int, draws: nat -> real, pos: nat, k: nat): (cs: seq<Chord>)
    ensures |cs| == k
  {
    if k == 0 then []
    else Chords(r0, s, draws, pos, k - 1) + [Chord(s + 5 * (k - 1), WalkRadius(r0, draws, pos, k))]
  }

  /** Chord `i` of the sweep, whatever the number of chords after it. */
  lemma {:induction false} ChordsAt(r0: real, s: int, draws: nat -> real, pos: nat, k: nat, i: nat)
    requires i < k
    ensures Chords(r0, s, draws, pos, k)[i] == Chord(s + 5 * i, WalkRadius(r0, draws, pos, i + 1))
  {
    if i < k - 1 {
      ChordsAt(r0, s, draws, pos, k - 1, i);
    }
  }

  /** The first ends of the chords, in sweep order. */
  function FirstEnds(center: Point, cs: seq<Chord>, noise: (int, int) -> real,
                     cos: real -> real, sin: real -> real): (pts: seq<Point>)
    ensures |pts| == |cs|
  {
    if cs == [] then []
    else FirstEnds(center, cs[..|cs| - 1], noise, cos, sin) + [FirstEnd(center, cs[|cs| - 1], noise, cos, sin)]
  }

  /** The second ends of the chords, in sweep order. */
  function SecondEnds(center: Point, cs: seq<Chord>, noise: (int, int) -> real,
                      cos: real -> real, sin: real -> real): (pts: seq<Point>)
    ensures |pts| == |cs|
  {
    if cs == [] then []
    else SecondEnds(center, cs[..|cs| - 1], noise, cos, sin) + [SecondEnd(center, cs[|cs| - 1], noise, cos, sin)]
  }

  /** Entry `i` of each list of ends is the corresponding end of chord `i`. */
  lemma {:induction false} EndsAt(center: Point, cs: seq<Chord>, noise: (int, int) -> real,
                                  cos: real -> real, sin: real -> real, i: nat)
    requires i < |cs|
    ensures FirstEnds(center, cs, noise, cos, sin)[i] == FirstEnd(center, cs[i], noise, cos, sin)
    ensures SecondEnds(center, cs, noise, cos, sin)[i] == SecondEnd(center, cs[i], noise, cos, sin)
  {
    if i < |cs| - 1 {
      EndsAt(center, cs[..|cs| - 1], noise, cos, sin, i);
    }
  }

  /** Appending a chord appends its ends to the two lists of ends. */
  lemma EndsStep(center: Point, cs: seq<Chord>, c: Chord, noise: (int, int) -> real,
                 cos: real -> real, sin: real -> real)
    ensures FirstEnds(center, cs + [c], noise, cos, sin)
      == FirstEnds(center, cs, noise, cos, sin) + [FirstEnd(center, c, noise, cos, sin)]
    ensures SecondEnds(center, cs + [c], noise, cos, sin)
      == SecondEnds(center, cs, noise, cos, sin) + [SecondEnd(center, c, noise, cos, sin)]
  {
    assert (cs + [c])[..|cs|] == cs;
  }

  /** The path the `started` flag builds from a list of points: a move to
      the first, then a line to each of the others. */
  function OpenPath(pts: seq<Point>): (ops: seq<PathOp>)
    ensures |ops| == |pts|
  {
    if pts == [] then []
    else if |pts| == 1 then [MoveTo(pts[0])]
    else OpenPath(pts[..|pts| - 1]) + [LineTo(pts[|pts| - 1])]
  }

  /** Element `i` of the open path goes to point `i`, and it is a move
      exactly when it is the first. */
  lemma {:induction false} OpenPathAt(pts: seq<Point>, i: nat)
    requires i < |pts|
    ensures OpenPath(pts)[i] == if i == 0 then MoveTo(pts[i]) else LineTo(pts[i])
  {
    if i < |pts| - 1 {
      var init := pts[..|pts| - 1];
      OpenPathAt(init, i);
      assert init[i] == pts[i];
    }
  }

  /** Appending a point to the open path: a move when it is the first point,
      a line otherwise. */
  lemma OpenPathStep(pts: seq<Point>, p: Point)
    ensures OpenPath(pts + [p]) == OpenPath(pts) + [if pts == [] then MoveTo(p) else LineTo(p)]
  {
    assert (pts + [p])[..|pts|] == pts;
  }

  /** An outline: the open path through the chord ends, a line to the centre,
      and the closing element. */
  function Outline(pts: seq<Point>, center: Point): seq<PathOp>
  {
    OpenPath(pts) + [LineTo(center)] + [CloseSubpath]
  }

  /** The points a path visits, in order. */
  function PathPoints(ops: seq<PathOp>): seq<Point>
  {
    if ops == [] then []
    else
      var last := ops[|ops| - 1];
      PathPoints(ops[..|ops| - 1]) + (if last.CloseSubpath? then [] else [last.p])
  }

  /** The open path visits exactly the given points, in the given order. */
  lemma {:induction false} OpenPathPoints(pts: seq<Point>)
    ensures PathPoints(OpenPath(pts)) == pts
  {
    if |pts| > 1 {
      var init := pts[..|pts| - 1];
      OpenPathPoints(init);
      var ops := OpenPath(pts);
      assert ops[..|ops| - 1] == OpenPath(init);
      assert init + [pts[|pts| - 1]] == pts;
    }
  }

  /** An outline visits the chord ends in sweep order and then the centre,
      and ends with the closing element; it starts with a move exactly when
      there is at least one chord. */
  lemma OutlineShape(pts: seq<Point>, center: Point)
    ensures var ops := Outline(pts, center);
      PathPoints(ops) == pts + [center] && |ops| == |pts| + 2 &&
      ops[|ops| - 1] == CloseSubpath && ops[|ops| - 2] == LineTo(center) &&
      (ops[0].MoveTo? <==> |pts| > 0)
  {
    var ops := Outline(pts, center);
    var open := OpenPath(pts);
    OpenPathPoints(pts);
    if pts != [] {
      OpenPathAt(pts, 0);
    }
    assert ops[..|ops| - 1] == open + [LineTo(center)];
    assert (open + [LineTo(center)])[..|open|] == open;
  }

  /** The outline `outer1` of a ring: through the first ends of its chords. */
  function FirstOutline(ring: Ring, noise: (int, int) -> real, cos: real -> real, sin: real -> real): seq<PathOp>
  {
    Outline(FirstEnds(ring.center, ring.chords, noise, cos, sin), ring.center)
  }

  /** The outline `outer2` of a ring: through the second ends of its chords. */
  function SecondOutline(ring: Ring, noise: (int, int) -> real, cos: real -> real, sin: real -> real): seq<PathOp>
  {
    Outline(SecondEnds(ring.center, ring.chords, noise, cos, sin), ring.center)
  }

  /** The angles of a ring, ordered: the two draws `nextInt(upperBound: 360)`
      at `pos` and `pos + 1`, swapped when the first is the larger. */
  function StartAngle(draws: nat -> real, pos: nat): int
    requires IsUnitStream(draws)
  {
    var a, b := UniformToInt(draws(pos), 360), UniformToInt(draws(pos + 1), 360);
    if a > b then b else a
  }

  function EndAngle(draws: nat -> real, pos: nat): int
    requires IsUnitStream(draws)
  {
    var a, b := UniformToInt(draws(pos), 360), UniformToInt(draws(pos + 1), 360);
    if a > b then a else b
  }

  /** After the swap the angles are ordered, lie in `[0, 360)` and are the
      two drawn angles. */
  lemma AnglesOrdered(draws: nat -> real, pos: nat)
    requires IsUnitStream(draws)
    ensures var a, b := UniformToInt(draws(pos), 360), UniformToInt(draws(pos + 1), 360);
      var s, e := StartAngle(draws, pos), EndAngle(draws, pos);
      0 <= s <= e < 360 && ((s == a && e == b) || (s == b && e == a))
  {
  }

  /** The centre of the ring whose draws start at `pos`: the canvas centre
      moved by draws `pos + 2` (x) and `pos + 3` (y), each within 10. */
  function RingCenter(width: real, height: real, draws: nat -> real, pos: nat): (c: Point)
    requires IsUnitStream(draws)
    ensures -CenterJitter <= c.x - width / 2.0 <= CenterJitter
    ensures -CenterJitter <= c.y - height / 2.0 <= CenterJitter
  {
    Point(width / 2.0 + Interpolate(draws(pos + 2), -CenterJitter, CenterJitter),
          height / 2.0 + Interpolate(draws(pos + 3), -CenterJitter, CenterJitter))
  }

  /** The ring whose draws start at `pos`: two angles, then the centre's x
      and y jitter, then one radius step per chord. */
  function RingAt(width: real, height: real, startRadius: real, draws: nat -> real, pos: nat): Ring
    requires IsUnitStream(draws)
  {
    var s, e := StartAngle(draws, pos), EndAngle(draws, pos);
    Ring(startRadius, s, e, RingCenter(width, height, draws, pos),
         Chords(startRadius, s, draws, pos + 4, ChordCount(s, e)))
  }

  /** How many draws the first `k` rings use: four per ring and one per
      chord. */
  function RingPos(k: nat, draws: nat -> real): nat
    requires IsUnitStream(draws)
  {
    if k == 0 then 0
    else
      var p := RingPos(k - 1, draws);
      p + 4 + ChordCount(StartAngle(draws, p), EndAngle(draws, p))
  }

  /** The chords of a sweep from `s` to `e`: one per angle of the stride,
      chord `i` at angle `s + 5i < e` with a radius within `3(i + 1)` of the
      start radius. */
  ghost predicate SweepFacts(chords: seq<Chord>, s: int, e: int, r0: real)
  {
    |chords| == ChordCount(s, e) &&
    forall i :: 0 <= i < |chords| ==>
      chords[i].angle == s + 5 * i < e &&
      -RadiusJitter * (i + 1) as real <= chords[i].radius - r0 <= RadiusJitter * (i + 1) as real
  }

  lemma ChordsSweepFacts(r0: real, s: int, e: int, draws: nat -> real, pos: nat)
    requires IsUnitStream(draws)
    ensures SweepFacts(Chords(r0, s, draws, pos, ChordCount(s, e)), s, e, r0)
  {
    var n := ChordCount(s, e);
    var cs := Chords(r0, s, draws, pos, n);
    ChordCountIff(s, e, n);
    forall i | 0 <= i < n
      ensures cs[i].angle == s + 5 * i < e
      ensures -RadiusJitter * (i + 1) as real <= cs[i].radius - r0 <= RadiusJitter * (i + 1) as real
    {
      ChordsAt(r0, s, draws, pos, n, i);
      WalkBound(r0, draws, pos, i + 1);
      MulLe(i, n - 1);
    }
  }

  /** What every ring of the sketch satisfies: ordered angles in `[0, 360)`,
      a centre within 10 of the canvas centre, and the chords of the sweep
      between the two angles. */
  ghost predicate WellFormed(ring: Ring, width: real, height: real)
  {
    0 <= ring.startAngle <= ring.endAngle < 360 &&
    -CenterJitter <= ring.center.x - width / 2.0 <= CenterJitter &&
    -CenterJitter <= ring.center.y - height / 2.0 <= CenterJitter &&
    SweepFacts(ring.chords, ring.startAngle, ring.endAngle, ring.startRadius)
  }

  lemma RingAtWellFormed(width: real, height: real, startRadius: real, draws: nat -> real, pos: nat)
    requires IsUnitStream(draws)
    ensures WellFormed(RingAt(width, height, startRadius, draws, pos), width, height)
  {
    var s, e := StartAngle(draws, pos), EndAngle(draws, pos);
    AnglesOrdered(draws, pos);
    ChordsSweepFacts(startRadius, s, e, draws, pos + 4);
  }

  /** The radius ring `k` starts from: the sketch begins at `side` and
      each ring starts `RingGap` further in than the one before. */
  function RingRadius(width: real, k: nat): real
  {
    if k == 0 then Side(width) else RingRadius(width, k - 1) - RingGap
  }

  /** Ring `k` starts `10k` inside `side`. */
  lemma {:induction false} RingRadiusValue(width: real, k: nat)
    ensures RingRadius(width, k) == Side(width) - 10.0 * k as real
  {
    if k > 0 {
      RingRadiusValue(width, k - 1);
    }
  }

  /** Ring `i` of the sketch: it starts at radius `RingRadius(width, i + 1)`
      and draws from where ring `i - 1` stopped. */
  function NthRing(i: nat, width: real, height: real, draws: nat -> real): Ring
    requires IsUnitStream(draws)
  {
    RingAt(width, height, RingRadius(width, i + 1), draws, RingPos(i, draws))
  }

  /** The first `k` rings of the sketch. */
  function Rings(k: nat, width: real, height: real, draws: nat -> real): (rings: seq<Ring>)
    requires IsUnitStream(draws)
  {
    seq(k, i requires 0 <= i < k => NthRing(i, width, height, draws))
  }

  /** One more ring: the next ring starts `RingGap` further in and draws
      from where the previous rings stopped, which is four draws plus one
      per chord after them. */
  lemma RingsStep(k: nat, width: real, height: real, draws: nat -> real)
    requires IsUnitStream(draws)
    ensures Rings(k + 1, width, height, draws)
      == Rings(k, width, height, draws) + [NthRing(k, width, height, draws)]
    ensures RingRadius(width, k + 1) == RingRadius(width, k) - RingGap
    ensures RingPos(k + 1, draws)
      == RingPos(k, draws) + 4 + ChordCount(StartAngle(draws, RingPos(k, draws)), EndAngle(draws, RingPos(k, draws)))
  {
  }

  /** Every ring of the sketch is well formed, and ring `i` starts at
      `side - 10(i + 1)`. */
  lemma RingShape(k: nat, i: nat, width: real, height: real, draws: nat -> real)
    requires IsUnitStream(draws) && i < k
    ensures Rings(k, width, height, draws)[i].startRadius == Side(width) - 10.0 * (i + 1) as real
    ensures WellFormed(Rings(k, width, height, draws)[i], width, height)
  {
    RingRadiusValue(width, i + 1);
    RingAtWellFormed(width, height, RingRadius(width, i + 1), draws, RingPos(i, draws));
  }

  /** The fills of the rings, in drawing order: `outer1` then `outer2` of
      each ring. */
  function Fills(rings: seq<Ring>, noise: (int, int) -> real, cos: real -> real, sin: real -> real)
    : (fills: seq<seq<PathOp>>)
    ensures |fills| == 2 * |rings|
  {
    if rings == [] then []
    else
      var last := rings[|rings| - 1];
      Fills(rings[..|rings| - 1], noise, cos, sin) + [FirstOutline(last, noise, cos, sin), SecondOutline(last, noise, cos, sin)]
  }

  /** Fills `2i` and `2i + 1` are the two outlines of ring `i`. */
  lemma {:induction false} FillsAt(rings: seq<Ring>, noise: (int, int) -> real, cos: real -> real, sin: real -> real,
                                   i: nat)
    requires i < |rings|
    ensures Fills(rings, noise, cos, sin)[2 * i] == FirstOutline(rings[i], noise, cos, sin)
    ensures Fills(rings, noise, cos, sin)[2 * i + 1] == SecondOutline(rings[i], noise, cos, sin)
  {
    if i < |rings| - 1 {
      FillsAt(rings[..|rings| - 1], noise, cos, sin, i);
    }
  }

  lemma FillsStep(rings: seq<Ring>, ring: Ring, noise: (int, int) -> real, cos: real -> real, sin: real -> real)
    ensures Fills(rings + [ring], noise, cos, sin)
      == Fills(rings, noise, cos, sin) + [FirstOutline(ring, noise, cos, sin), SecondOutline(ring, noise, cos, sin)]
  {
    assert (rings + [ring])[..|rings|] == rings;
  }

  /** One step of the sweep, the `k`-th: the radius takes its random step,
      and the chord at angle `a` with the new radius is stroked between its
      two noised ends. It is the next chord of the sweep. */
  method DrawChord(a: int, center: Point, radius: real, rds: RandomSource,
                   noise: (int, int) -> real, cos: real -> real, sin: real -> real,
                   ghost r0: real, ghost s: int, ghost pos: nat, ghost k: nat)
    returns (chord: Chord, p1: Point, p2: Point)
    requires rds.Valid() && rds.pos == pos + k
    requires a == s + 5 * k && radius == WalkRadius(r0, rds.draws, pos, k)
    modifies rds
    ensures rds.pos == old(rds.pos) + 1
    ensures chord.radius == WalkRadius(r0, rds.draws, pos, k + 1)
    ensures Chords(r0, s, rds.draws, pos, k + 1) == Chords(r0, s, rds.draws, pos, k) + [chord]
    ensures p1 == FirstEnd(center, chord, noise, cos, sin) && p2 == SecondEnd(center, chord, noise, cos, sin)
  {
    var angle := Radians(a as real);
    var step := RandomReal(rds, -RadiusJitter, RadiusJitter);
    var r := radius + step;
    p1 := Noisify(OnCircle(center, r, angle, cos, sin), noise, NoiseScale);
    p2 := Noisify(OnCircle(center, r, angle + Pi, cos, sin), noise, NoiseScale);
    chord := Chord(a, r);
  }

  /** The `started` branch of the sweep for the next chord: the first chord
      starts both paths with a move, every later one extends them with a
      line. Either way each path is the open path through the chord ends so
      far. */
  method ExtendOutlines(outer1: MutablePath, outer2: MutablePath, started: bool, p1: Point, p2: Point,
                        center: Point, noise: (int, int) -> real, cos: real -> real, sin: real -> real,
                        ghost chords: seq<Chord>, ghost chord: Chord)
    requires outer1 != outer2 && (started <==> |chords| > 0)
    requires p1 == FirstEnd(center, chord, noise, cos, sin) && p2 == SecondEnd(center, chord, noise, cos, sin)
    requires outer1.ops == OpenPath(FirstEnds(center, chords, noise, cos, sin))
    requires outer2.ops == OpenPath(SecondEnds(center, chords, noise, cos, sin))
    modifies outer1, outer2
    ensures outer1.ops == OpenPath(FirstEnds(center, chords + [chord], noise, cos, sin))
    ensures outer2.ops == OpenPath(SecondEnds(center, chords + [chord], noise, cos, sin))
  {
    EndsStep(center, chords, chord, noise, cos, sin);
    OpenPathStep(FirstEnds(center, chords, noise, cos, sin), p1);
    OpenPathStep(SecondEnds(center, chords, noise, cos, sin), p2);
    if started {
      outer1.AddLine(p1);
      outer2.AddLine(p2);
    } else {
      outer1.Move(p1);
      outer2.Move(p2);
    }
  }

  /** The `for a in stride(from: startAngle, to: endAngle, by: 5)` loop: one
      chord per angle, the first ends appended to `outer1` and the second to
      `outer2`, each path starting with a move. */
  method SweepChords(startAngle: int, endAngle: int, center: Point, startRadius: real,
                     rds: RandomSource, outer1: MutablePath, outer2: MutablePath,
                     noise: (int, int) -> real, cos: real -> real, sin: real -> real)
    returns (chords: seq<Chord>)
    requires rds.Valid() && outer1 != outer2 && outer1.ops == [] && outer2.ops == []
    modifies rds, outer1, outer2
    ensures rds.pos == old(rds.pos) + ChordCount(startAngle, endAngle)
    ensures chords == Chords(startRadius, startAngle, rds.draws, old(rds.pos), ChordCount(startAngle, endAngle))
    ensures outer1.ops == OpenPath(FirstEnds(center, chords, noise, cos, sin))
    ensures outer2.ops == OpenPath(SecondEnds(center, chords, noise, cos, sin))
  {
    ghost var pos := rds.pos;
    var radius := startRadius;
    var started := false;
    chords := [];
    var a := startAngle;
    while a < endAngle
      invariant rds.Valid() && rds.pos == pos + |chords|
      invariant a == startAngle + 5 * |chords|
      invariant |chords| == 0 || startAngle + 5 * (|chords| - 1) < endAngle
      invariant radius == WalkRadius(startRadius, rds.draws, pos, |chords|)
      invariant chords == Chords(startRadius, startAngle, rds.draws, pos, |chords|)
      invariant started <==> |chords| > 0
      invariant outer1.ops == OpenPath(FirstEnds(center, chords, noise, cos, sin))
      invariant outer2.ops == OpenPath(SecondEnds(center, chords, noise, cos, sin))
      decreases endAngle - a
    {
      var chord, p1, p2 := DrawChord(a, center, radius, rds, noise, cos, sin, startRadius, startAngle, pos, |chords|);
      radius := chord.radius;
      ExtendOutlines(outer1, outer2, started, p1, p2, center, noise, cos, sin, chords, chord);
      started := true;
      chords := chords + [chord];
      a := a + 5;
    }
    ChordCountIff(startAngle, endAngle, |chords|);
  }

  /** One pass of the ring loop, for a ring starting at `startRadius`: it is
      the ring whose draws start where the source stands, it uses four draws
      plus one per chord, and its two fills are the ring's outlines. */
  method DrawRing(width: real, height: real, startRadius: real, rds: RandomSource,
                  noise: (int, int) -> real, cos: real -> real, sin: real -> real)
    returns (ring: Ring, fill1: seq<PathOp>, fill2: seq<PathOp>)
    requires rds.Valid()
    modifies rds
    ensures rds.pos == old(rds.pos) + 4 + ChordCount(StartAngle(rds.draws, old(rds.pos)),
                                                     EndAngle(rds.draws, old(rds.pos)))
    ensures ring == RingAt(width, height, startRadius, rds.draws, old(rds.pos))
    ensures fill1 == FirstOutline(ring, noise, cos, sin) && fill2 == SecondOutline(ring, noise, cos, sin)
  {
    ghost var pos := rds.pos;
    var angleA := rds.NextInt(360);
    var angleB := rds.NextInt(360);
    var startAngle := angleA;
    var endAngle := angleB;
    if startAngle > endAngle {
      startAngle := angleB;
      endAngle := angleA;
    }
    assert startAngle == StartAngle(rds.draws, pos) && endAngle == EndAngle(rds.draws, pos);
    var jitterX := RandomReal(rds, -CenterJitter, CenterJitter);
    var centerX := width / 2.0 + jitterX;
    var jitterY := RandomReal(rds, -CenterJitter, CenterJitter);
    var centerY := height / 2.0 + jitterY;
    var center := Point(centerX, centerY);
    assert center == RingCenter(width, height, rds.draws, pos);

    var outer1 := new MutablePath();
    var outer2 := new MutablePath();
    var chords := SweepChords(startAngle, endAngle, center, startRadius, rds, outer1, outer2, noise, cos, sin);

    outer1.AddLine(center);
    outer1.Close();
    outer2.AddLine(center);
    outer2.Close();
    ring := Ring(startRadius, startAngle, endAngle, center, chords);
    fill1 := outer1.ops;
    fill2 := outer2.ops;
  }

  /** One pass of the ring loop: `startRadius` steps in by 10 and ring `k`
      is drawn from it, extending the rings and fills drawn so far. */
  method DrawNextRing(width: real, height: real, startRadius: real, rds: RandomSource,
                      noise: (int, int) -> real, cos: real -> real, sin: real -> real,
                      k: nat, rings: seq<Ring>, fills: seq<seq<PathOp>>)
    returns (startRadius': real, rings': seq<Ring>, fills': seq<seq<PathOp>>)
    requires rds.Valid() && rds.pos == RingPos(k, rds.draws)
    requires startRadius == RingRadius(width, k)
    requires rings == Rings(k, width, height, rds.draws)
    requires fills == Fills(rings, noise, cos, sin)
    modifies rds
    ensures rds.pos == RingPos(k + 1, rds.draws)
    ensures startRadius' == RingRadius(width, k + 1)
    ensures rings' == Rings(k + 1, width, height, rds.draws)
    ensures fills' == Fills(rings', noise, cos, sin)
  {
    startRadius' := startRadius - RingGap;
    RingsStep(k, width, height, rds.draws);
    var ring, fill1, fill2 := DrawRing(width, height, startRadius', rds, noise, cos, sin);
    FillsStep(rings, ring, noise, cos, sin);
    rings' := rings + [ring];
    fills' := fills + [fill1, fill2];
  }

  /** The ring loop of `CustomView.draw` for a frame of the given size: ten
      rings from one fresh random source, `startRadius` stepping in by 10
      before each ring, and the two fills of every ring in drawing order. */
  method DrawRings(width: real, height: real, draws: nat -> real,
                   noise: (int, int) -> real, cos: real -> real, sin: real -> real)
    returns (rings: seq<Ring>, fills: seq<seq<PathOp>>)
    requires IsUnitStream(draws)
    ensures rings == Rings(RingCount, width, height, draws)
    ensures fills == Fills(rings, noise, cos, sin)
  {
    var rds := new RandomSource(draws);
    var side := Side(width);
    var startRadius := side;
    rings := [];
    fills := [];
    for k := 0 to RingCount
      invariant rds.Valid() && rds.draws == draws && rds.pos == RingPos(k, draws)
      invariant startRadius == RingRadius(width, k)
      invariant rings == Rings(k, width, height, draws)
      invariant fills == Fills(rings, noise, cos, sin)
    {
      startRadius, rings, fills := DrawNextRing(width, height, startRadius, rds, noise, cos, sin,
                                                k, rings, fills);
    }
  }
}
