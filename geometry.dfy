/** Plane geometry shared by the five sketches: CoreGraphics points and rects,
    colours, Swift's truncating integer conversions and the degree-to-radian
    conversion. CGFloat, Float and Double arithmetic is exact `real` arithmetic. */
module Geometry {

  /** A CGPoint. */
  datatype Point = Point(x: real, y: real)

  /** A CGRect as stored: an origin and a signed size. CoreGraphics reads its
      edges through the standardised rect, so a negative size extends the rect
      to the left (or upwards) of its origin. */
  datatype Rect = Rect(origin: Point, width: real, height: real)

  /** A UIColor given by its red, green, blue and alpha components. */
  datatype Color = Color(red: real, green: real, blue: real, alpha: real)

  /** `Double.pi`. */
  const Pi: real := 3.141592653589793

  /** CGRect.minX */
  function MinX(r: Rect): real
  {
    if r.width >= 0.0 then r.origin.x else r.origin.x + r.width
  }

  /** CGRect.maxX */
  function MaxX(r: Rect): real
  {
    if r.width >= 0.0 then r.origin.x + r.width else r.origin.x
  }

  /** CGRect.minY */
  function MinY(r: Rect): real
  {
    if r.height >= 0.0 then r.origin.y else r.origin.y + r.height
  }

  /** CGRect.maxY */
  function MaxY(r: Rect): real
  {
    if r.height >= 0.0 then r.origin.y + r.height else r.origin.y
  }

  /** CGRect.width: the width of the standardised rect, never negative. */
  function StdWidth(r: Rect): (w: real)
    ensures w >= 0.0
    ensures w == MaxX(r) - MinX(r)
    ensures w == r.width || w == -r.width
  {
    if r.width >= 0.0 then r.width else -r.width
  }

  /** `rect.inset(by: UIEdgeInsets(top: d, left: d, bottom: d, right: d))`:
      the same amount is taken off each of the four sides, without
      standardising the result. */
  function InsetRect(r: Rect, d: real): (r': Rect)
    ensures r'.origin.x - r.origin.x == d
    ensures (r.origin.x + r.width) - (r'.origin.x + r'.width) == d
    ensures r'.origin.y - r.origin.y == d
    ensures (r.origin.y + r.height) - (r'.origin.y + r'.height) == d
  {
    Rect(Point(r.origin.x + d, r.origin.y + d), r.width - 2.0 * d, r.height - 2.0 * d)
  }

  function Abs(x: int): nat
  {
    if x >= 0 then x else -x
  }

  /** Swift's `Int` division `a / b`, which truncates toward zero (and traps
      when b is zero). Dafny's own `/` is Euclidean and differs from it when
      `a` is negative. */
  function TruncDiv(a: int, b: int): (q: int)
    requires b != 0
    ensures Abs(q * b) <= Abs(a) < Abs(q * b) + Abs(b)
    ensures q * b == 0 || (q * b > 0) == (a > 0)
    ensures a >= 0 && b > 0 ==> q == a / b
  {
    var a', b' := Abs(a), Abs(b);
    DivBounds(a', b');
    var q' := a' / b';
    if (a >= 0) == (b > 0) then
      assert q' * b == q' * b' || q' * b == -(q' * b');
      q'
    else
      assert (-q') * b == q' * b' || (-q') * b == -(q' * b');
      -q'
  }

  lemma DivBounds(a: nat, b: nat)
    requires b > 0
    ensures 0 <= (a / b) * b <= a < (a / b) * b + b
  {
  }

  /** `Int32(x)` for a CGFloat `x`: the integer part, truncated toward zero. */
  function Trunc(x: real): int
  {
    if x >= 0.0 then x.Floor else -((-x).Floor)
  }

  /** Truncation drops the fraction toward zero: it never moves away from
      zero and stays within 1 of `x`. */
  lemma TruncTowardZero(x: real)
    ensures x >= 0.0 ==> 0 <= Trunc(x) && Trunc(x) as real <= x < Trunc(x) as real + 1.0
    ensures x < 0.0 ==> Trunc(x) <= 0 && Trunc(x) as real - 1.0 < x <= Trunc(x) as real
  {
  }

  /** `radians(v)`: degrees to radians. */
  function Radians(v: real): (r: real)
    ensures r * 180.0 == v * Pi
  {
    v * Pi / 180.0
  }

  /** Converting degrees to radians keeps order, so an angle drawn in
      `[-b, b]` degrees lies in `[-radians(b), radians(b)]`. */
  lemma RadiansMonotone(u: real, v: real)
    requires u <= v
    ensures Radians(u) <= Radians(v)
  {
    assert Radians(v) - Radians(u) == (v - u) * (Pi / 180.0);
  }
}
