/** `Point` (src/point.rs): a 2-D point of reals with component-wise arithmetic.
    It serves both as a pixel coordinate and as a point of the complex plane. */
module Points {

  /** `Point::new(x, y)` is this datatype's constructor. */
  datatype Point = Point(x: real, y: real)

  /** `conj`: the mirror image in the x axis. */
  function Conj(p: Point): Point { Point(p.x, -p.y) }

  function Add(a: Point, b: Point): Point { Point(a.x + b.x, a.y + b.y) }

  function Sub(a: Point, b: Point): Point { Point(a.x - b.x, a.y - b.y) }

  /** Component-wise product (not the complex product). */
  function Mul(a: Point, b: Point): Point { Point(a.x * b.x, a.y * b.y) }

  /** Both components are divisors: `f64` division by zero (an infinity or NaN) has no
      counterpart over the reals. */
  predicate NonZero(p: Point) { p.x != 0.0 && p.y != 0.0 }

  /** Component-wise quotient. */
  function Div(a: Point, b: Point): Point
    requires NonZero(b)
  {
    Point(a.x / b.x, a.y / b.y)
  }

  /** `conj` changes only the y component, by negating it, and undoes itself. */
  lemma ConjInvolutive(p: Point)
    ensures Conj(p).x == p.x && Conj(p).y == -p.y
    ensures Conj(Conj(p)) == p
  {
  }

  /** Subtraction undoes addition. */
  lemma AddSubCancel(a: Point, b: Point)
    ensures Sub(Add(a, b), b) == a
    ensures Add(Sub(a, b), b) == a
  {
  }

  /** Division undoes the component-wise product. */
  lemma MulDivCancel(a: Point, b: Point)
    requires NonZero(b)
    ensures Div(Mul(a, b), b) == a
  {
  }

  /** A place holding a point that `AddAssign`, `SubAssign` and `MulAssign` overwrite
      (`*self = ...`). */
  class PointVar {
    var x: real
    var y: real

    /** The point currently stored. */
    function Value(): Point
      reads this
    {
      Point(x, y)
    }

    constructor (p: Point)
      ensures Value() == p
    {
      x, y := p.x, p.y;
    }

    /** `self += other` */
    method AddAssign(other: Point)
      modifies this
      ensures Value() == Add(old(Value()), other)
    {
      x, y := x + other.x, y + other.y;
    }

    /** `self -= other` */
    method SubAssign(other: Point)
      modifies this
      ensures Value() == Sub(old(Value()), other)
    {
      x, y := x - other.x, y - other.y;
    }

    /** `self *= other` */
    method MulAssign(other: Point)
      modifies this
      ensures Value() == Mul(old(Value()), other)
    {
      x, y := x * other.x, y * other.y;
    }
  }
}
