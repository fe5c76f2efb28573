/** The fractals of src/fractals.rs: the escape-time loops (Mandelbrot, Julia,
    Mandelbar, Burning Ship), Newton's method over an ordered list of coloured roots,
    the preset table `Variant::get_fractal`, and the colouriser
    `get_pixel_for_iteration`. */
module Fractals {
  import opened Wrappers
  import opened Complexes
  import opened Pixels
  import Points

  /** `Variant`: the fractals the interface offers. */
  datatype Variant =
    | Mandelbrot | Julia | Mandelbar | BurningShip
    | Newton | Newton2 | Newton3 | Newton4 | Newton5

  /** `Channel`: the colour a Newton root is painted in; `All` for escape-time results. */
  datatype Channel = Red | Green | Blue | Cyan | Magenta | Yellow | All

  /** `Iterations`: the (possibly smoothed) iteration count and its channel. */
  datatype Iterations = Iterations(n: real, channel: Channel)

  /** `Iterations::all(n)` */
  function AllChannels(n: real): Iterations { Iterations(n, All) }

  /** `Colorization`: how an iteration count becomes a colour. */
  datatype Colorization = Relative | RelativeBnW | AbsoluteHSL | AbsoluteLogHSL

  /** `Options`, with `precision: usize` as a natural number and `order: i32` as an integer. */
  datatype Options = Options(
    precision: nat,
    smooth: bool,
    variant: Variant,
    order: int,
    constReal: real,
    constImaginary: real,
    lightness: real,
    colorization: Colorization)

  /** A fractal: one of the four escape-time iterations, or Newton's method on a
      polynomial and its derivative with the ordered list of its roots and their
      channels. The two functions map a finite argument to `None` where `f64` would
      give NaN (a division by zero). */
  datatype Fractal =
    | MandelbrotSet
    | JuliaSet
    | MandelbarSet
    | BurningShipSet
    | NewtonMethod(
        polynomial: Complex -> Option<Complex>,
        derivative: Complex -> Option<Complex>,
        roots: seq<(Complex, Channel)>)

  /** The smoothing corrections, which use `ln`, `sqrt` and `powf` and so are given
      rather than computed: `escape(mod2, c, order)` is the amount the Mandelbrot,
      Mandelbar and Burning Ship loops subtract, `julia(mod2)` the amount the Julia loop
      subtracts, and `newton(previous, current)` the amount the Newton loop adds, from
      the squared distances to the root before and after the converging step. */
  datatype Smoothing = Smoothing(
    escape: (real, Complex, int) -> real,
    julia: real -> real,
    newton: (real, real) -> real)

  /** The external colour conversion the HSL modes call: `Color::new_hsl(h, s, l)` and
      `f64::ln`. */
  datatype HslBackend = HslBackend(newHsl: (real, real, real) -> Color, ln: real -> real)

  /** `Complex::new(point.x, point.y)` */
  function ToComplex(p: Points.Point): Complex { Complex(p.x, p.y) }

  /** A complex constant with a zero imaginary part. */
  function Re(x: real): Complex { Complex(x, 0.0) }

  /** sqrt(3) / 2 as the nearest `f64`, the imaginary part of two cube roots of unity. */
  const HalfSqrt3: real := 0.8660254037844386

  // The polynomials and derivatives of the Newton presets.

  /** p = z³ - 1 */
  function NewtonPolynomial(z: Complex): Option<Complex> { Some(Sub(PowNat(z, 3), One)) }
  function NewtonDerivative(z: Complex): Option<Complex> { Some(Mul(Re(3.0), PowNat(z, 2))) }

  /** p = z³ - 2z + 2 */
  function Newton2Polynomial(z: Complex): Option<Complex>
  {
    Some(Add(Sub(PowNat(z, 3), Mul(Re(2.0), z)), Re(2.0)))
  }
  function Newton2Derivative(z: Complex): Option<Complex> { Some(Sub(Mul(Re(3.0), PowNat(z, 2)), Re(4.0))) }

  /** p = z⁶ + z³ - 1 */
  function Newton3Polynomial(z: Complex): Option<Complex> { Some(Sub(Add(PowNat(z, 6), PowNat(z, 3)), One)) }
  function Newton3Derivative(z: Complex): Option<Complex>
  {
    Some(Add(Mul(Re(6.0), PowNat(z, 5)), Mul(Re(3.0), PowNat(z, 2))))
  }

  /** p = z⁵ - 2 */
  function Newton4Polynomial(z: Complex): Option<Complex> { Some(Sub(PowNat(z, 5), Re(2.0))) }
  function Newton4Derivative(z: Complex): Option<Complex> { Some(Mul(Re(5.0), PowNat(z, 4))) }

  /** p = z³ - 1 + 1/z, and p' = (3z⁴ - 1) / z²; both are NaN at z = 0. */
  function Newton5Polynomial(z: Complex): Option<Complex> { AddTo(Div(One, z), Sub(PowNat(z, 3), One)) }
  function Newton5Derivative(z: Complex): Option<Complex>
  {
    Div(Sub(Mul(Re(3.0), PowNat(z, 4)), One), PowNat(z, 2))
  }

  // The root lists of the Newton presets, in the order they are tested.

  const NewtonRoots: seq<(Complex, Channel)> :=
    [(One, Red), (Complex(-0.5, HalfSqrt3), Green), (Complex(-0.5, -HalfSqrt3), Blue)]

  const Newton2Roots: seq<(Complex, Channel)> :=
    [(Re(-1.7693), Cyan), (Complex(0.88465, -0.58974), Yellow), (Complex(0.88465, 0.58974), Magenta)]

  const Newton3Roots: seq<(Complex, Channel)> :=
    [(Complex(0.58699, 1.01670), Red), (Complex(0.85180, 0.0), Yellow),
     (Complex(0.58699, -1.01670), Green), (Complex(-0.42590, -0.73768), Cyan),
     (Complex(-1.1740, 0.0), Blue), (Complex(-0.42590, 0.73768), Magenta)]

  const Newton4Roots: seq<(Complex, Channel)> :=
    [(Complex(-0.929316, -0.675188), Red), (Complex(-0.929316, 0.675188), Green),
     (Complex(0.354967, -1.09248), Cyan), (Complex(0.354967, 1.09248), Blue),
     (Re(1.1487), Magenta)]

  const Newton5Roots: seq<(Complex, Channel)> :=
    [(Complex(-0.72714, -0.93410), Red), (Complex(-0.72714, 0.93410), Cyan),
     (Complex(0.72714, -0.43001), Magenta), (Complex(0.72714, 0.43001), Blue)]

  /** `Variant::get_fractal`: the preset table. */
  function GetFractal(v: Variant): (f: Fractal)
    ensures f.NewtonMethod? <==> IsNewtonVariant(v)
  {
    match v
    case Mandelbrot => MandelbrotSet
    case Julia => JuliaSet
    case Mandelbar => MandelbarSet
    case BurningShip => BurningShipSet
    case Newton => NewtonMethod(NewtonPolynomial, NewtonDerivative, NewtonRoots)
    case Newton2 => NewtonMethod(Newton2Polynomial, Newton2Derivative, Newton2Roots)
    case Newton3 => NewtonMethod(Newton3Polynomial, Newton3Derivative, Newton3Roots)
    case Newton4 => NewtonMethod(Newton4Polynomial, Newton4Derivative, Newton4Roots)
    case Newton5 => NewtonMethod(Newton5Polynomial, Newton5Derivative, Newton5Roots)
  }

  predicate IsNewtonVariant(v: Variant)
  {
    v == Newton || v == Newton2 || v == Newton3 || v == Newton4 || v == Newton5
  }

  /** The channels of a root list, in order. */
  function Channels(roots: seq<(Complex, Channel)>): (r: seq<Channel>)
    ensures |r| == |roots| && forall i :: 0 <= i < |roots| ==> r[i] == roots[i].1
  {
    if roots == [] then [] else [roots[0].1] + Channels(roots[1..])
  }

  /** No channel occurs twice: none occurs again after its first place. */
  predicate Distinct(s: seq<Channel>)
  {
    s == [] || (s[0] !in s[1..] && Distinct(s[1..]))
  }

  /** The table gives Newton's method exactly for the five Newton variants, and every
      root there is painted in its own colour channel, never `All`. */
  lemma {:induction false} PresetRootChannels(v: Variant)
    ensures GetFractal(v).NewtonMethod? <==> IsNewtonVariant(v)
    ensures GetFractal(v).NewtonMethod? ==>
      var roots := GetFractal(v).roots;
      |roots| >= 3 && All !in Channels(roots) && Distinct(Channels(roots))
  {
    match v
    case Newton => NewtonRootChannels();
    case Newton2 => Newton2RootChannels();
    case Newton3 => Newton3RootChannels();
    case Newton4 => Newton4RootChannels();
    case Newton5 => Newton5RootChannels();
    case _ =>
  }

  lemma NewtonRootChannels()
    ensures Channels(NewtonRoots) == [Red, Green, Blue]
    ensures All !in Channels(NewtonRoots) && Distinct(Channels(NewtonRoots))
  {
    assert Distinct([Red, Green, Blue]);
  }

  lemma Newton2RootChannels()
    ensures Channels(Newton2Roots) == [Cyan, Yellow, Magenta]
    ensures All !in Channels(Newton2Roots) && Distinct(Channels(Newton2Roots))
  {
    assert Distinct([Cyan, Yellow, Magenta]);
  }

  lemma Newton3RootChannels()
    ensures Channels(Newton3Roots) == [Red, Yellow, Green, Cyan, Blue, Magenta]
    ensures All !in Channels(Newton3Roots) && Distinct(Channels(Newton3Roots))
  {
    ChannelsAre(Newton3Roots, [Red, Yellow, Green, Cyan, Blue, Magenta]);
    DistinctCons(Magenta, []);
    DistinctCons(Blue, [Magenta]);
    DistinctCons(Cyan, [Blue, Magenta]);
    DistinctCons(Green, [Cyan, Blue, Magenta]);
    DistinctCons(Yellow, [Green, Cyan, Blue, Magenta]);
    DistinctCons(Red, [Yellow, Green, Cyan, Blue, Magenta]);
  }

  lemma ChannelsAre(roots: seq<(Complex, Channel)>, l: seq<Channel>)
    requires |l| == |roots| && forall i :: 0 <= i < |roots| ==> l[i] == roots[i].1
    ensures Channels(roots) == l
  {
  }

  lemma DistinctCons(x: Channel, s: seq<Channel>)
    requires x !in s && Distinct(s)
    ensures Distinct([x] + s)
  {
    assert ([x] + s)[1..] == s;
  }

  lemma Newton4RootChannels()
    ensures Channels(Newton4Roots) == [Red, Green, Cyan, Blue, Magenta]
    ensures All !in Channels(Newton4Roots) && Distinct(Channels(Newton4Roots))
  {
    assert Distinct([Red, Green, Cyan, Blue, Magenta]);
  }

  lemma Newton5RootChannels()
    ensures Channels(Newton5Roots) == [Red, Cyan, Magenta, Blue]
    ensures All !in Channels(Newton5Roots) && Distinct(Channels(Newton5Roots))
  {
    assert Distinct([Red, Cyan, Magenta, Blue]);
  }

  // ---------------------------------------------------------------------------
  // Escape-time iteration

  /** One step z ↦ z_next of an escape-time fractal of order d with constant c:
      Mandelbrot z^d + c (by z·z when d = 2), Julia z^d + c, Mandelbar conj(z)^d + c,
      Burning Ship (|re z| + |im z|·i)^d + c. */
  function EscapeStep(f: Fractal, order: int, z: Complex, c: Complex): (r: Option<Complex>)
    requires !f.NewtonMethod?
    ensures r.None? <==> !(f.MandelbrotSet? && order == 2) && order < 0 && NormSqr(z) == 0.0
  {
    match f
    case MandelbrotSet => if order == 2 then Some(Add(Mul(z, z), c)) else AddTo(Powi(z, order), c)
    case JuliaSet => AddTo(Powi(z, order), c)
    case MandelbarSet => AddTo(Powi(Conj(z), order), c)
    case BurningShipSet =>
      AddTo(Powi(Complex(if z.re < 0.0 then -z.re else z.re, if z.im < 0.0 then -z.im else z.im), order), c)
  }

  /** Over the reals the order-2 shortcut of the Mandelbrot step is `powi(2)`. */
  lemma MandelbrotShortcut(z: Complex, c: Complex)
    ensures EscapeStep(MandelbrotSet, 2, z, c) == AddTo(Powi(z, 2), c)
  {
    PowNatTwo(z);
  }

  /** The iterate `k` steps after `z0`; NaN (`None`) stays NaN. */
  function Orbit(f: Fractal, order: int, z0: Complex, c: Complex, k: nat): Option<Complex>
    requires !f.NewtonMethod?
    decreases k
  {
    if k == 0 then Some(z0)
    else
      match Orbit(f, order, z0, c, k - 1)
      case None => None
      case Some(z) => EscapeStep(f, order, z, c)
  }

  /** |z|² > 4, which NaN never satisfies. */
  predicate Escaped(z: Option<Complex>)
  {
    z.Some? && NormSqr(z.value) > 4.0
  }

  /** Step `j` (counting from 0) takes the orbit outside the disc of radius 2. */
  predicate EscapesAt(f: Fractal, order: int, z0: Complex, c: Complex, j: nat)
    requires !f.NewtonMethod?
  {
    Escaped(Orbit(f, order, z0, c, j + 1))
  }

  /** An escape: the index of the escaping step and the |z|² it reached. */
  datatype Escape = Escape(step: nat, mod2: real)

  /** The first escaping step among steps `i`..`precision - 1`. */
  function FirstEscape(f: Fractal, order: int, z0: Complex, c: Complex, i: nat, precision: nat): Option<Escape>
    requires !f.NewtonMethod?
    decreases precision - i
  {
    if i >= precision then None
    else if EscapesAt(f, order, z0, c, i) then Some(Escape(i, NormSqr(Orbit(f, order, z0, c, i + 1).value)))
    else FirstEscape(f, order, z0, c, i + 1, precision)
  }

  /** `FirstEscape` finds the first escaping step in range, and finds nothing exactly
      when no step in range escapes. */
  lemma {:induction false} FirstEscapeSpec(f: Fractal, order: int, z0: Complex, c: Complex, i: nat, precision: nat)
    requires !f.NewtonMethod?
    decreases precision - i
    ensures FirstEscape(f, order, z0, c, i, precision).None? <==>
      (forall j :: i <= j < precision ==> !EscapesAt(f, order, z0, c, j))
    ensures FirstEscape(f, order, z0, c, i, precision).Some? ==>
      var e := FirstEscape(f, order, z0, c, i, precision).value;
      i <= e.step < precision && EscapesAt(f, order, z0, c, e.step) &&
      e.mod2 == NormSqr(Orbit(f, order, z0, c, e.step + 1).value) &&
      forall j :: i <= j < e.step ==> !EscapesAt(f, order, z0, c, j)
  {
    if i < precision && !EscapesAt(f, order, z0, c, i) {
      FirstEscapeSpec(f, order, z0, c, i + 1, precision);
    }
  }

  /** The starting value z0 and the constant c: the Mandelbrot family starts at 0 with
      c the point; Julia starts at the point with c the option constant. */
  function Start(f: Fractal, point: Points.Point, options: Options): (Complex, Complex)
  {
    if f.JuliaSet? || f.NewtonMethod? then (ToComplex(point), Complex(options.constReal, options.constImaginary))
    else (Zero, ToComplex(point))
  }

  /** For an order of at least 1, the first Mandelbrot, Mandelbar or Burning Ship
      iterate is the point itself, and the first Julia iterate is point^d + constant. */
  lemma {:induction false} FirstIterate(f: Fractal, point: Points.Point, options: Options)
    requires !f.NewtonMethod? && options.order >= 1
    ensures var (z0, c) := Start(f, point, options);
      !f.JuliaSet? ==> Orbit(f, options.order, z0, c, 1) == Some(ToComplex(point))
    ensures var (z0, c) := Start(f, point, options);
      f.JuliaSet? ==> Orbit(f, options.order, z0, c, 1) == Some(Add(PowNat(ToComplex(point), options.order), c))
  {
    var (z0, c) := Start(f, point, options);
    OrbitOne(f, options.order, z0, c);
    if !f.JuliaSet? {
      StepFromZero(f, options.order, c);
    }
  }

  lemma OrbitOne(f: Fractal, order: int, z0: Complex, c: Complex)
    requires !f.NewtonMethod?
    ensures Orbit(f, order, z0, c, 1) == EscapeStep(f, order, z0, c)
  {
  }

  /** From 0, one step of an order d >= 1 gives the constant. */
  lemma StepFromZero(f: Fractal, d: int, c: Complex)
    requires !f.NewtonMethod? && !f.JuliaSet? && d >= 1
    ensures EscapeStep(f, d, Zero, c) == Some(c)
  {
    match f
    case MandelbrotSet => MandelbrotFromZero(d, c);
    case MandelbarSet => MandelbarFromZero(d, c);
    case BurningShipSet => BurningShipFromZero(d, c);
  }

  lemma MandelbrotFromZero(d: int, c: Complex)
    requires d >= 1
    ensures EscapeStep(MandelbrotSet, d, Zero, c) == Some(c)
  {
    if d == 2 {
      MulZero();
      ZeroAdd(c);
    } else {
      ZeroPlus(d, c);
    }
  }

  lemma MandelbarFromZero(d: int, c: Complex)
    requires d >= 1
    ensures EscapeStep(MandelbarSet, d, Zero, c) == Some(c)
  {
    ConjZero();
    ZeroPlus(d, c);
  }

  lemma BurningShipFromZero(d: int, c: Complex)
    requires d >= 1
    ensures EscapeStep(BurningShipSet, d, Zero, c) == Some(c)
  {
    assert Complex(0.0, 0.0) == Zero;
    ZeroPlus(d, c);
  }

  lemma MulZero()
    ensures Mul(Zero, Zero) == Zero
  {
    assert 0.0 * 0.0 == 0.0;
  }

  lemma ConjZero()
    ensures Conj(Zero) == Zero
  {
  }

  lemma ZeroAdd(z: Complex)
    ensures Add(Zero, z) == z
  {
  }

  /** 0^d + z = z for d >= 1. */
  lemma {:induction false} ZeroPlus(d: int, z: Complex)
    requires d >= 1
    ensures AddTo(Powi(Zero, d), z) == Some(z)
  {
    PowZero(d);
    assert Add(Zero, z) == z;
  }

  /** 0^d = 0 for d >= 1. */
  lemma {:induction false} PowZero(d: nat)
    requires d >= 1
    ensures PowNat(Zero, d) == Zero
  {
    assert Mul(Zero, PowNat(Zero, d - 1)) == Zero;
  }

  /** The squared modulus of the sum of the point's offsets from the centres of the
      main cardioid's defining circle, and the cardioid test without a square root:
      with q = (x - 1/4)² + y² and p = sqrt(q), the source's test x < p - 2p² + 1/4
      reads p > x + 2q - 1/4 = a, which for p >= 0 holds exactly when a < 0 or a² < q. */
  predicate InCardioid(point: Points.Point)
  {
    var q := (point.x - 0.25) * (point.x - 0.25) + point.y * point.y;
    var a := point.x + 2.0 * q - 0.25;
    a < 0.0 || a * a < q
  }

  /** The disc of radius 1/4 about -1, the bulb of period 2. */
  predicate InPeriodTwoBulb(point: Points.Point)
  {
    (point.x + 1.0) * (point.x + 1.0) + point.y * point.y < 1.0 / 16.0
  }

  /** The order-2 Mandelbrot pre-test, which returns "no escape" at once. */
  predicate InMainBulbs(point: Points.Point)
  {
    InCardioid(point) || InPeriodTwoBulb(point)
  }

  /** For p >= 0, a < p exactly when a < 0 or a² < p². */
  lemma BelowRoot(a: real, p: real)
    requires p >= 0.0
    ensures a < p <==> a < 0.0 || a * a < p * p
  {
    assert (p - a) * (p + a) == p * p - a * a;
    if a >= 0.0 && a < p {
      MulPositive(p - a, p + a);
    }
    if a >= 0.0 && a >= p {
      MulNonNegative(a - p, a + p);
      assert (a - p) * (a + p) == a * a - p * p;
    }
  }

  lemma MulPositive(u: real, v: real)
    requires u > 0.0 && v > 0.0
    ensures u * v > 0.0
  {
  }

  lemma MulNonNegative(u: real, v: real)
    requires u >= 0.0 && v >= 0.0
    ensures u * v >= 0.0
  {
  }

  /** `InCardioid` agrees with the source's square-root test for the square root p. */
  lemma {:induction false} CardioidTestExact(x: real, y: real, p: real)
    requires p >= 0.0 && p * p == (x - 0.25) * (x - 0.25) + y * y
    ensures (x < p - 2.0 * (p * p) + 0.25) <==> InCardioid(Points.Point(x, y))
  {
    var q := (x - 0.25) * (x - 0.25) + y * y;
    var a := x + 2.0 * q - 0.25;
    assert (x < p - 2.0 * (p * p) + 0.25) <==> a < p;
    BelowRoot(a, p);
  }

  /** The smoothing correction of an escape-time loop for the escaping |z|². */
  function EscapeCorrection(f: Fractal, sm: Smoothing, mod2: real, c: Complex, order: int): real
  {
    if f.JuliaSet? then sm.julia(mod2) else sm.escape(mod2, c, order)
  }

  /** What an escape-time `get_iterations_at_point` returns. */
  function EscapeIterationsAt(f: Fractal, point: Points.Point, options: Options, sm: Smoothing): Option<Iterations>
    requires !f.NewtonMethod?
  {
    var (z0, c) := Start(f, point, options);
    if f.MandelbrotSet? && options.order == 2 && InMainBulbs(point) then None
    else EscapeCount(f, options.order, z0, c, options.precision, options.smooth, sm)
  }

  /** The (smoothed) count of the first escape from z0 with constant c, if any. */
  function EscapeCount(f: Fractal, order: int, z0: Complex, c: Complex, precision: nat, smooth: bool, sm: Smoothing)
    : Option<Iterations>
    requires !f.NewtonMethod?
  {
    match FirstEscape(f, order, z0, c, 0, precision)
    case None => None
    case Some(e) =>
      Some(AllChannels(if smooth then e.step as real - EscapeCorrection(f, sm, e.mod2, c, order)
                       else e.step as real))
  }

  /** The escape-time `get_iterations_at_point` of Mandelbrot, Julia, Mandelbar and
      Burning Ship: the order-2 Mandelbrot pre-test, then the loop. */
  method EscapeIterations(f: Fractal, point: Points.Point, options: Options, sm: Smoothing)
    returns (r: Option<Iterations>)
    requires !f.NewtonMethod?
    ensures r == EscapeIterationsAt(f, point, options, sm)
  {
    var (z0, c) := Start(f, point, options);
    if f.MandelbrotSet? && options.order == 2 && InMainBulbs(point) {
      return None;
    }
    r := EscapeLoop(f, options.order, z0, c, options.precision, options.smooth, sm);
  }

  /** The escape-time loop shared by the four fractals. */
  method EscapeLoop(f: Fractal, order: int, z0: Complex, c: Complex, precision: nat, smooth: bool, sm: Smoothing)
    returns (r: Option<Iterations>)
    requires !f.NewtonMethod?
    ensures r == EscapeCount(f, order, z0, c, precision, smooth, sm)
  {
    var z: Option<Complex> := Some(z0);
    var iterations: nat := 0;
    while iterations < precision
      invariant iterations <= precision
      invariant z == Orbit(f, order, z0, c, iterations)
      invariant FirstEscape(f, order, z0, c, 0, precision) == FirstEscape(f, order, z0, c, iterations, precision)
      decreases precision - iterations
    {
      z := match z case None => None case Some(w) => EscapeStep(f, order, w, c);
      EscapeLoopStep(f, order, z0, c, iterations, precision);
      if z.Some? {
        var mod2 := NormSqr(z.value);
        if mod2 > 4.0 {
          var n := iterations as real;
          if smooth {
            n := n - EscapeCorrection(f, sm, mod2, c, order);
          }
          return Some(AllChannels(n));
        }
      }
      iterations := iterations + 1;
    }
    return None;
  }

  /** One turn of the escape-time loop: the next iterate either escapes, and then it
      is the first escape, or the search goes on from the next step. */
  lemma EscapeLoopStep(f: Fractal, order: int, z0: Complex, c: Complex, i: nat, precision: nat)
    requires !f.NewtonMethod? && i < precision
    ensures var z := Orbit(f, order, z0, c, i + 1);
      z == (match Orbit(f, order, z0, c, i) case None => None case Some(w) => EscapeStep(f, order, w, c)) &&
      (Escaped(z) ==> FirstEscape(f, order, z0, c, i, precision) == Some(Escape(i, NormSqr(z.value)))) &&
      (!Escaped(z) ==> FirstEscape(f, order, z0, c, i, precision) == FirstEscape(f, order, z0, c, i + 1, precision))
  {
  }

  /** Without smoothing, an escape-time result is `None` exactly when the order-2
      Mandelbrot pre-test holds or no step below `precision` escapes; otherwise it is
      `Some(All, n)` for the first escaping step n, which is below `precision`. */
  lemma {:induction false} EscapeTimeCount(f: Fractal, point: Points.Point, options: Options, sm: Smoothing)
    requires !f.NewtonMethod? && !options.smooth
    ensures var (z0, c) := Start(f, point, options);
      EscapeIterationsAt(f, point, options, sm).None? <==>
        (f.MandelbrotSet? && options.order == 2 && InMainBulbs(point)) ||
        forall j :: 0 <= j < options.precision ==> !EscapesAt(f, options.order, z0, c, j)
    ensures var (z0, c) := Start(f, point, options);
      var r := EscapeIterationsAt(f, point, options, sm);
      r.Some? ==>
        !(f.MandelbrotSet? && options.order == 2 && InMainBulbs(point)) &&
        r.value.channel == All && 0.0 <= r.value.n < options.precision as real &&
        r.value.n == r.value.n.Floor as real &&
        EscapesAt(f, options.order, z0, c, r.value.n.Floor) &&
        forall j :: 0 <= j < r.value.n.Floor ==> !EscapesAt(f, options.order, z0, c, j)
  {
    var (z0, c) := Start(f, point, options);
    FirstEscapeSpec(f, options.order, z0, c, 0, options.precision);
  }

  /** The iterates of c = 1 under z² + c from 0 are 1, 2, 5, so the count is 2. */
  lemma MandelbrotAtOne(options: Options, sm: Smoothing)
    requires options.order == 2 && !options.smooth && options.precision >= 3
    ensures EscapeIterationsAt(MandelbrotSet, Points.Point(1.0, 0.0), options, sm) == Some(Iterations(2.0, All))
  {
    OneOutsideBulbs();
    FirstEscapeOfOne(options.precision);
  }

  lemma OneOutsideBulbs()
    ensures !InMainBulbs(Points.Point(1.0, 0.0))
  {
  }

  /** Steps 0 and 1 reach |z|² = 1 and 4, step 2 reaches 25. */
  lemma FirstEscapeOfOne(n: nat)
    requires n >= 3
    ensures FirstEscape(MandelbrotSet, 2, Zero, Complex(1.0, 0.0), 0, n) == Some(Escape(2, 25.0))
  {
    EscapesOfOne();
    EscapeAtThird(MandelbrotSet, 2, Zero, Complex(1.0, 0.0), n);
  }

  /** An orbit whose first escape is step 2. */
  lemma EscapeAtThird(f: Fractal, order: int, z0: Complex, c: Complex, n: nat)
    requires !f.NewtonMethod? && n >= 3
    requires !EscapesAt(f, order, z0, c, 0) && !EscapesAt(f, order, z0, c, 1) && EscapesAt(f, order, z0, c, 2)
    ensures FirstEscape(f, order, z0, c, 0, n) == Some(Escape(2, NormSqr(Orbit(f, order, z0, c, 3).value)))
  {
    FirstEscapeSkip(f, order, z0, c, 0, n);
    FirstEscapeSkip(f, order, z0, c, 1, n);
    FirstEscapeHit(f, order, z0, c, 2, n);
  }

  lemma EscapesOfOne()
    ensures !EscapesAt(MandelbrotSet, 2, Zero, Complex(1.0, 0.0), 0)
    ensures !EscapesAt(MandelbrotSet, 2, Zero, Complex(1.0, 0.0), 1)
    ensures EscapesAt(MandelbrotSet, 2, Zero, Complex(1.0, 0.0), 2)
    ensures NormSqr(Orbit(MandelbrotSet, 2, Zero, Complex(1.0, 0.0), 3).value) == 25.0
  {
    OrbitOfOne();
  }

  lemma FirstEscapeSkip(f: Fractal, order: int, z0: Complex, c: Complex, i: nat, precision: nat)
    requires !f.NewtonMethod? && i < precision && !EscapesAt(f, order, z0, c, i)
    ensures FirstEscape(f, order, z0, c, i, precision) == FirstEscape(f, order, z0, c, i + 1, precision)
  {
  }

  lemma FirstEscapeHit(f: Fractal, order: int, z0: Complex, c: Complex, i: nat, precision: nat)
    requires !f.NewtonMethod? && i < precision && EscapesAt(f, order, z0, c, i)
    ensures FirstEscape(f, order, z0, c, i, precision) == Some(Escape(i, NormSqr(Orbit(f, order, z0, c, i + 1).value)))
  {
  }

  /** The first three iterates of z² + 1 from 0 and their squared moduli. */
  lemma OrbitOfOne()
    ensures Orbit(MandelbrotSet, 2, Zero, Complex(1.0, 0.0), 1) == Some(Complex(1.0, 0.0))
    ensures Orbit(MandelbrotSet, 2, Zero, Complex(1.0, 0.0), 2) == Some(Complex(2.0, 0.0))
    ensures Orbit(MandelbrotSet, 2, Zero, Complex(1.0, 0.0), 3) == Some(Complex(5.0, 0.0))
    ensures NormSqr(Complex(1.0, 0.0)) == 1.0 && NormSqr(Complex(2.0, 0.0)) == 4.0
    ensures NormSqr(Complex(5.0, 0.0)) == 25.0
  {
    var c := Complex(1.0, 0.0);
    OrbitOne(MandelbrotSet, 2, Zero, c);
    MandelbrotFromZero(2, c);
    OrbitNext(MandelbrotSet, 2, Zero, c, 1);
    SquarePlus(1.0, 1.0);
    OrbitNext(MandelbrotSet, 2, Zero, c, 2);
    SquarePlus(2.0, 1.0);
  }

  /** One more step of the orbit. */
  lemma OrbitNext(f: Fractal, order: int, z0: Complex, c: Complex, k: nat)
    requires !f.NewtonMethod? && Orbit(f, order, z0, c, k).Some?
    ensures Orbit(f, order, z0, c, k + 1) == EscapeStep(f, order, Orbit(f, order, z0, c, k).value, c)
  {
  }

  /** For real x and a, the order-2 Mandelbrot step takes x to x² + a. */
  lemma SquarePlus(x: real, a: real)
    ensures EscapeStep(MandelbrotSet, 2, Complex(x, 0.0), Complex(a, 0.0)) == Some(Complex(x * x + a, 0.0))
  {
    RealSquare(x, a);
  }

  lemma RealSquare(x: real, a: real)
    ensures Add(Mul(Complex(x, 0.0), Complex(x, 0.0)), Complex(a, 0.0)) == Complex(x * x + a, 0.0)
  {
  }

  /** c = -1 lies in the period-2 bulb, so the pre-test answers "no escape". */
  lemma MandelbrotAtMinusOne(options: Options, sm: Smoothing)
    requires options.order == 2
    ensures EscapeIterationsAt(MandelbrotSet, Points.Point(-1.0, 0.0), options, sm) == None
  {
    assert InPeriodTwoBulb(Points.Point(-1.0, 0.0));
  }

  /** The orbit of c = -1 alternates between 0 and -1, so it never escapes; the
      pre-test agrees with the loop there. */
  lemma {:induction false} MinusOneCycle(k: nat)
    ensures var z := Orbit(MandelbrotSet, 2, Zero, Complex(-1.0, 0.0), k);
      z == Some(Zero) || z == Some(Complex(-1.0, 0.0))
  {
    if k > 0 {
      MinusOneCycle(k - 1);
    }
  }

  lemma MinusOneNeverEscapes(precision: nat)
    ensures FirstEscape(MandelbrotSet, 2, Zero, Complex(-1.0, 0.0), 0, precision).None?
  {
    forall j: nat | j < precision
      ensures !EscapesAt(MandelbrotSet, 2, Zero, Complex(-1.0, 0.0), j)
    {
      MinusOneCycle(j + 1);
    }
    FirstEscapeSpec(MandelbrotSet, 2, Zero, Complex(-1.0, 0.0), 0, precision);
  }

  // ---------------------------------------------------------------------------
  // Newton's method

  /** 0.00001, the squared distance below which a root is reached. */
  const Epsilon: real := 0.00001

  /** One Newton step z ↦ z - c · p(z) / p'(z); NaN anywhere makes the result NaN. */
  function NewtonStep(f: Fractal, c: Complex, z: Complex): (r: Option<Complex>)
    requires f.NewtonMethod?
    ensures r.Some? <==>
      f.polynomial(z).Some? && f.derivative(z).Some? && NormSqr(f.derivative(z).value) != 0.0
    ensures r.Some? ==>
      Mul(Sub(z, r.value), f.derivative(z).value) == Mul(c, f.polynomial(z).value)
  {
    match (f.polynomial(z), f.derivative(z))
    case (Some(pz), Some(dz)) =>
      (match Div(Mul(c, pz), dz)
       case None => None
       case Some(q) =>
         DivTimesDivisor(Mul(c, pz), dz);
         SubSub(z, q);
         Some(Sub(z, q)))
    case _ => None
  }

  lemma SubSub(z: Complex, q: Complex)
    ensures Sub(z, Sub(z, q)) == q
  {
  }

  /** The Newton iterate `k` steps after `z0`. */
  function NewtonOrbit(f: Fractal, c: Complex, z0: Complex, k: nat): Option<Complex>
    requires f.NewtonMethod?
    decreases k
  {
    if k == 0 then Some(z0)
    else
      match NewtonOrbit(f, c, z0, k - 1)
      case None => None
      case Some(z) => NewtonStep(f, c, z)
  }

  /** |z - root|² < ε, which NaN never satisfies. */
  predicate Converged(z: Option<Complex>, root: Complex)
  {
    z.Some? && NormSqr(Sub(z.value, root)) < Epsilon
  }

  /** The first root, from position `k` of the list on, that `z` has reached. */
  function FirstRoot(roots: seq<(Complex, Channel)>, z: Option<Complex>, k: nat): Option<nat>
    decreases |roots| - k
  {
    if k >= |roots| then None
    else if Converged(z, roots[k].0) then Some(k)
    else FirstRoot(roots, z, k + 1)
  }

  /** `FirstRoot` picks the first reached root in list order, and nothing exactly when
      no root from position `k` on is reached. */
  lemma {:induction false} FirstRootSpec(roots: seq<(Complex, Channel)>, z: Option<Complex>, k: nat)
    decreases |roots| - k
    ensures FirstRoot(roots, z, k).None? <==> (forall i :: k <= i < |roots| ==> !Converged(z, roots[i].0))
    ensures FirstRoot(roots, z, k).Some? ==>
      var j := FirstRoot(roots, z, k).value;
      k <= j < |roots| && Converged(z, roots[j].0) &&
      forall i :: k <= i < j ==> !Converged(z, roots[i].0)
  {
    if k < |roots| && !Converged(z, roots[k].0) {
      FirstRootSpec(roots, z, k + 1);
    }
  }

  /** Where Newton's method stops: the step index, the root index, and the squared
      distances to that root before and after the step. */
  datatype Hit = Hit(step: nat, root: nat, previous: real, current: real)

  /** The first step among `i`..`precision - 1` after which some root is reached. */
  function NewtonFrom(f: Fractal, c: Complex, z0: Complex, i: nat, precision: nat): (r: Option<Hit>)
    requires f.NewtonMethod?
    decreases precision - i
    ensures r.Some? ==> i <= r.value.step < precision && r.value.root < |f.roots|
  {
    if i >= precision then None
    else
      var z := NewtonOrbit(f, c, z0, i + 1);
      FirstRootSpec(f.roots, z, 0);
      match FirstRoot(f.roots, z, 0)
      case Some(k) =>
        var root := f.roots[k].0;
        var last := NewtonOrbit(f, c, z0, i);
        assert last.Some?;
        Some(Hit(i, k, NormSqr(Sub(last.value, root)), NormSqr(Sub(z.value, root))))
      case None => NewtonFrom(f, c, z0, i + 1, precision)
  }

  /** Some root is reached after step `j` (counting from 0). */
  predicate ReachesAt(f: Fractal, c: Complex, z0: Complex, j: nat)
    requires f.NewtonMethod?
  {
    FirstRoot(f.roots, NewtonOrbit(f, c, z0, j + 1), 0).Some?
  }

  /** `NewtonFrom` stops at the first step after which a root is reached, naming the
      first reached root in list order, and finds nothing exactly when no step in
      range reaches a root. */
  lemma {:induction false} NewtonFromSpec(f: Fractal, c: Complex, z0: Complex, i: nat, precision: nat)
    requires f.NewtonMethod?
    decreases precision - i
    ensures NewtonFrom(f, c, z0, i, precision).None? <==>
      (forall j :: i <= j < precision ==> !ReachesAt(f, c, z0, j))
    ensures NewtonFrom(f, c, z0, i, precision).Some? ==>
      var hit := NewtonFrom(f, c, z0, i, precision).value;
      i <= hit.step < precision &&
      FirstRoot(f.roots, NewtonOrbit(f, c, z0, hit.step + 1), 0) == Some(hit.root) &&
      forall j :: i <= j < hit.step ==> !ReachesAt(f, c, z0, j)
  {
    if i < precision && !ReachesAt(f, c, z0, i) {
      NewtonFromSpec(f, c, z0, i + 1, precision);
    }
  }

  /** What Newton's `get_iterations_at_point` returns. */
  function NewtonIterationsAt(f: Fractal, point: Points.Point, options: Options, sm: Smoothing): Option<Iterations>
    requires f.NewtonMethod?
  {
    var (z0, c) := Start(f, point, options);
    match NewtonFrom(f, c, z0, 0, options.precision)
    case None => None
    case Some(hit) =>
      Some(Iterations(
        if options.smooth then hit.step as real + sm.newton(hit.previous, hit.current) else hit.step as real,
        f.roots[hit.root].1))
  }

  /** Newton's `get_iterations_at_point`: the step loop with the root loop inside it. */
  method NewtonIterations(f: Fractal, point: Points.Point, options: Options, sm: Smoothing)
    returns (r: Option<Iterations>)
    requires f.NewtonMethod?
    ensures r == NewtonIterationsAt(f, point, options, sm)
  {
    var (z0, c) := Start(f, point, options);
    var z: Option<Complex> := Some(z0);
    var iterations: nat := 0;
    while iterations < options.precision
      invariant iterations <= options.precision
      invariant z == NewtonOrbit(f, c, z0, iterations)
      invariant NewtonFrom(f, c, z0, 0, options.precision)
             == NewtonFrom(f, c, z0, iterations, options.precision)
      decreases options.precision - iterations
    {
      var lastZ := z;
      z := match z case None => None case Some(w) => NewtonStep(f, c, w);
      for k := 0 to |f.roots|
        invariant FirstRoot(f.roots, z, 0) == FirstRoot(f.roots, z, k)
      {
        var (root, channel) := f.roots[k];
        if z.Some? {
          var convergence := NormSqr(Sub(z.value, root));
          if convergence < Epsilon {
            var n := iterations as real;
            if options.smooth {
              n := n + sm.newton(NormSqr(Sub(lastZ.value, root)), convergence);
            }
            return Some(Iterations(n, channel));
          }
        }
      }
      iterations := iterations + 1;
    }
    return None;
  }

  /** A Newton result is painted in the channel of the first root, in list order,
      reached after the first converging step n, with n below `precision` when not
      smoothed; it is `None` exactly when no step reaches a root. */
  lemma {:induction false} NewtonCount(f: Fractal, point: Points.Point, options: Options, sm: Smoothing)
    requires f.NewtonMethod?
    ensures var (z0, c) := Start(f, point, options);
      NewtonIterationsAt(f, point, options, sm).None? <==>
        forall j :: 0 <= j < options.precision ==> !ReachesAt(f, c, z0, j)
    ensures var (z0, c) := Start(f, point, options);
      var r := NewtonIterationsAt(f, point, options, sm);
      r.Some? ==>
        var hit := NewtonFrom(f, c, z0, 0, options.precision).value;
        var z := NewtonOrbit(f, c, z0, hit.step + 1);
        hit.step < options.precision &&
        (!options.smooth ==> r.value.n == hit.step as real) &&
        hit.root < |f.roots| && r.value.channel == f.roots[hit.root].1 &&
        Converged(z, f.roots[hit.root].0) &&
        (forall i :: 0 <= i < hit.root ==> !Converged(z, f.roots[i].0)) &&
        (forall j :: 0 <= j < hit.step ==> !ReachesAt(f, c, z0, j))
  {
    var (z0, c) := Start(f, point, options);
    NewtonFromSpec(f, c, z0, 0, options.precision);
    var r := NewtonIterationsAt(f, point, options, sm);
    if r.Some? {
      var hit := NewtonFrom(f, c, z0, 0, options.precision).value;
      FirstRootSpec(f.roots, NewtonOrbit(f, c, z0, hit.step + 1), 0);
    }
  }

  /** A preset Newton fractal never reports `All`. */
  lemma {:induction false} PresetNewtonNeverAll(v: Variant, point: Points.Point, options: Options, sm: Smoothing)
    requires IsNewtonVariant(v)
    ensures GetFractal(v).NewtonMethod?
    ensures var r := NewtonIterationsAt(GetFractal(v), point, options, sm);
      r.Some? ==> r.value.channel != All
  {
    PresetRootChannels(v);
    NewtonCount(GetFractal(v), point, options, sm);
  }

  // ---------------------------------------------------------------------------
  // Dispatch

  /** What `get_iterations_at_point` returns for any fractal. */
  function IterationsAt(f: Fractal, point: Points.Point, options: Options, sm: Smoothing): Option<Iterations>
  {
    if f.NewtonMethod? then NewtonIterationsAt(f, point, options, sm)
    else EscapeIterationsAt(f, point, options, sm)
  }

  /** `get_iterations_at_point`, by the fractal's kind. */
  method GetIterationsAtPoint(f: Fractal, point: Points.Point, options: Options, sm: Smoothing)
    returns (r: Option<Iterations>)
    ensures r == IterationsAt(f, point, options, sm)
  {
    if f.NewtonMethod? {
      r := NewtonIterations(f, point, options, sm);
    } else {
      r := EscapeIterations(f, point, options, sm);
    }
  }

  /** Every result comes from a step below `precision`, so none exists when
      `precision` is 0. */
  lemma {:induction false} ResultNeedsPrecision(f: Fractal, point: Points.Point, options: Options, sm: Smoothing)
    ensures IterationsAt(f, point, options, sm).Some? ==> options.precision >= 1
  {
    var (z0, c) := Start(f, point, options);
    if f.NewtonMethod? {
      NewtonFromSpec(f, c, z0, 0, options.precision);
    } else if !(f.MandelbrotSet? && options.order == 2 && InMainBulbs(point)) {
      FirstEscapeSpec(f, options.order, z0, c, 0, options.precision);
    }
  }

  // ---------------------------------------------------------------------------
  // Colouring

  /** The position of a channel on the colour wheel, in steps of 60 degrees from red;
      `All` sits with red. */
  function WheelPosition(ch: Channel): nat
  {
    match ch
    case Red => 0
    case Yellow => 1
    case Green => 2
    case Cyan => 3
    case Blue => 4
    case Magenta => 5
    case All => 0
  }

  /** The `channel_delta` table of the black-and-white mode. */
  function ChannelDelta(ch: Channel): real
  {
    var channelInc := 255.0 / 6.0;
    match ch
    case Red => 0.0
    case Yellow => channelInc
    case Green => channelInc * 2.0
    case Cyan => channelInc * 3.0
    case Blue => channelInc * 4.0
    case Magenta => channelInc * 5.0
    case All => 0.0
  }

  /** The `initial_hue` table of the HSL modes. */
  function InitialHue(ch: Channel): real
  {
    match ch
    case Red => 0.0
    case Yellow => 60.0
    case Green => 120.0
    case Cyan => 180.0
    case Blue => 240.0
    case Magenta => 300.0
    case All => 0.0
  }

  /** Both tables follow the colour wheel: the delta is the wheel position times
      255/6, and the hue the position times 60 degrees. */
  lemma TablesFollowWheel(ch: Channel)
    ensures ChannelDelta(ch) == WheelPosition(ch) as real * (255.0 / 6.0)
    ensures InitialHue(ch) == WheelPosition(ch) as real * 60.0
  {
    match ch
    case Red =>
    case Yellow =>
    case Green =>
    case Cyan =>
    case Blue =>
    case Magenta =>
    case All =>
  }

  /** The primaries a channel is made of. */
  predicate HasRed(ch: Channel) { ch == Red || ch == Yellow || ch == Magenta }
  predicate HasGreen(ch: Channel) { ch == Green || ch == Yellow || ch == Cyan }
  predicate HasBlue(ch: Channel) { ch == Blue || ch == Cyan || ch == Magenta }

  /** The pixel of the relative mode for the value `sn`. */
  function RelativePixel(ch: Channel, sn: real): Pixel
  {
    match ch
    case Red => FromF64(sn, 0.0, 0.0)
    case Yellow => FromF64(sn, sn, 0.0)
    case Green => FromF64(0.0, sn, 0.0)
    case Cyan => FromF64(0.0, sn, sn)
    case Blue => FromF64(0.0, 0.0, sn)
    case Magenta => FromF64(sn, 0.0, sn)
    case All => FromF64(sn, sn - 255.0, sn - 2.0 * 255.0)
  }

  /** The divisions the colouriser performs are by nonzero numbers: `precision` in the
      relative modes, `lightness * 10` in the dim branch of the HSL modes. */
  predicate Colourable(iterations: Option<Iterations>, options: Options)
  {
    iterations.Some? ==>
      match options.colorization
      case Relative => options.precision != 0
      case RelativeBnW => options.precision != 0
      case AbsoluteHSL => iterations.value.n > options.lightness * 10.0 || options.lightness != 0.0
      case AbsoluteLogHSL => iterations.value.n > options.lightness * 10.0 || options.lightness != 0.0
  }

  /** `get_pixel_for_iteration`. */
  function GetPixelForIteration(iterations: Option<Iterations>, options: Options, backend: HslBackend): (p: Pixel)
    requires Colourable(iterations, options)
    ensures p.a == 255
    ensures iterations.None? ==> p == Black()
  {
    match iterations
    case None => Black()
    case Some(it) =>
      var n := it.n;
      var channel := it.channel;
      var precision := options.precision as real;
      var lightness := options.lightness;
      match options.colorization
      case Relative =>
        var sn := if channel == All then 3.0 * 255.0 * n / precision * lightness
                  else 255.0 * (1.0 - n / precision) * lightness;
        RelativePixel(channel, sn)
      case RelativeBnW =>
        var channelInc := 255.0 / 6.0;
        var sn := if channel == All then 255.0 * n / precision * lightness
                  else channelInc * (1.0 - n / precision) * lightness;
        var delta := ChannelDelta(channel);
        FromF64(sn + delta, sn + delta, sn + delta)
      case AbsoluteHSL =>
        var hue := InitialHue(channel);
        if n > lightness * 10.0 then FromColor(backend.newHsl(hue + (n - lightness * 10.0), 1.0, 0.5))
        else FromColor(backend.newHsl(hue, 1.0, 0.5 * n / (lightness * 10.0)))
      case AbsoluteLogHSL =>
        var hue := InitialHue(channel);
        if n > lightness * 10.0 then
          FromColor(backend.newHsl(hue + backend.ln(1.0 + n - lightness * 10.0) * 10.0, 1.0, 0.5))
        else FromColor(backend.newHsl(hue, 1.0, 0.5 * n / (lightness * 10.0)))
  }

  /** No result is opaque black (0, 0, 0, 255) in every mode, and every result is
      opaque: a corollary of the contract of `GetPixelForIteration` and of `Black`. */
  lemma NoResultIsBlack(iterations: Option<Iterations>, options: Options, backend: HslBackend)
    requires Colourable(iterations, options)
    ensures iterations.None? ==> GetPixelForIteration(iterations, options, backend) == Pixel(0, 0, 0, 255)
    ensures GetPixelForIteration(iterations, options, backend).a == 255
  {
  }

  /** Relative mode, channel `All`: a count of 0 is black, and a full count at
      lightness 1 is white. */
  lemma RelativeAllEnds(options: Options, backend: HslBackend)
    requires options.colorization == Relative && options.precision >= 1
    ensures GetPixelForIteration(Some(Iterations(0.0, All)), options, backend) == Pixel(0, 0, 0, 255)
    ensures options.lightness == 1.0 ==>
      GetPixelForIteration(Some(Iterations(options.precision as real, All)), options, backend)
        == Pixel(255, 255, 255, 255)
  {
    var p := options.precision as real;
    assert 3.0 * 255.0 * 0.0 / p * options.lightness == 0.0;
    if options.lightness == 1.0 {
      assert 3.0 * 255.0 * p / p * 1.0 == 765.0;
    }
  }

  /** Relative mode, channel `All`: the value fills red, then green, then blue, each
      band 255 wide, so r >= g >= b and a channel is lit only once the previous one
      is full. */
  lemma RelativeAllBands(n: real, options: Options, backend: HslBackend)
    requires options.colorization == Relative && options.precision >= 1
    ensures var p := GetPixelForIteration(Some(Iterations(n, All)), options, backend);
      p.r >= p.g >= p.b && (p.g > 0 ==> p.r == 255) && (p.b > 0 ==> p.g == 255)
  {
    var sn := 3.0 * 255.0 * n / (options.precision as real) * options.lightness;
    assert GetPixelForIteration(Some(Iterations(n, All)), options, backend)
        == FromF64(sn, sn - 255.0, sn - 2.0 * 255.0);
    QuantizeMonotone(sn - 255.0, sn);
    QuantizeMonotone(sn - 2.0 * 255.0, sn - 255.0);
    LitMeansFull(sn);
    LitMeansFull(sn - 255.0);
  }

  /** If v - 255 rounds above 0 then v rounds to 255. */
  lemma LitMeansFull(v: real)
    ensures Quantize(v - 255.0) > 0 ==> Quantize(v) == 255
  {
    if Quantize(v - 255.0) > 0 {
      assert v - 255.0 > 0.0;
    }
  }

  /** Relative mode, a colour channel: the components the channel is made of carry
      255 · (1 - n / precision) · lightness and the others are 0. */
  lemma RelativeChannelMask(n: real, ch: Channel, options: Options, backend: HslBackend)
    requires options.colorization == Relative && options.precision >= 1 && ch != All
    ensures var sn := 255.0 * (1.0 - n / options.precision as real) * options.lightness;
      var p := GetPixelForIteration(Some(Iterations(n, ch)), options, backend);
      p.r == (if HasRed(ch) then Quantize(sn) else 0) &&
      p.g == (if HasGreen(ch) then Quantize(sn) else 0) &&
      p.b == (if HasBlue(ch) then Quantize(sn) else 0) &&
      p.a == 255
  {
    var sn := 255.0 * (1.0 - n / options.precision as real) * options.lightness;
    assert GetPixelForIteration(Some(Iterations(n, ch)), options, backend) == RelativePixel(ch, sn);
    assert Quantize(0.0) == 0;
  }

  /** Black-and-white mode: the pixel is grey, offset along the wheel by the
      channel's position times 255/6. */
  lemma BnWGrey(n: real, ch: Channel, options: Options, backend: HslBackend)
    requires options.colorization == RelativeBnW && options.precision >= 1
    ensures var sn := if ch == All then 255.0 * n / options.precision as real * options.lightness
                      else 255.0 / 6.0 * (1.0 - n / options.precision as real) * options.lightness;
      var p := GetPixelForIteration(Some(Iterations(n, ch)), options, backend);
      p.r == p.g == p.b == Quantize(sn + WheelPosition(ch) as real * (255.0 / 6.0)) && p.a == 255
  {
    var sn := if ch == All then 255.0 * n / options.precision as real * options.lightness
              else 255.0 / 6.0 * (1.0 - n / options.precision as real) * options.lightness;
    var x := sn + ChannelDelta(ch);
    assert GetPixelForIteration(Some(Iterations(n, ch)), options, backend) == FromF64(x, x, x);
    TablesFollowWheel(ch);
  }

  /** HSL modes: above `lightness * 10` iterations the hue turns (linearly, or
      logarithmically) from the channel's initial hue at full lightness 0.5; below it,
      the hue is the initial hue and the lightness grows in proportion to the count. */
  lemma HslBranches(n: real, ch: Channel, options: Options, backend: HslBackend)
    requires options.colorization == AbsoluteHSL || options.colorization == AbsoluteLogHSL
    requires Colourable(Some(Iterations(n, ch)), options)
    ensures var p := GetPixelForIteration(Some(Iterations(n, ch)), options, backend);
      var l := options.lightness * 10.0;
      var turn := if options.colorization == AbsoluteHSL then n - l else backend.ln(1.0 + n - l) * 10.0;
      (n > l ==> p == FromColor(backend.newHsl(WheelPosition(ch) as real * 60.0 + turn, 1.0, 0.5))) &&
      (n <= l ==> p == FromColor(backend.newHsl(WheelPosition(ch) as real * 60.0, 1.0, 0.5 * n / l)))
  {
    TablesFollowWheel(ch);
  }

  /** `get_pixel_at_point`: the colour of the iteration result at a point. */
  method GetPixelAtPoint(f: Fractal, point: Points.Point, options: Options, sm: Smoothing, backend: HslBackend)
    returns (p: Pixel)
    requires Colourable(IterationsAt(f, point, options, sm), options)
    ensures p == GetPixelForIteration(IterationsAt(f, point, options, sm), options, backend)
  {
    var iterations := GetIterationsAtPoint(f, point, options, sm);
    ResultNeedsPrecision(f, point, options, sm);
    p := GetPixelForIteration(iterations, options, backend);
  }
}
