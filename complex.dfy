/** The part of the `num_complex` crate (`Complex64`) that the fractal loops use,
    over exact reals. An arithmetic result that would be NaN in `f64` is `None`:
    `num_complex` divides by an exact zero into NaN + NaN·i, and NaN then stays NaN. */
module Complexes {
  import opened Wrappers

  datatype Complex = Complex(re: real, im: real)

  const Zero := Complex(0.0, 0.0)
  const One := Complex(1.0, 0.0)

  function Add(a: Complex, b: Complex): Complex { Complex(a.re + b.re, a.im + b.im) }

  function Sub(a: Complex, b: Complex): Complex { Complex(a.re - b.re, a.im - b.im) }

  function Mul(a: Complex, b: Complex): Complex
  {
    Complex(a.re * b.re - a.im * b.im, a.re * b.im + a.im * b.re)
  }

  function Conj(z: Complex): Complex { Complex(z.re, -z.im) }

  /** `norm_sqr`: |z|² = re² + im². */
  function NormSqr(z: Complex): real
  {
    z.re * z.re + z.im * z.im
  }

  /** Division as `num_complex` computes it: (a · conj(b)) / |b|², which is NaN (here
      `None`) exactly when |b|² is zero. */
  function Div(a: Complex, b: Complex): Option<Complex>
  {
    var n := NormSqr(b);
    if n == 0.0 then None
    else Some(Complex((a.re * b.re + a.im * b.im) / n, (a.im * b.re - a.re * b.im) / n))
  }

  /** Division undoes multiplication: (a / b) · b = a whenever b has a nonzero norm. */
  lemma {:induction false} DivTimesDivisor(a: Complex, b: Complex)
    requires NormSqr(b) != 0.0
    ensures Div(a, b).Some? && Mul(Div(a, b).value, b) == a
  {
    var n := NormSqr(b);
    var x := (a.re * b.re + a.im * b.im) / n;
    var y := (a.im * b.re - a.re * b.im) / n;
    assert x * n == a.re * b.re + a.im * b.im;
    assert y * n == a.im * b.re - a.re * b.im;
    calc {
      (x * b.re - y * b.im) * n;
      (x * n) * b.re - (y * n) * b.im;
      (a.re * b.re + a.im * b.im) * b.re - (a.im * b.re - a.re * b.im) * b.im;
      a.re * n;
    }
    calc {
      (x * b.im + y * b.re) * n;
      (x * n) * b.im + (y * n) * b.re;
      (a.re * b.re + a.im * b.im) * b.im + (a.im * b.re - a.re * b.im) * b.re;
      a.im * n;
    }
  }

  /** z^n for a natural exponent: z multiplied by itself n times. `num_traits::pow`
      computes it by repeated squaring (`Pow` below), which over the reals gives the
      same value. */
  function PowNat(z: Complex, n: nat): Complex
    decreases n
  {
    if n == 0 then One else Mul(z, PowNat(z, n - 1))
  }

  lemma MulOne(a: Complex)
    ensures Mul(a, One) == a && Mul(One, a) == a
  {
  }

  lemma MulComm(a: Complex, b: Complex)
    ensures Mul(a, b) == Mul(b, a)
  {
  }

  lemma MulAssoc(a: Complex, b: Complex, c: Complex)
    ensures Mul(Mul(a, b), c) == Mul(a, Mul(b, c))
  {
    assert (a.re * b.re - a.im * b.im) * c.re - (a.re * b.im + a.im * b.re) * c.im
        == a.re * (b.re * c.re - b.im * c.im) - a.im * (b.re * c.im + b.im * c.re);
    assert (a.re * b.re - a.im * b.im) * c.im + (a.re * b.im + a.im * b.re) * c.re
        == a.re * (b.re * c.im + b.im * c.re) + a.im * (b.re * c.re - b.im * c.im);
  }

  lemma PowNatOneStep(z: Complex)
    ensures PowNat(z, 1) == z
  {
    MulOne(z);
  }

  /** z^(m + n) = z^m · z^n. */
  lemma {:induction false} PowNatAdd(z: Complex, m: nat, n: nat)
    ensures PowNat(z, m + n) == Mul(PowNat(z, m), PowNat(z, n))
    decreases m
  {
    if m == 0 {
      MulOne(PowNat(z, n));
    } else {
      PowNatAdd(z, m - 1, n);
      MulAssoc(z, PowNat(z, m - 1), PowNat(z, n));
    }
  }

  /** (z²)^k = z^(2k): squaring the base halves the exponent. */
  lemma {:induction false} PowNatOfSquare(z: Complex, k: nat)
    ensures PowNat(Mul(z, z), k) == PowNat(z, 2 * k)
    decreases k
  {
    if k > 0 {
      PowNatOfSquare(z, k - 1);
      PowNatAdd(z, 2, 2 * (k - 1));
      PowNatTwo(z);
    }
  }

  /** (a·b)^n = a^n · b^n. */
  lemma {:induction false} PowNatOfProduct(a: Complex, b: Complex, n: nat)
    ensures PowNat(Mul(a, b), n) == Mul(PowNat(a, n), PowNat(b, n))
    decreases n
  {
    if n == 0 {
      OneSquared();
    } else {
      var an := PowNat(a, n - 1);
      var bn := PowNat(b, n - 1);
      PowNatOfProduct(a, b, n - 1);
      calc {
        PowNat(Mul(a, b), n);
        Mul(Mul(a, b), Mul(an, bn));
        { MulAssoc(a, b, Mul(an, bn)); }
        Mul(a, Mul(b, Mul(an, bn)));
        { MulAssoc(b, an, bn); MulComm(b, an); MulAssoc(an, b, bn); }
        Mul(a, Mul(an, Mul(b, bn)));
        { MulAssoc(a, an, Mul(b, bn)); }
        Mul(PowNat(a, n), PowNat(b, n));
      }
    }
  }

  lemma OneSquared()
    ensures Mul(One, One) == One
  {
  }

  /** Every positive power of an idempotent u (u·u = u) is u. */
  lemma {:induction false} PowNatIdempotent(u: Complex, n: nat)
    requires Mul(u, One) == u && Mul(u, u) == u && n >= 1
    ensures PowNat(u, n) == u
    decreases n
  {
    if n > 1 {
      PowNatIdempotent(u, n - 1);
    }
  }

  /** `num_traits::pow`: square the base while the exponent is even; then keep the base
      in an accumulator and, for each further bit of the exponent, square the base and
      multiply it in when the bit is set. The result is z multiplied by itself n times. */
  method Pow(z: Complex, n: nat) returns (r: Complex)
    ensures r == PowNat(z, n)
  {
    if n == 0 {
      return One;
    }
    var base := z;
    var exp := n;
    while exp % 2 == 0
      invariant exp >= 1 && PowNat(base, exp) == PowNat(z, n)
      decreases exp
    {
      PowNatOfSquare(base, exp / 2);
      base := Mul(base, base);
      exp := exp / 2;
    }
    PowNatOneStep(base);
    if exp == 1 {
      return base;
    }
    var acc := base;
    PowNatAdd(base, 1, exp - 1);
    while exp > 1
      invariant exp >= 1 && Mul(acc, PowNat(base, exp / 2 * 2)) == PowNat(z, n)
      decreases exp
    {
      var half := exp / 2;
      PowNatOfSquare(base, half);
      base := Mul(base, base);
      exp := half;
      if exp % 2 == 1 {
        PowNatAdd(base, 1, exp / 2 * 2);
        PowNatOneStep(base);
        MulAssoc(acc, base, PowNat(base, exp / 2 * 2));
        acc := Mul(acc, base);
      }
    }
    MulOne(acc);
    r := acc;
  }

  /** `powi` with an `i32` exponent: a negative exponent raises the inverse 1/z, which
      is NaN at zero. */
  function Powi(z: Complex, n: int): (r: Option<Complex>)
    ensures r.None? <==> n < 0 && NormSqr(z) == 0.0
    ensures n >= 0 ==> r == Some(PowNat(z, n))
  {
    if n >= 0 then Some(PowNat(z, n))
    else
      match Div(One, z)
      case None => None
      case Some(inv) => Some(PowNat(inv, -n))
  }

  /** Adding a finite complex number to a possibly-NaN one. */
  function AddTo(w: Option<Complex>, c: Complex): (r: Option<Complex>)
    ensures r.Some? <==> w.Some?
  {
    match w
    case None => None
    case Some(v) => Some(Add(v, c))
  }

  /** A negative power undoes the positive one: z^(−n) · z^n = 1 whenever z ≠ 0, for
      every integer n. */
  lemma {:induction false} PowiInverse(z: Complex, n: int)
    requires NormSqr(z) != 0.0
    ensures Powi(z, n).Some? && Powi(z, -n).Some?
    ensures Mul(Powi(z, -n).value, Powi(z, n).value) == One
  {
    DivTimesDivisor(One, z);
    var inv := Div(One, z).value;
    if n < 0 {
      PowNatInverse(inv, z, -n);
      MulComm(PowNat(inv, -n), PowNat(z, -n));
    } else {
      PowNatInverse(inv, z, n);
    }
  }

  /** If a·b = 1 then a^m · b^m = 1. */
  lemma PowNatInverse(a: Complex, b: Complex, m: nat)
    requires Mul(a, b) == One
    ensures Mul(PowNat(a, m), PowNat(b, m)) == One
  {
    PowNatOfProduct(a, b, m);
    PowNatOfOne(m);
  }

  lemma PowNatOfOne(m: nat)
    ensures PowNat(One, m) == One
  {
    if m >= 1 {
      OneSquared();
      MulOne(One);
      PowNatIdempotent(One, m);
    }
  }

  lemma {:induction false} PowNatTwo(z: Complex)
    ensures PowNat(z, 2) == Mul(z, z)
  {
    assert PowNat(z, 1) == Mul(z, One);
  }
}
