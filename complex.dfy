/**
 * Exact complex arithmetic over `real`, standing in for Python's `complex`.
 * Division is defined only by a non-zero divisor; the driver guards that itself.
 */
module ComplexArith {
  datatype Complex = Complex(re: real, im: real)

  const Zero: Complex := Complex(0.0, 0.0)
  const One: Complex := Complex(1.0, 0.0)

  /** 1e-6, the magnitude below which the driver refuses to divide by the reference. */
  const Epsilon: real := 0.000001

  function Mul(a: Complex, b: Complex): Complex
  {
    Complex(a.re * b.re - a.im * b.im, a.re * b.im + a.im * b.re)
  }

  function NormSq(c: Complex): real
  {
    c.re * c.re + c.im * c.im
  }

  /** `abs(c) > eps` for eps >= 0, stated without a square root: |c|^2 > eps^2. */
  predicate AbsAbove(c: Complex, eps: real)
    requires eps >= 0.0
  {
    NormSq(c) > eps * eps
  }

  /** `n / d` as Python computes it for complex operands: the unique q with q * d == n. */
  function Div(n: Complex, d: Complex): (q: Complex)
    requires NormSq(d) > 0.0
    ensures Mul(q, d) == n
  {
    var m := NormSq(d);
    var q := Complex((n.re * d.re + n.im * d.im) / m, (n.im * d.re - n.re * d.im) / m);
    DivTimesDivisor(n, d, q, m);
    q
  }

  lemma DivTimesDivisor(n: Complex, d: Complex, q: Complex, m: real)
    requires m == NormSq(d) && m > 0.0
    requires q.re * m == n.re * d.re + n.im * d.im
    requires q.im * m == n.im * d.re - n.re * d.im
    ensures Mul(q, d) == n
  {
    var p := Mul(q, d);
    calc {
      p.re * m;
      (q.re * d.re - q.im * d.im) * m;
      (q.re * m) * d.re - (q.im * m) * d.im;
      (n.re * d.re + n.im * d.im) * d.re - (n.im * d.re - n.re * d.im) * d.im;
      n.re * m;
    }
    calc {
      p.im * m;
      (q.re * d.im + q.im * d.re) * m;
      (q.re * m) * d.im + (q.im * m) * d.re;
      (n.re * d.re + n.im * d.im) * d.im + (n.im * d.re - n.re * d.im) * d.re;
      n.im * m;
    }
  }

  /** The quotient is unique: any q with q * d == n is n / d. */
  lemma DivUnique(n: Complex, d: Complex, q: Complex)
    requires NormSq(d) > 0.0 && Mul(q, d) == n
    ensures q == Div(n, d)
  {
    var r := Div(n, d);
    var e := Complex(q.re - r.re, q.im - r.im);
    assert Mul(e, d) == Zero;
    // e * d == 0 with d != 0 forces e == 0: multiply by the conjugate of d.
    assert e.re * NormSq(d) == (e.re * d.re - e.im * d.im) * d.re + (e.re * d.im + e.im * d.re) * d.im;
    assert e.im * NormSq(d) == (e.re * d.im + e.im * d.re) * d.re - (e.re * d.re - e.im * d.im) * d.im;
  }

  /**
   * For a reference with integer components, the guard `abs(ref) > 1e-6` holds
   * exactly when the reference is not 0+0i.
   */
  lemma GuardOnIntegers(a: int, b: int)
    ensures AbsAbove(Complex(a as real, b as real), Epsilon) <==> (a != 0 || b != 0)
  {
    var c := Complex(a as real, b as real);
    assert NormSq(c) == (a * a + b * b) as real;
    if a != 0 || b != 0 {
      assert a * a + b * b >= 1 by {
        if a != 0 { assert a * a >= 1; } else { assert b * b >= 1; }
        assert a * a >= 0 && b * b >= 0;
      }
    }
  }
}
