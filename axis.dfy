/** `numpy.linspace(a, b, n)` over exact reals: the frequency axes both drivers build. */
module Axis {
  function Linspace(a: real, b: real, n: nat): (xs: seq<real>)
    ensures |xs| == n
  {
    seq(n, i requires 0 <= i < n =>
      if n == 1 then a else a + (i as real) * (b - a) / ((n - 1) as real))
  }

  /** With at least two points the axis starts at a and ends at b; one point is just a. */
  lemma LinspaceEnds(a: real, b: real, n: nat)
    ensures n == 1 ==> Linspace(a, b, n) == [a]
    ensures n >= 2 ==> Linspace(a, b, n)[0] == a && Linspace(a, b, n)[n - 1] == b
  {
    if n >= 2 {
      var m := (n - 1) as real;
      assert (m * (b - a)) / m == b - a;
    }
  }

  /** For a <= b the axis never decreases. */
  lemma LinspaceMonotone(a: real, b: real, n: nat, i: nat, j: nat)
    requires a <= b && i <= j < n
    ensures Linspace(a, b, n)[i] <= Linspace(a, b, n)[j]
  {
    if n > 1 {
      var m := (n - 1) as real;
      var d := b - a;
      assert (i as real) * d <= (j as real) * d by {
        assert (j as real) * d - (i as real) * d == ((j - i) as real) * d;
      }
      DivMonotone((i as real) * d, (j as real) * d, m);
    }
  }

  lemma DivMonotone(x: real, y: real, m: real)
    requires x <= y && m > 0.0
    ensures x / m <= y / m
  {
    assert (x / m) * m == x && (y / m) * m == y;
  }

  /** All points lie between a and b. */
  lemma LinspaceBounds(a: real, b: real, n: nat, i: nat)
    requires a <= b && i < n
    ensures a <= Linspace(a, b, n)[i] <= b
  {
    LinspaceEnds(a, b, n);
    LinspaceMonotone(a, b, n, 0, i);
    LinspaceMonotone(a, b, n, i, n - 1);
  }
}
