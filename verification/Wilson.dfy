/** The Wilson score interval of the end-to-end report (scripts/e2e/stats.ts), over exact reals. The square
    root enters as a number `s` with `s >= 0` and `s * s` equal to the radicand. */
module Wilson {

  datatype Interval = Interval(lo: real, hi: real)

  function Radicand(k: int, n: int, z: real): real
    requires n > 0
  {
    var p, m := k as real / n as real, n as real;
    p * (1.0 - p) / m + z * z / (4.0 * m * m)
  }

  predicate IsRoot(s: real, k: int, n: int, z: real) {
    n > 0 ==> s >= 0.0 && s * s == Radicand(k, n, z)
  }

  /** The interval before its ends are clamped to [0, 1]. */
  function Unclamped(k: int, n: int, z: real, s: real): Interval
    requires n > 0
  {
    var p, m := k as real / n as real, n as real;
    var z2 := z * z;
    var denom := 1.0 + z2 / m;
    var centre := (p + z2 / (2.0 * m)) / denom;
    var half := z * s / denom;
    Interval(centre - half, centre + half)
  }

  function MaxReal(a: real, b: real): real {
    if a < b then b else a
  }

  function MinReal(a: real, b: real): real {
    if a < b then a else b
  }

  function WilsonInterval(k: int, n: int, z: real, s: real): Interval {
    if n <= 0 then Interval(0.0, 1.0)
    else
      var u := Unclamped(k, n, z, s);
      Interval(MaxReal(0.0, u.lo), MinReal(1.0, u.hi))
  }

  /** What the interval is for: the rates `x` that lie within `z` standard errors of the observed rate. */
  predicate Plausible(x: real, k: int, n: int, z: real)
    requires n > 0
  {
    var p, m := k as real / n as real, n as real;
    m * (x - p) * (x - p) <= z * z * x * (1.0 - x)
  }

  // ------------------------------------------------------------ the algebra, on plain reals

  /** With `a = z*z/m`, the ends `c - h` and `c + h` are the roots of `(x-p)^2 = a*x*(1-x)`. */
  lemma Quadratic(x: real, p: real, a: real, d: real, c: real, h: real)
    requires d == 1.0 + a && d > 0.0
    requires c * d == p + a / 2.0
    requires (h * d) * (h * d) == a * p * (1.0 - p) + a * a / 4.0
    ensures d * ((x - c) * (x - c) - h * h) == (x - p) * (x - p) - a * x * (1.0 - x)
  {
    var cd := c * d;
    assert cd * cd - (h * d) * (h * d) == d * p * p by {
      assert cd * cd == p * p + a * p + a * a / 4.0;
    }
    assert d * (d * (c * c - h * h)) == cd * cd - (h * d) * (h * d);
    Cancel(d, d * (c * c - h * h), p * p);
    calc {
      d * ((x - c) * (x - c) - h * h);
      d * x * x - 2.0 * x * (c * d) + d * (c * c - h * h);
      d * x * x - 2.0 * x * (p + a / 2.0) + p * p;
      (x - p) * (x - p) - a * x * (1.0 - x);
    }
  }

  lemma Cancel(d: real, u: real, v: real)
    requires d > 0.0 && d * u == d * v
    ensures u == v
  {
  }

  lemma Within(y: real, h: real)
    requires h >= 0.0
    ensures y * y <= h * h <==> -h <= y <= h
  {
    if y > h {
      assert y * y > h * h;
    } else if y < -h {
      assert (-y) * (-y) > h * h;
    } else if y >= 0.0 {
      assert y * y <= h * y <= h * h;
    } else {
      assert (-y) * (-y) <= h * (-y) <= h * h;
    }
  }

  lemma SignOfProduct(d: real, u: real)
    requires d > 0.0
    ensures d * u <= 0.0 <==> u <= 0.0
  {
  }

  // ------------------------------------------------------------ what the interval means

  /** The unclamped interval is exactly the set of plausible rates. */
  lemma IntervalIsPlausibleSet(k: int, n: int, z: real, s: real, x: real)
    requires n > 0 && z > 0.0 && IsRoot(s, k, n, z)
    ensures Unclamped(k, n, z, s).lo <= x <= Unclamped(k, n, z, s).hi <==> Plausible(x, k, n, z)
  {
    var p, m := k as real / n as real, n as real;
    var z2, zs := z * z, z * s;
    var a := z2 / m;
    var d := 1.0 + a;
    var u := p + z2 / (2.0 * m);
    var c, h := u / d, zs / d;
    Positive(a, m, z);
    HalfWidth(p, m, z, s, a);
    Divided(u, d, c);
    Divided(zs, d, h);
    NotNegative(z, s);
    NotNegativeQuotient(zs, d, h);
    assert h * d == zs && c * d == p + a / 2.0;
    assert (h * d) * (h * d) == a * p * (1.0 - p) + a * a / 4.0;
    BetweenTheRoots(x, p, a, m, z, d, c, h);
    assert Unclamped(k, n, z, s) == Interval(c - h, c + h);
  }

  lemma BetweenTheRoots(x: real, p: real, a: real, m: real, z: real, d: real, c: real, h: real)
    requires m > 0.0 && a * m == z * z && d == 1.0 + a && d > 0.0 && h >= 0.0
    requires c * d == p + a / 2.0
    requires (h * d) * (h * d) == a * p * (1.0 - p) + a * a / 4.0
    ensures c - h <= x <= c + h <==> m * (x - p) * (x - p) <= z * z * x * (1.0 - x)
  {
    Quadratic(x, p, a, d, c, h);
    SignOfProduct(d, (x - c) * (x - c) - h * h);
    Within(x - c, h);
    Scale(x, p, a, m, z);
  }

  lemma Divided(u: real, d: real, q: real)
    requires d > 0.0 && q == u / d
    ensures q * d == u
  {
  }

  lemma NotNegative(u: real, v: real)
    requires u >= 0.0 && v >= 0.0
    ensures u * v >= 0.0
  {
  }

  lemma Negative(u: real, v: real)
    requires u < 0.0 && v > 0.0
    ensures u * v < 0.0
  {
  }

  lemma NotNegativeQuotient(u: real, d: real, q: real)
    requires u >= 0.0 && d > 0.0 && q == u / d
    ensures q >= 0.0
  {
    Divided(u, d, q);
    if q < 0.0 {
      Negative(q, d);
    }
  }

  lemma HalfWidth(p: real, m: real, z: real, s: real, a: real)
    requires m > 0.0 && a == z * z / m && s * s == p * (1.0 - p) / m + z * z / (4.0 * m * m)
    ensures (z * s) * (z * s) == a * p * (1.0 - p) + a * a / 4.0
    ensures z * z / (2.0 * m) == a / 2.0
  {
    assert a * m == z * z;
    var q := p * (1.0 - p);
    assert q / m * m == q;
    calc {
      (z * s) * (z * s);
      (z * z) * (s * s);
      (a * m) * (q / m + (a * m) / (4.0 * m * m));
      a * (m * (q / m)) + a * m * ((a * m) / (4.0 * m * m));
      { QuarterSquare(a, m); }
      a * q + a * a / 4.0;
    }
  }

  lemma QuarterSquare(a: real, m: real)
    requires m > 0.0
    ensures a * m * ((a * m) / (4.0 * m * m)) == a * a / 4.0
  {
    var f := (a * m) / (4.0 * m * m);
    assert f * (4.0 * m * m) == a * m;
    assert m * (f * 4.0 * m) == m * a;
    Cancel(m, f * 4.0 * m, a);
  }

  lemma Scale(x: real, p: real, a: real, m: real, z: real)
    requires m > 0.0 && a * m == z * z
    ensures (x - p) * (x - p) - a * x * (1.0 - x) <= 0.0
            <==> m * (x - p) * (x - p) <= z * z * x * (1.0 - x)
  {
    var u := (x - p) * (x - p) - a * x * (1.0 - x);
    assert m * u == m * (x - p) * (x - p) - z * z * x * (1.0 - x);
    SignOfProduct(m, u);
  }

  lemma Positive(a: real, m: real, z: real)
    requires m > 0.0 && z > 0.0 && a == z * z / m
    ensures a > 0.0 && a * m == z * z
  {
    var z2 := z * z;
    Divided(z2, m, a);
    PositiveProduct(z, z, z2);
    PositiveFactor(a, m, z2);
  }

  lemma PositiveProduct(u: real, v: real, w: real)
    requires u > 0.0 && v > 0.0 && w == u * v
    ensures w > 0.0
  {
  }

  lemma PositiveFactor(u: real, v: real, w: real)
    requires v > 0.0 && w > 0.0 && u * v == w
    ensures u > 0.0
  {
    if u < 0.0 {
      Negative(u, v);
    }
  }

  lemma EndsArePlausible(k: int, n: int, z: real, s: real)
    requires n > 0 && z > 0.0 && IsRoot(s, k, n, z)
    ensures
      var u := Unclamped(k, n, z, s);
      u.lo <= u.hi && Plausible(u.lo, k, n, z) && Plausible(u.hi, k, n, z)
  {
    var u := Unclamped(k, n, z, s);
    var a := z * z / n as real;
    Positive(a, n as real, z);
    NotNegative(z, s);
    NotNegativeQuotient(z * s, 1.0 + a, z * s / (1.0 + a));
    IntervalIsPlausibleSet(k, n, z, s, u.lo);
    IntervalIsPlausibleSet(k, n, z, s, u.hi);
  }

  lemma PlausibleIsRate(x: real, k: int, n: int, z: real)
    requires n > 0 && z > 0.0 && Plausible(x, k, n, z)
    ensures 0.0 <= x <= 1.0
  {
    var p, m := k as real / n as real, n as real;
    Square(x - p);
    NotNegative(m, (x - p) * (x - p));
    var z2, v := z * z, x * (1.0 - x);
    assert z2 * v == z * z * x * (1.0 - x) >= 0.0 by {
      assert m * ((x - p) * (x - p)) == m * (x - p) * (x - p);
    }
    PositiveProduct(z, z, z2);
    if v < 0.0 {
      Negative(v, z2);
    }
    if x < 0.0 {
      Negative(x, 1.0 - x);
    } else if x > 1.0 {
      Negative(1.0 - x, x);
    }
  }

  lemma Square(y: real)
    ensures y * y >= 0.0
  {
  }

  lemma Rate(k: int, n: int, p: real)
    requires n > 0 && 0 <= k <= n && p == k as real / n as real
    ensures 0.0 <= p <= 1.0 && p * (1.0 - p) >= 0.0
  {
    var m := n as real;
    Divided(k as real, m, p);
    if p < 0.0 {
      Negative(p, m);
    } else if p > 1.0 {
      Negative(1.0 - p, m);
    }
    NotNegative(p, 1.0 - p);
  }

  /** For any outcome the clamping is idle: the ends are rates already, and the observed rate lies between. */
  lemma IntervalHoldsObservedRate(k: int, n: int, z: real, s: real)
    requires n > 0 && 0 <= k <= n && z > 0.0 && IsRoot(s, k, n, z)
    ensures
      var u := Unclamped(k, n, z, s);
      && 0.0 <= u.lo <= k as real / n as real <= u.hi <= 1.0
      && WilsonInterval(k, n, z, s) == u
  {
    var p, u := k as real / n as real, Unclamped(k, n, z, s);
    EndsArePlausible(k, n, z, s);
    PlausibleIsRate(u.lo, k, n, z);
    PlausibleIsRate(u.hi, k, n, z);
    Rate(k, n, p);
    Square(z);
    NotNegative(z * z, p * (1.0 - p));
    assert z * z * (p * (1.0 - p)) == z * z * p * (1.0 - p);
    assert Plausible(p, k, n, z);
    IntervalIsPlausibleSet(k, n, z, s, p);
  }

  lemma Complement(k: int, n: int)
    requires n > 0
    ensures (n - k) as real / n as real == 1.0 - k as real / n as real
  {
    assert k as real + (n - k) as real == n as real;
    SharesOfOne(k as real, (n - k) as real, n as real);
  }

  lemma SharesOfOne(u: real, v: real, m: real)
    requires m > 0.0 && u + v == m
    ensures v / m == 1.0 - u / m
  {
    var p, q := u / m, v / m;
    assert q * m == v && p * m == u;
    Cancel(m, q, 1.0 - p);
  }

  lemma MirrorPlausible(x: real, k: int, n: int, z: real)
    requires n > 0
    ensures Plausible(x, k, n, z) <==> Plausible(1.0 - x, n - k, n, z)
  {
    var p, q, m := k as real / n as real, (n - k) as real / n as real, n as real;
    Complement(k, n);
    assert (1.0 - x - q) == -(x - p);
    assert m * (1.0 - x - q) * (1.0 - x - q) == m * (x - p) * (x - p);
    assert z * z * (1.0 - x) * (1.0 - (1.0 - x)) == z * z * x * (1.0 - x);
  }

  /** Counting failures instead of passes mirrors the interval. */
  lemma IntervalMirrors(k: int, n: int, z: real, s: real, s': real)
    requires n > 0 && 0 <= k <= n && z > 0.0 && IsRoot(s, k, n, z) && IsRoot(s', n - k, n, z)
    ensures WilsonInterval(k, n, z, s).lo == 1.0 - WilsonInterval(n - k, n, z, s').hi
    ensures WilsonInterval(k, n, z, s).hi == 1.0 - WilsonInterval(n - k, n, z, s').lo
  {
    IntervalHoldsObservedRate(k, n, z, s);
    IntervalHoldsObservedRate(n - k, n, z, s');
    Mirrored(k, n, z, s, s');
    Mirrored(n - k, n, z, s', s);
  }

  lemma Mirrored(k: int, n: int, z: real, s: real, s': real)
    requires n > 0 && z > 0.0 && IsRoot(s, k, n, z) && IsRoot(s', n - k, n, z)
    ensures Unclamped(k, n, z, s).lo == 1.0 - Unclamped(n - k, n, z, s').hi
  {
    var lo, hi := Unclamped(k, n, z, s).lo, Unclamped(n - k, n, z, s').hi;
    EndsArePlausible(k, n, z, s);
    EndsArePlausible(n - k, n, z, s');
    MirrorPlausible(lo, k, n, z);
    IntervalIsPlausibleSet(n - k, n, z, s', 1.0 - lo);
    MirrorPlausible(hi, n - k, n, z);
    assert n - (n - k) == k;
    IntervalIsPlausibleSet(k, n, z, s, 1.0 - hi);
  }

  /** A rate beyond the larger of two observed rates that is plausible for the smaller is so for the larger. */
  lemma PlausibleForNearer(x: real, k: int, j: int, n: int, z: real)
    requires n > 0 && Plausible(x, k, n, z)
    requires k <= j && j as real / n as real <= x
    ensures Plausible(x, j, n, z)
  {
    var p, q, m := k as real / n as real, j as real / n as real, n as real;
    Divided(k as real, m, p);
    Divided(j as real, m, q);
    if q < p {
      Negative(q - p, m);
    }
    Closer(x - q, x - p);
    NotNegative(m, (x - p) * (x - p) - (x - q) * (x - q));
  }

  lemma Closer(a: real, b: real)
    requires 0.0 <= a <= b
    ensures a * a <= b * b
  {
    assert a * a <= a * b <= b * b;
  }

  lemma UpperEndRises(k: int, j: int, n: int, z: real, s: real, s': real)
    requires n > 0 && 0 <= k <= j <= n && z > 0.0 && IsRoot(s, k, n, z) && IsRoot(s', j, n, z)
    ensures WilsonInterval(k, n, z, s).hi <= WilsonInterval(j, n, z, s').hi
  {
    IntervalHoldsObservedRate(k, n, z, s);
    IntervalHoldsObservedRate(j, n, z, s');
    var x := Unclamped(k, n, z, s).hi;
    if x >= j as real / n as real {
      EndsArePlausible(k, n, z, s);
      PlausibleForNearer(x, k, j, n, z);
      IntervalIsPlausibleSet(j, n, z, s', x);
    }
  }

  /** More passes move both ends up. */
  lemma IntervalIsMonotone(k: int, j: int, n: int, z: real, s: real, s': real)
    requires n > 0 && 0 <= k <= j <= n && z > 0.0 && IsRoot(s, k, n, z) && IsRoot(s', j, n, z)
    ensures WilsonInterval(k, n, z, s).hi <= WilsonInterval(j, n, z, s').hi
    ensures WilsonInterval(k, n, z, s).lo <= WilsonInterval(j, n, z, s').lo
  {
    UpperEndRises(k, j, n, z, s, s');
    MirrorRoot(k, n, z, s);
    MirrorRoot(j, n, z, s');
    UpperEndRises(n - j, n - k, n, z, s', s);
    IntervalMirrors(k, n, z, s, s);
    IntervalMirrors(j, n, z, s', s');
  }

  lemma MirrorRoot(k: int, n: int, z: real, s: real)
    requires n > 0 && IsRoot(s, k, n, z)
    ensures IsRoot(s, n - k, n, z)
  {
    var p, q := k as real / n as real, (n - k) as real / n as real;
    Complement(k, n);
    assert q * (1.0 - q) == p * (1.0 - p);
  }
}
