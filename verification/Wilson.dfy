/** The one-sided Wilson bound on an acceptance rate, in whole basis points, and the price it leads to. */
module Wilson {
  const Z: real := 1.645

  /** The spread of the bound, relative to one sample. */
  function Spread(n: nat): (k: real)
    requires n > 0
    ensures k > 0.0
  {
    Z * Z / n as real
  }

  function Rate(accepted: nat, n: nat): (p: real)
    requires 0 < n && accepted <= n
    ensures 0.0 <= p <= 1.0
  {
    accepted as real / n as real
  }

  /** What stands under the root sign in the bound. */
  function Radicand(p: real, n: nat): real
    requires n > 0
  {
    p * (1.0 - p) / n as real + Z * Z / (4.0 * n as real * n as real)
  }

  /** The bound itself, given the root. */
  function Bound(p: real, n: nat, root: real): real
    requires n > 0
  {
    (p + Z * Z / (2.0 * n as real) - Z * root) / (1.0 + Z * Z / n as real)
  }

  /** `w` does not exceed the bound: the same without a root, in terms of the spread. */
  predicate Below(w: real, p: real, k: real) {
    && w * (1.0 + k) <= p + k / 2.0
    && (p - w) * (p - w) >= k * w * (1.0 - w)
  }

  predicate Fits(q: nat, accepted: nat, n: nat)
    requires 0 < n && accepted <= n
  {
    Below(q as real / 10000.0, Rate(accepted, n), Spread(n))
  }

  /** The greatest fitting value up to `q`. */
  function Search(accepted: nat, n: nat, q: nat): (r: nat)
    requires 0 < n && accepted <= n
    ensures r <= q
    ensures r == 0 || Fits(r, accepted, n)
    ensures forall x :: r < x <= q ==> !Fits(x, accepted, n)
    decreases q
  {
    if q == 0 || Fits(q, accepted, n) then q else Search(accepted, n, q - 1)
  }

  /** The lower bound in basis points; it never exceeds the observed rate, so the search starts there. */
  function LowerBound(accepted: nat, n: nat): nat
    requires accepted <= n
  {
    if n == 0 || accepted == 0 then 0 else Search(accepted, n, accepted * 10000 / n)
  }

  // ---------------------------------------------------------------- the rootless form

  /** Whatever lies below the bound lies below the observed rate. */
  lemma BelowTheRate(w: real, p: real, k: real)
    requires 0.0 <= p <= 1.0 && k > 0.0 && Below(w, p, k)
    ensures w <= p
  {
    var d := w - p;
    if d > 0.0 {
      assert d * (1.0 + k) <= k * (0.5 - p) by {
        assert w * (1.0 + k) == p + p * k + d * (1.0 + k);
      }
      Expand(p, k, d);
      assert d * (d * (1.0 + k)) >= k * p * (1.0 - p) + d * (2.0 * (k * (0.5 - p)));
      ProductNonNegative(k * p, 1.0 - p);
      Times(d, 2.0 * (d * (1.0 + k)), 2.0 * (k * (0.5 - p)));
      Positive(d, 1.0 + k);
      Positive(d, d * (1.0 + k));
      assert false;
    }
  }

  lemma Expand(p: real, k: real, d: real)
    requires d * d >= k * (p + d) * (1.0 - (p + d))
    ensures d * (d * (1.0 + k)) >= k * p * (1.0 - p) + d * (2.0 * (k * (0.5 - p)))
  {
    assert k * (p + d) * (1.0 - (p + d)) == k * p * (1.0 - p) + d * (2.0 * (k * (0.5 - p))) - k * (d * d);
    assert d * (d * (1.0 + k)) == d * d + k * (d * d);
  }

  lemma Times(d: real, a: real, b: real)
    requires d > 0.0 && a <= b
    ensures d * a <= d * b
  {
  }

  lemma Positive(a: real, b: real)
    requires a > 0.0 && b > 0.0
    ensures a * b > 0.0
  {
  }

  lemma ProductNonNegative(a: real, b: real)
    requires a >= 0.0 && b >= 0.0
    ensures a * b >= 0.0
  {
  }

  /** The quadratic whose lower root is the bound. */
  function Quadratic(w: real, p: real, k: real): real { (1.0 + k) * (w * w) - (2.0 * p + k) * w + p * p }

  lemma QuadraticIsGap(w: real, p: real, k: real)
    ensures Quadratic(w, p, k) == (p - w) * (p - w) - k * w * (1.0 - w)
  {
  }

  lemma BelowIsDownwardClosed(v: real, w: real, p: real, k: real)
    requires k > 0.0 && v <= w && Below(w, p, k)
    ensures Below(v, p, k)
  {
    QuadraticIsGap(v, p, k);
    QuadraticIsGap(w, p, k);
    var slope := (1.0 + k) * (v + w) - (2.0 * p + k);
    Times(1.0 + k, v, w);
    assert slope == (1.0 + k) * v + (1.0 + k) * w - (2.0 * p + k);
    assert slope <= 0.0;
    assert Quadratic(v, p, k) - Quadratic(w, p, k) == (w - v) * -slope;
    ProductNonNegative(w - v, -slope);
  }

  lemma BelowGrowsWithRate(w: real, p: real, q: real, k: real)
    requires 0.0 <= p <= q <= 1.0 && k > 0.0 && Below(w, p, k)
    ensures Below(w, q, k)
  {
    BelowTheRate(w, p, k);
    assert (q - w) * (q - w) == (p - w) * (p - w) + (q - p) * ((q - w) + (p - w));
    ProductNonNegative(q - p, (q - w) + (p - w));
  }

  /** With a true root the rootless form says exactly that `w` does not exceed the bound. */
  lemma BelowIffWithinBound(w: real, p: real, n: nat, root: real)
    requires n > 0 && 0.0 <= root && root * root == Radicand(p, n)
    ensures Below(w, p, Spread(n)) <==> w <= Bound(p, n, root)
  {
    BoundAsMargin(w, p, n, root);
    BelowIffSpreadMargin(w, p, n, root);
  }

  lemma BelowIffSpreadMargin(w: real, p: real, n: nat, root: real)
    requires n > 0 && 0.0 <= root && root * root == Radicand(p, n)
    ensures Below(w, p, Spread(n)) <==> Z * root <= p + Spread(n) / 2.0 - w * (1.0 + Spread(n))
  {
    ScaledRadicand(p, n, root);
    ProductNonNegative(Z, root);
    BelowIffMargin(w, p, Spread(n), Z * root);
  }

  lemma BelowIffMargin(w: real, p: real, k: real, root: real)
    requires k > 0.0 && root >= 0.0 && root * root == k * p * (1.0 - p) + k * k / 4.0
    ensures Below(w, p, k) <==> root <= p + k / 2.0 - w * (1.0 + k)
  {
    var margin := p + k / 2.0 - w * (1.0 + k);
    MarginSquared(w, p, k);
    QuadraticIsGap(w, p, k);
    SquaresCompare(root, margin);
    SignOfProduct(1.0 + k, Quadratic(w, p, k));
  }

  lemma BoundAsMargin(w: real, p: real, n: nat, root: real)
    requires n > 0
    ensures w <= Bound(p, n, root) <==> Z * root <= p + Spread(n) / 2.0 - w * (1.0 + Spread(n))
  {
    var k := Spread(n);
    assert Z * Z / (2.0 * n as real) == k / 2.0;
    var top := p + k / 2.0 - Z * root;
    assert Bound(p, n, root) == top / (1.0 + k);
    DivisionCompares(w, top, 1.0 + k);
  }

  lemma DivisionCompares(w: real, top: real, d: real)
    requires d > 0.0
    ensures w <= top / d <==> w * d <= top
  {
    var x := top / d;
    assert x * d == top;
    if w <= x {
      assert w * d <= x * d;
    } else {
      assert w * d > x * d;
    }
  }

  lemma ScaledRadicand(p: real, n: nat, root: real)
    requires n > 0 && root * root == Radicand(p, n)
    ensures (Z * root) * (Z * root) == Spread(n) * p * (1.0 - p) + Spread(n) * Spread(n) / 4.0
  {
    var k, m := Spread(n), n as real;
    assert (Z * root) * (Z * root) == Z * Z * Radicand(p, n);
    assert k * m == Z * Z;
    assert Z * Z * (p * (1.0 - p) / m) == k * p * (1.0 - p) by {
      var x := p * (1.0 - p) / m;
      assert x * m == p * (1.0 - p);
      assert Z * Z * x == k * (m * x);
    }
    assert Z * Z * (Z * Z / (4.0 * m * m)) == k * k / 4.0 by {
      var y := Z * Z / (4.0 * m * m);
      assert y * (4.0 * m * m) == k * m;
      assert y * (4.0 * m) * m == k * m;
      Cancel(y * (4.0 * m), k, m);
      assert Z * Z * y == k * (m * y);
    }
  }

  lemma Cancel(a: real, b: real, m: real)
    requires m > 0.0 && a * m == b * m
    ensures a == b
  {
    assert (a - b) * m == 0.0;
  }

  lemma MarginSquared(w: real, p: real, k: real)
    ensures (p + k / 2.0 - w * (1.0 + k)) * (p + k / 2.0 - w * (1.0 + k)) - (k * p * (1.0 - p) + k * k / 4.0)
            == (1.0 + k) * Quadratic(w, p, k)
  {
    var c, e := p + k / 2.0, 1.0 + k;
    assert (c - w * e) * (c - w * e) == c * c - 2.0 * c * (w * e) + (w * e) * (w * e);
    assert c * c == p * p + p * k + k * k / 4.0;
    assert 2.0 * c * (w * e) == e * ((2.0 * p + k) * w);
    assert (w * e) * (w * e) == e * (e * (w * w));
    assert e * (p * p) == p * p + k * (p * p);
    assert k * p * (1.0 - p) == k * p - k * (p * p);
  }

  lemma SquaresCompare(a: real, b: real)
    requires a >= 0.0
    ensures a <= b <==> b >= 0.0 && a * a <= b * b
  {
    if b >= 0.0 {
      assert b * b - a * a == (b - a) * (b + a);
      if a <= b {
        ProductNonNegative(b - a, b + a);
      } else {
        assert a * a - b * b == (a - b) * (a + b);
        Positive(a - b, a + b);
      }
    }
  }

  lemma SignOfProduct(a: real, b: real)
    requires a > 0.0
    ensures a * b >= 0.0 <==> b >= 0.0
  {
  }

  // ---------------------------------------------------------------- the bound in basis points

  /** The bound is the greatest fitting value: every smaller one fits and no greater one does. */
  lemma BoundIsExact(accepted: nat, n: nat, q: nat)
    requires 0 < n && accepted <= n
    ensures Fits(q, accepted, n) <==> q <= LowerBound(accepted, n)
  {
    var p, k, low := Rate(accepted, n), Spread(n), LowerBound(accepted, n);
    assert Below(0.0, p, k);
    assert 0 as real / 10000.0 == 0.0;
    if q <= low {
      BelowIsDownwardClosed(q as real / 10000.0, low as real / 10000.0, p, k);
    } else if Fits(q, accepted, n) {
      BelowTheRate(q as real / 10000.0, p, k);
      WithinSearch(q, accepted, n);
      assert false;
    }
  }

  lemma WithinSearch(q: nat, accepted: nat, n: nat)
    requires 0 < n && accepted <= n && q as real / 10000.0 <= Rate(accepted, n)
    ensures q <= accepted * 10000 / n
    ensures accepted == 0 ==> q == 0
  {
    var w, p, m := q as real / 10000.0, Rate(accepted, n), n as real;
    assert p * m == accepted as real;
    assert w * m <= p * m;
    assert q as real == w * 10000.0;
    assert q as real * m <= accepted as real * 10000.0 by {
      assert q as real * m == w * m * 10000.0;
    }
    assert (q * n) as real == q as real * m;
    assert q * n <= accepted * 10000;
    Quotient(q, accepted * 10000, n);
  }

  lemma Quotient(q: nat, a: nat, n: nat)
    requires n > 0 && q * n <= a
    ensures q <= a / n
  {
    var x := a / n;
    assert a == x * n + a % n;
    assert (x + 1) * n == x * n + n;
    Multiples(x + 1, q, n);
  }

  lemma Multiples(x: nat, y: nat, n: nat)
    ensures x <= y ==> x * n <= y * n
  {
  }

  lemma QuotientTimes(a: nat, n: nat)
    requires n > 0
    ensures a / n * n <= a
  {
  }

  /** The bound lies between nothing and the observed rate, and is never above certainty. */
  lemma BoundIsWithinRate(accepted: nat, n: nat)
    requires 0 < n && accepted <= n
    ensures LowerBound(accepted, n) * n <= accepted * 10000 && LowerBound(accepted, n) <= 10000
  {
    var low := LowerBound(accepted, n);
    var x := accepted * 10000 / n;
    BoundReachesRate(accepted, n);
    QuotientTimes(accepted * 10000, n);
    Multiples(low, x, n);
    assert accepted * 10000 <= 10000 * n;
    Multiples(10001, low, n);
  }

  lemma BoundReachesRate(accepted: nat, n: nat)
    requires 0 < n && accepted <= n
    ensures LowerBound(accepted, n) <= accepted * 10000 / n
  {
  }

  lemma RateGrows(accepted: nat, more: nat, n: nat)
    requires 0 < n && accepted <= more <= n
    ensures Rate(accepted, n) <= Rate(more, n)
  {
    var p, q, m := Rate(accepted, n), Rate(more, n), n as real;
    assert p * m == accepted as real && q * m == more as real;
    assert (q - p) * m >= 0.0;
    SignOfProduct(m, q - p);
  }

  /** More accepted results never lower the bound. */
  lemma BoundGrowsWithAcceptance(accepted: nat, more: nat, n: nat)
    requires 0 < n && accepted <= more <= n
    ensures LowerBound(accepted, n) <= LowerBound(more, n)
  {
    var low, p, q := LowerBound(accepted, n), Rate(accepted, n), Rate(more, n);
    BoundIsExact(accepted, n, low);
    RateGrows(accepted, more, n);
    BelowGrowsWithRate(low as real / 10000.0, p, q, Spread(n));
    BoundIsExact(more, n, low);
  }

  /** For any true root, the basis points are the formula of the bound rounded down. */
  lemma BoundIsTheFormulaRoundedDown(accepted: nat, n: nat, root: real)
    requires 0 < n && accepted <= n && 0.0 <= root && root * root == Radicand(Rate(accepted, n), n)
    ensures LowerBound(accepted, n) as real / 10000.0 <= Bound(Rate(accepted, n), n, root)
    ensures Bound(Rate(accepted, n), n, root) < (LowerBound(accepted, n) + 1) as real / 10000.0
  {
    var low, p := LowerBound(accepted, n), Rate(accepted, n);
    BoundIsExact(accepted, n, low);
    BoundIsExact(accepted, n, low + 1);
    BelowIffWithinBound(low as real / 10000.0, p, n, root);
    BelowIffWithinBound((low + 1) as real / 10000.0, p, n, root);
  }

  // ---------------------------------------------------------------- prices

  function CeilDivide(amount: nat, divisor: nat): nat
    requires divisor > 0
  {
    (amount + divisor - 1) / divisor
  }

  /** The least whole number whose multiple covers the amount. */
  lemma CeilDivideIsLeast(amount: nat, divisor: nat, m: nat)
    requires divisor > 0
    ensures CeilDivide(amount, divisor) <= m <==> amount <= m * divisor
  {
    var x := CeilDivide(amount, divisor);
    var r := (amount + divisor - 1) % divisor;
    assert amount + divisor - 1 == x * divisor + r;
    if x <= m {
      assert x * divisor <= m * divisor;
    } else {
      assert m * divisor <= (x - 1) * divisor == x * divisor - divisor;
    }
  }

  /** The expected total of one accepted result: cost and time, divided by the chance of acceptance. */
  function ExpectedTotal(outlay: nat, quality: nat): nat
    requires quality > 0
  {
    CeilDivide(outlay * 10000, quality)
  }

  /** It is the least total that covers the outlay at that quality, and never less than the outlay. */
  lemma TotalCoversOutlay(outlay: nat, quality: nat, m: nat)
    requires 0 < quality <= 10000
    ensures ExpectedTotal(outlay, quality) <= m <==> outlay * 10000 <= m * quality
    ensures outlay <= ExpectedTotal(outlay, quality)
  {
    CeilDivideIsLeast(outlay * 10000, quality, m);
    var total := ExpectedTotal(outlay, quality);
    CeilDivideIsLeast(outlay * 10000, quality, total);
    Multiples(quality, 10000, total);
  }

  /** A better bound never raises the price. */
  lemma BetterQualityIsNoDearer(outlay: nat, quality: nat, better: nat)
    requires 0 < quality <= better
    ensures ExpectedTotal(outlay, better) <= ExpectedTotal(outlay, quality)
  {
    var total := ExpectedTotal(outlay, quality);
    CeilDivideIsLeast(outlay * 10000, quality, total);
    Multiples(quality, better, total);
    CeilDivideIsLeast(outlay * 10000, better, total);
  }
}
