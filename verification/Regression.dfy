/** Health-score trend by ordinary least squares (internal/prediction/analyzer.go), in
    exact reals.  A NaN score is `None`; the square root is a parameter. */
module Regression {
  import opened CheckerTypes

  // ------------------------------------------------------------- sums of vectors

  /** Products go through a named function so that equal factors give equal products
      without arithmetic reasoning. */
  function Mul(x: real, y: real): real {
    x * y
  }

  function Sum(u: seq<real>): real {
    if u == [] then 0.0 else Sum(u[..|u| - 1]) + u[|u| - 1]
  }

  function Times(u: seq<real>, v: seq<real>): seq<real>
    requires |u| == |v|
  {
    seq(|u|, i requires 0 <= i < |u| => Mul(u[i], v[i]))
  }

  lemma Distribute(k: real, u: real, v: real)
    ensures Mul(k, u + v) == Mul(k, u) + Mul(k, v)
  {
  }

  lemma {:induction false} SumAdds(u: seq<real>, v: seq<real>, w: seq<real>)
    requires |u| == |v| == |w| && forall i | 0 <= i < |u| :: w[i] == u[i] + v[i]
    ensures Sum(w) == Sum(u) + Sum(v)
  {
    if u != [] {
      SumAdds(u[..|u| - 1], v[..|u| - 1], w[..|u| - 1]);
    }
  }

  lemma {:induction false} SumScales(k: real, u: seq<real>, w: seq<real>)
    requires |u| == |w| && forall i | 0 <= i < |u| :: w[i] == Mul(k, u[i])
    ensures Sum(w) == Mul(k, Sum(u))
  {
    if u != [] {
      SumScales(k, u[..|u| - 1], w[..|u| - 1]);
      Distribute(k, Sum(u[..|u| - 1]), u[|u| - 1]);
    }
  }

  /** Sums respect linear combinations. */
  lemma SumOfCombination(k: real, u: seq<real>, m: real, v: seq<real>, w: seq<real>)
    requires |u| == |v| == |w| && forall i | 0 <= i < |u| :: w[i] == Mul(k, u[i]) + Mul(m, v[i])
    ensures Sum(w) == Mul(k, Sum(u)) + Mul(m, Sum(v))
  {
    var ku := seq(|u|, i requires 0 <= i < |u| => Mul(k, u[i]));
    var mv := seq(|v|, i requires 0 <= i < |v| => Mul(m, v[i]));
    SumScales(k, u, ku);
    SumScales(m, v, mv);
    SumAdds(ku, mv, w);
  }

  function Ones(n: nat): seq<real> {
    seq(n, i requires 0 <= i < n => 1.0)
  }

  lemma {:induction false} SumOfOnes(n: nat)
    ensures Sum(Ones(n)) == n as real
  {
    if n > 0 {
      SumOfOnes(n - 1);
      assert Ones(n)[..n - 1] == Ones(n - 1);
    }
  }

  lemma PositiveProduct(x: real, y: real)
    requires x > 0.0 && y > 0.0
    ensures Mul(x, y) > 0.0
  {
  }

  lemma Squares(x: real)
    ensures Mul(x, x) >= 0.0
    ensures x != 0.0 ==> Mul(x, x) > 0.0
  {
    if x > 0.0 {
      PositiveProduct(x, x);
    } else if x < 0.0 {
      PositiveProduct(-x, -x);
      assert Mul(-x, -x) == Mul(x, x);
    }
  }

  lemma {:induction false} SumOfNonNegative(w: seq<real>)
    requires forall i | 0 <= i < |w| :: w[i] >= 0.0
    ensures Sum(w) >= 0.0
    ensures Sum(w) == 0.0 <==> forall i | 0 <= i < |w| :: w[i] == 0.0
  {
    if w != [] {
      SumOfNonNegative(w[..|w| - 1]);
    }
  }

  /** A sum of squares is never negative, and zero only if every term is. */
  lemma SumOfSquares(u: seq<real>)
    ensures Sum(Times(u, u)) >= 0.0
    ensures Sum(Times(u, u)) == 0.0 <==> forall i | 0 <= i < |u| :: u[i] == 0.0
  {
    forall i | 0 <= i < |u|
      ensures Times(u, u)[i] >= 0.0 && (Times(u, u)[i] == 0.0 <==> u[i] == 0.0)
    {
      Squares(u[i]);
    }
    SumOfNonNegative(Times(u, u));
  }

  // ------------------------------------------------------------------ lines

  function Residuals(xs: seq<real>, ys: seq<real>, a: real, b: real): seq<real>
    requires |xs| == |ys|
  {
    seq(|xs|, i requires 0 <= i < |xs| => ys[i] - (a + Mul(b, xs[i])))
  }

  /** Squared error of the line y = a + b x. */
  function SquaredError(xs: seq<real>, ys: seq<real>, a: real, b: real): real
    requires |xs| == |ys|
  {
    Sum(Times(Residuals(xs, ys, a, b), Residuals(xs, ys, a, b)))
  }

  /** Sum of the residuals from the plain sums. */
  lemma ResidualSum(xs: seq<real>, ys: seq<real>, a: real, b: real)
    requires |xs| == |ys|
    ensures Sum(Residuals(xs, ys, a, b)) == Sum(ys) - (Mul(a, |xs| as real) + Mul(b, Sum(xs)))
  {
    var ones := Ones(|xs|);
    var line := seq(|xs|, i requires 0 <= i < |xs| => Mul(a, ones[i]) + Mul(b, xs[i]));
    SumOfOnes(|xs|);
    SumOfCombination(a, ones, b, xs, line);
    SumAdds(Residuals(xs, ys, a, b), line, ys);
  }

  lemma WeightedResidual(x: real, y: real, a: real, b: real, r: real, xx: real)
    requires r == y - (a + Mul(b, x)) && xx == Mul(x, x)
    ensures Mul(x, y) == Mul(r, x) + (Mul(a, x) + Mul(b, xx))
  {
    assert (y - (a + b * x)) * x == y * x - a * x - (b * x) * x;
  }

  /** Sum of the residuals weighted by x, from the plain sums. */
  lemma WeightedResidualSum(xs: seq<real>, ys: seq<real>, a: real, b: real)
    requires |xs| == |ys|
    ensures Sum(Times(Residuals(xs, ys, a, b), xs))
            == Sum(Times(xs, ys)) - (Mul(a, Sum(xs)) + Mul(b, Sum(Times(xs, xs))))
  {
    var r, xx, xy := Residuals(xs, ys, a, b), Times(xs, xs), Times(xs, ys);
    var rx := Times(r, xs);
    var line := seq(|xs|, i requires 0 <= i < |xs| => Mul(a, xs[i]) + Mul(b, xx[i]));
    SumOfCombination(a, xs, b, xx, line);
    forall i | 0 <= i < |xs| ensures xy[i] == rx[i] + line[i] {
      WeightedResidual(xs[i], ys[i], a, b, r[i], xx[i]);
    }
    SumAdds(rx, line, xy);
  }

  lemma MovedResidual(x: real, y: real, a: real, b: real, da: real, db: real)
    ensures var r := y - (a + Mul(b, x));
            var d := da + Mul(db, x);
            var r' := y - ((a + da) + Mul(b + db, x));
            Mul(r', r') == Mul(1.0, Mul(r, r) + Mul(d, d)) + Mul(-2.0, Mul(da, r) + Mul(db, Mul(r, x)))
  {
    var r := y - (a + b * x);
    var d := da + db * x;
    assert (b + db) * x == b * x + db * x;
    assert y - ((a + da) + (b + db) * x) == r - d;
    assert r * d == da * r + db * (r * x);
    assert (r - d) * (r - d) == r * r - 2.0 * (r * d) + d * d;
  }

  /** Distances between two lines at the data points. */
  function Gaps(xs: seq<real>, da: real, db: real): seq<real> {
    seq(|xs|, i requires 0 <= i < |xs| => da + Mul(db, xs[i]))
  }

  /** Moving a line by (da, db) changes its squared error by a square and a term linear
      in the residual sums. */
  lemma ErrorOfMovedLine(xs: seq<real>, ys: seq<real>, a: real, b: real, da: real, db: real)
    requires |xs| == |ys|
    ensures var r := Residuals(xs, ys, a, b);
            SquaredError(xs, ys, a + da, b + db)
            == Mul(1.0, SquaredError(xs, ys, a, b) + Sum(Times(Gaps(xs, da, db), Gaps(xs, da, db))))
               + Mul(-2.0, Mul(da, Sum(r)) + Mul(db, Sum(Times(r, xs))))
  {
    var n := |xs|;
    var r, r', d := Residuals(xs, ys, a, b), Residuals(xs, ys, a + da, b + db), Gaps(xs, da, db);
    var rr, dd, rx, rr' := Times(r, r), Times(d, d), Times(r, xs), Times(r', r');
    var cross := seq(n, i requires 0 <= i < n => Mul(da, r[i]) + Mul(db, rx[i]));
    var squares := seq(n, i requires 0 <= i < n => rr[i] + dd[i]);
    SumOfCombination(da, r, db, rx, cross);
    SumAdds(rr, dd, squares);
    forall i | 0 <= i < n ensures rr'[i] == Mul(1.0, squares[i]) + Mul(-2.0, cross[i]) {
      MovedTerm(xs, ys, a, b, da, db, i);
    }
    SumOfCombination(1.0, squares, -2.0, cross, rr');
  }

  lemma MovedTerm(xs: seq<real>, ys: seq<real>, a: real, b: real, da: real, db: real, i: nat)
    requires i < |xs| == |ys|
    ensures var r, r', d := Residuals(xs, ys, a, b), Residuals(xs, ys, a + da, b + db), Gaps(xs, da, db);
            Times(r', r')[i] == Mul(1.0, Times(r, r)[i] + Times(d, d)[i])
                                + Mul(-2.0, Mul(da, r[i]) + Mul(db, Times(r, xs)[i]))
  {
    MovedResidual(xs[i], ys[i], a, b, da, db);
  }

  // ------------------------------------------------------- the fitted line

  function Denominator(n: real, sx: real, sx2: real): real {
    n * sx2 - sx * sx
  }

  function Slope(n: real, sx: real, sy: real, sxy: real, sx2: real): real
    requires Denominator(n, sx, sx2) != 0.0
  {
    (n * sxy - sx * sy) / Denominator(n, sx, sx2)
  }

  function Intercept(n: real, sx: real, sy: real, slope: real): real
    requires n > 0.0
  {
    (sy - slope * sx) / n
  }

  lemma Cancel(n: real, u: real, v: real)
    requires n > 0.0 && n * u == n * v
    ensures u == v
  {
    assert n * (u - v) == 0.0;
  }

  /** The fitted coefficients solve the normal equations. */
  lemma NormalEquations(n: real, sx: real, sy: real, sxy: real, sx2: real, a: real, b: real)
    requires n > 0.0 && Denominator(n, sx, sx2) != 0.0
    requires b == Slope(n, sx, sy, sxy, sx2) && a == Intercept(n, sx, sy, b)
    ensures sy == Mul(a, n) + Mul(b, sx)
    ensures sxy == Mul(a, sx) + Mul(b, sx2)
  {
    var d := Denominator(n, sx, sx2);
    assert b * d == n * sxy - sx * sy;
    assert a * n == sy - b * sx;
    SecondEquation(n, sx, sy, sxy, sx2, a, b);
  }

  lemma SecondEquation(n: real, sx: real, sy: real, sxy: real, sx2: real, a: real, b: real)
    requires n > 0.0
    requires b * Denominator(n, sx, sx2) == n * sxy - sx * sy
    requires a * n == sy - b * sx
    ensures sxy == Mul(a, sx) + Mul(b, sx2)
  {
    assert n * (a * sx) == (a * n) * sx;
    assert (sy - b * sx) * sx == sy * sx - b * (sx * sx);
    assert n * (b * sx2) == b * (n * sx2);
    assert b * (n * sx2 - sx * sx) == b * (n * sx2) - b * (sx * sx);
    assert n * (a * sx + b * sx2) == n * (a * sx) + n * (b * sx2);
    assert n * (a * sx + b * sx2) == n * sxy;
    Cancel(n, sxy, a * sx + b * sx2);
  }

  /** The line `Analyze` fits to the data. */
  ghost predicate Fitted(xs: seq<real>, ys: seq<real>, a: real, b: real)
  {
    && |xs| == |ys| && |xs| > 0
    && Denominator(|xs| as real, Sum(xs), Sum(Times(xs, xs))) != 0.0
    && b == Slope(|xs| as real, Sum(xs), Sum(ys), Sum(Times(xs, ys)), Sum(Times(xs, xs)))
    && a == Intercept(|xs| as real, Sum(xs), Sum(ys), b)
  }

  /** Any other line is worse by the squared distance to the fitted one. */
  lemma ErrorAboveFitted(xs: seq<real>, ys: seq<real>, a: real, b: real, da: real, db: real)
    requires Fitted(xs, ys, a, b)
    ensures SquaredError(xs, ys, a + da, b + db)
            == SquaredError(xs, ys, a, b) + Sum(Times(Gaps(xs, da, db), Gaps(xs, da, db)))
  {
    NormalEquations(|xs| as real, Sum(xs), Sum(ys), Sum(Times(xs, ys)), Sum(Times(xs, xs)), a, b);
    ResidualSum(xs, ys, a, b);
    WeightedResidualSum(xs, ys, a, b);
    ErrorOfMovedLine(xs, ys, a, b, da, db);
    assert Mul(da, 0.0) == 0.0 && Mul(db, 0.0) == 0.0;
  }

  /** The fitted line minimises the squared error over all lines, and no other line does. */
  lemma FittedIsLeastSquares(xs: seq<real>, ys: seq<real>, a: real, b: real, a': real, b': real)
    requires Fitted(xs, ys, a, b)
    ensures SquaredError(xs, ys, a, b) <= SquaredError(xs, ys, a', b')
    ensures SquaredError(xs, ys, a, b) == SquaredError(xs, ys, a', b') ==> a' == a && b' == b
  {
    var da, db := a' - a, b' - b;
    var gaps := Gaps(xs, da, db);
    ErrorAboveFitted(xs, ys, a, b, da, db);
    assert a + da == a' && b + db == b';
    SumOfSquares(gaps);
    if Sum(Times(gaps, gaps)) == 0.0 {
      DenominatorSign(xs);
      var i, j :| 0 <= i < |xs| && 0 <= j < |xs| && xs[i] != xs[j];
      assert gaps[i] == 0.0 && gaps[j] == 0.0;
      TwoZeros(da, db, xs[i], xs[j]);
    }
  }

  lemma TwoZeros(da: real, db: real, x: real, x': real)
    requires da + Mul(db, x) == 0.0 && da + Mul(db, x') == 0.0 && x != x'
    ensures da == 0.0 && db == 0.0
  {
    assert db * (x - x') == 0.0;
    if db != 0.0 {
      NonZeroProduct(db, x - x');
    }
  }

  lemma NonZeroProduct(x: real, y: real)
    requires x != 0.0 && y != 0.0
    ensures x * y != 0.0
  {
    if x > 0.0 && y > 0.0 {
      PositiveProduct(x, y);
    } else if x > 0.0 {
      PositiveProduct(x, -y);
    } else if y > 0.0 {
      PositiveProduct(-x, y);
    } else {
      PositiveProduct(-x, -y);
    }
  }

  // ------------------------------------------------- spread of the timestamps

  ghost predicate AllEqual(xs: seq<real>) {
    forall i, j | 0 <= i < |xs| && 0 <= j < |xs| :: xs[i] == xs[j]
  }

  lemma ShiftedFromMean(x: real, m: real, k: real, q: real, d: real, xx: real)
    requires k == -2.0 * m && q == m * m && d == x - m && xx == Mul(x, x)
    ensures Mul(d, d) == Mul(1.0, xx) + Mul(1.0, Mul(k, x) + Mul(q, 1.0))
  {
    assert (x - m) * (x - m) == x * x - 2.0 * (m * x) + m * m;
    assert (-2.0 * m) * x == -2.0 * (m * x);
  }

  function Deviations(xs: seq<real>, m: real): seq<real> {
    seq(|xs|, i requires 0 <= i < |xs| => xs[i] - m)
  }

  lemma DeviationSquares(xs: seq<real>, m: real, k: real, q: real)
    requires k == -2.0 * m && q == m * m
    ensures var d := Deviations(xs, m);
            forall i | 0 <= i < |xs| ::
              Times(d, d)[i] == Mul(1.0, Times(xs, xs)[i]) + Mul(1.0, Mul(k, xs[i]) + Mul(q, 1.0))
  {
    var d, xx := Deviations(xs, m), Times(xs, xs);
    forall i | 0 <= i < |xs|
      ensures Times(d, d)[i] == Mul(1.0, xx[i]) + Mul(1.0, Mul(k, xs[i]) + Mul(q, 1.0))
    {
      ShiftedFromMean(xs[i], m, k, q, d[i], xx[i]);
    }
  }

  lemma SumOfQuadratic(xs: seq<real>, dd: seq<real>, k: real, q: real)
    requires |dd| == |xs|
    requires forall i | 0 <= i < |xs| ::
               dd[i] == Mul(1.0, Times(xs, xs)[i]) + Mul(1.0, Mul(k, xs[i]) + Mul(q, 1.0))
    ensures Sum(dd) == Mul(1.0, Sum(Times(xs, xs))) + Mul(1.0, Mul(k, Sum(xs)) + Mul(q, |xs| as real))
  {
    var ones := Ones(|xs|);
    var rest := seq(|xs|, i requires 0 <= i < |xs| => Mul(k, xs[i]) + Mul(q, ones[i]));
    SumOfOnes(|xs|);
    SumOfCombination(k, xs, q, ones, rest);
    SumOfCombination(1.0, Times(xs, xs), 1.0, rest, dd);
  }

  lemma DenominatorFromDeviations(n: real, sx: real, sx2: real, m: real, k: real, q: real, dev: real)
    requires n > 0.0 && m == sx / n && k == -2.0 * m && q == m * m
    requires dev == Mul(1.0, sx2) + Mul(1.0, Mul(k, sx) + Mul(q, n))
    ensures Denominator(n, sx, sx2) == Mul(n, dev)
  {
    assert m * n == sx;
    assert n * (m * sx) == (m * n) * sx;
    assert n * (m * m * n) == (m * n) * (m * n);
    assert dev == sx2 - 2.0 * (m * sx) + m * m * n;
    assert n * dev == n * sx2 - 2.0 * (n * (m * sx)) + n * (m * m * n);
  }

  /** n times the sum of x squared is at least the square of the sum, with equality
      exactly when all timestamps coincide. */
  lemma DenominatorSign(xs: seq<real>)
    requires xs != []
    ensures var d := Denominator(|xs| as real, Sum(xs), Sum(Times(xs, xs)));
            d >= 0.0 && (d == 0.0 <==> AllEqual(xs))
  {
    var m := Mean(xs);
    var dev := Deviations(xs, m);
    DenominatorIsSpread(xs);
    SumOfSquares(dev);
    ZeroDeviations(xs, m);
    SignOfScaled(|xs| as real, Sum(Times(dev, dev)));
  }

  function Mean(xs: seq<real>): real
    requires xs != []
  {
    Sum(xs) / (|xs| as real)
  }

  lemma SpreadSum(xs: seq<real>, m: real, k: real, q: real)
    requires k == -2.0 * m && q == m * m
    ensures Sum(Times(Deviations(xs, m), Deviations(xs, m)))
            == Mul(1.0, Sum(Times(xs, xs))) + Mul(1.0, Mul(k, Sum(xs)) + Mul(q, |xs| as real))
  {
    DeviationSquares(xs, m, k, q);
    SumOfQuadratic(xs, Times(Deviations(xs, m), Deviations(xs, m)), k, q);
  }

  /** The denominator is n times the sum of squared deviations from the mean. */
  lemma DenominatorIsSpread(xs: seq<real>)
    requires xs != []
    ensures Denominator(|xs| as real, Sum(xs), Sum(Times(xs, xs)))
            == Mul(|xs| as real, Sum(Times(Deviations(xs, Mean(xs)), Deviations(xs, Mean(xs)))))
  {
    var m := Mean(xs);
    var k, q := -2.0 * m, m * m;
    SpreadSum(xs, m, k, q);
    DenominatorFromSpread(xs, m, k, q, Sum(Times(Deviations(xs, m), Deviations(xs, m))));
  }

  lemma DenominatorFromSpread(xs: seq<real>, m: real, k: real, q: real, t: real)
    requires xs != [] && m == Mean(xs) && k == -2.0 * m && q == m * m
    requires t == Mul(1.0, Sum(Times(xs, xs))) + Mul(1.0, Mul(k, Sum(xs)) + Mul(q, |xs| as real))
    ensures Denominator(|xs| as real, Sum(xs), Sum(Times(xs, xs))) == Mul(|xs| as real, t)
  {
    DenominatorFromDeviations(|xs| as real, Sum(xs), Sum(Times(xs, xs)), m, k, q, t);
  }

  lemma SignOfScaled(n: real, t: real)
    requires n > 0.0 && t >= 0.0
    ensures Mul(n, t) >= 0.0 && (Mul(n, t) == 0.0 <==> t == 0.0)
  {
    if t > 0.0 {
      PositiveProduct(n, t);
    }
  }

  /** All deviations from the mean vanish exactly when all values are equal. */
  lemma ZeroDeviations(xs: seq<real>, m: real)
    requires xs != [] && m == Mean(xs)
    ensures (forall i | 0 <= i < |xs| :: Deviations(xs, m)[i] == 0.0) <==> AllEqual(xs)
  {
    var dev := Deviations(xs, m);
    if AllEqual(xs) {
      var ones := Ones(|xs|);
      SumOfOnes(|xs|);
      forall i | 0 <= i < |xs| ensures xs[i] == Mul(xs[0], ones[i]) {
      }
      SumScales(xs[0], ones, xs);
      MeanOfEqual(xs[0], |xs| as real);
    } else {
      var i, j :| 0 <= i < |xs| && 0 <= j < |xs| && xs[i] != xs[j];
      assert dev[i] != dev[j];
    }
  }

  lemma MeanOfEqual(x: real, n: real)
    requires n > 0.0
    ensures Mul(x, n) / n == x
  {
  }

  // ------------------------------------------------------ quality of the fit

  /** The total sum of squares is the error of the horizontal line at the mean, so the
      fitted line is at least as good. */
  lemma ResidualAtMostTotal(xs: seq<real>, ys: seq<real>, a: real, b: real, meanY: real)
    requires Fitted(xs, ys, a, b)
    ensures 0.0 <= SquaredError(xs, ys, a, b) <= SquaredError(xs, ys, meanY, 0.0)
  {
    SumOfSquares(Residuals(xs, ys, a, b));
    FittedIsLeastSquares(xs, ys, a, b, meanY, 0.0);
  }

  function RSquared(ssRes: real, ssTot: real): real {
    if ssTot > 0.0 then 1.0 - ssRes / ssTot else 1.0
  }

  /** R squared is the share of the total error that the line explains. */
  lemma RSquaredIsExplainedShare(ssRes: real, ssTot: real)
    requires ssTot > 0.0
    ensures Mul(RSquared(ssRes, ssTot), ssTot) == ssTot - ssRes
  {
    assert (ssRes / ssTot) * ssTot == ssRes;
  }

  lemma RSquaredIsAFraction(ssRes: real, ssTot: real)
    requires 0.0 <= ssRes <= ssTot
    ensures 0.0 <= RSquared(ssRes, ssTot) <= 1.0
  {
    if ssTot > 0.0 {
      var q := ssRes / ssTot;
      assert q * ssTot == ssRes;
      if q > 1.0 {
        PositiveProduct(q - 1.0, ssTot);
      } else if q < 0.0 {
        PositiveProduct(-q, ssTot);
      }
    }
  }

  /** If all points lie on one line, that line is found and fits perfectly. */
  lemma ExactDataIsRecovered(xs: seq<real>, ys: seq<real>, a: real, b: real, a': real, b': real)
    requires Fitted(xs, ys, a, b)
    requires forall i | 0 <= i < |xs| :: ys[i] == a' + Mul(b', xs[i])
    ensures a == a' && b == b' && SquaredError(xs, ys, a, b) == 0.0
  {
    SumOfSquares(Residuals(xs, ys, a', b'));
    SumOfSquares(Residuals(xs, ys, a, b));
    FittedIsLeastSquares(xs, ys, a, b, a', b');
  }

  /** R squared is one if and only if the points lie on one line. */
  lemma {:induction false} RSquaredIsOneIffCollinear(xs: seq<real>, ys: seq<real>, a: real, b: real)
    requires Fitted(xs, ys, a, b)
    ensures RSquared(SquaredError(xs, ys, a, b), SquaredError(xs, ys, Mean(ys), 0.0)) == 1.0 <==>
            exists a', b' :: OnLine(xs, ys, a', b')
  {
    var ssRes, ssTot := SquaredError(xs, ys, a, b), SquaredError(xs, ys, Mean(ys), 0.0);
    ResidualAtMostTotal(xs, ys, a, b, Mean(ys));
    NoErrorIffOnLine(xs, ys, a, b);
    NoErrorIffOnLine(xs, ys, Mean(ys), 0.0);
    if a', b' :| OnLine(xs, ys, a', b') {
      ExactDataIsRecovered(xs, ys, a, b, a', b');
    }
    if ssTot > 0.0 {
      OneMinusQuotient(ssRes, ssTot);
    }
  }

  lemma OneMinusQuotient(u: real, v: real)
    requires v > 0.0
    ensures 1.0 - u / v == 1.0 <==> u == 0.0
  {
    assert (u / v) * v == u;
  }

  predicate OnLine(xs: seq<real>, ys: seq<real>, a: real, b: real)
    requires |xs| == |ys|
  {
    forall i | 0 <= i < |xs| :: ys[i] == a + Mul(b, xs[i])
  }

  lemma NoErrorIffOnLine(xs: seq<real>, ys: seq<real>, a: real, b: real)
    requires |xs| == |ys|
    ensures SquaredError(xs, ys, a, b) == 0.0 <==> OnLine(xs, ys, a, b)
  {
    SumOfSquares(Residuals(xs, ys, a, b));
    assert forall i | 0 <= i < |xs| :: Residuals(xs, ys, a, b)[i] == ys[i] - (a + Mul(b, xs[i]));
  }

  // ------------------------------------------------- the sign of the slope

  /** Never falls, or never rises. */
  predicate Monotone(ys: seq<real>, up: bool) {
    forall i, j | 0 <= i < j < |ys| :: if up then ys[i] <= ys[j] else ys[i] >= ys[j]
  }

  predicate Signed(d: real, up: bool) {
    if up then d >= 0.0 else d <= 0.0
  }

  lemma SignedProduct(x: real, y: real, up: bool)
    requires x >= 0.0 && Signed(y, up)
    ensures Signed(Mul(x, y), up)
  {
    if x > 0.0 && y > 0.0 {
      PositiveProduct(x, y);
    } else if x > 0.0 && y < 0.0 {
      PositiveProduct(x, -y);
      assert Mul(x, -y) == -Mul(x, y);
    }
  }

  /** Distances of the earlier points to a new one. */
  function Cross(xs: seq<real>, ys: seq<real>, x: real, y: real): seq<real>
    requires |xs| == |ys|
  {
    seq(|xs|, i requires 0 <= i < |xs| => Mul(x - xs[i], y - ys[i]))
  }

  lemma {:induction false} CrossSum(xs: seq<real>, ys: seq<real>, x: real, y: real)
    requires |xs| == |ys|
    ensures Sum(Cross(xs, ys, x, y)) == CrossOf(|xs| as real, Sum(xs), Sum(ys), Sum(Times(xs, ys)), x, y)
  {
    if xs != [] {
      var n := |xs| - 1;
      CrossSum(xs[..n], ys[..n], x, y);
      assert Cross(xs, ys, x, y)[..n] == Cross(xs[..n], ys[..n], x, y);
      assert Times(xs, ys)[..n] == Times(xs[..n], ys[..n]);
      assert |xs| as real == n as real + 1.0;
      CrossStep(n as real, Sum(xs[..n]), Sum(ys[..n]), Sum(Times(xs, ys)[..n]), xs[n], ys[n], x, y);
    } else {
      NothingCrosses(x, y);
    }
  }

  lemma NothingCrosses(x: real, y: real)
    ensures Mul(0.0, Mul(x, y)) == Mul(x, 0.0) == Mul(y, 0.0) == 0.0
  {
  }

  // What the sum should be, from the plain sums.
  function CrossOf(n: real, sx: real, sy: real, sxy: real, x: real, y: real): real {
    sxy + Mul(n, Mul(x, y)) - Mul(x, sy) - Mul(y, sx)
  }

  lemma CrossStep(n: real, sx: real, sy: real, sxy: real, u: real, v: real, x: real, y: real)
    ensures CrossOf(n + 1.0, sx + u, sy + v, sxy + Mul(u, v), x, y) == CrossOf(n, sx, sy, sxy, x, y) + Mul(x - u, y - v)
  {
    assert (x - u) * (y - v) == x * y - x * v - y * u + u * v;
    assert (n + 1.0) * (x * y) == n * (x * y) + x * y;
    assert x * (sy + v) == x * sy + x * v && y * (sx + u) == y * sx + y * u;
  }

  lemma {:induction false} SumIsSigned(w: seq<real>, up: bool)
    requires forall i | 0 <= i < |w| :: Signed(w[i], up)
    ensures Signed(Sum(w), up)
  {
    if w != [] {
      SumIsSigned(w[..|w| - 1], up);
    }
  }

  function Covariation(n: real, sx: real, sy: real, sxy: real): real {
    Mul(n, sxy) - Mul(sx, sy)
  }

  lemma CovariationGrows(n: real, sx: real, sy: real, sxy: real, x: real, y: real, cross: real)
    requires cross == CrossOf(n, sx, sy, sxy, x, y)
    ensures Covariation(n + 1.0, sx + x, sy + y, sxy + Mul(x, y)) == Covariation(n, sx, sy, sxy) + cross
  {
    assert (sx + x) * (sy + y) == sx * sy + x * sy + y * sx + x * y;
    assert (n + 1.0) * (sxy + x * y) == n * sxy + sxy + n * (x * y) + x * y;
  }

  /** Two sequences that move the same way vary together, two that move against each other
      vary against each other (the sum inequality of Chebyshev). */
  lemma {:induction false} MonotoneCovariation(xs: seq<real>, ys: seq<real>, up: bool)
    requires |xs| == |ys| && Monotone(xs, true) && Monotone(ys, up)
    ensures Signed(CovariationOf(xs, ys), up)
  {
    if xs != [] {
      var n := |xs| - 1;
      var x, y, before, after := xs[n], ys[n], xs[..n], ys[..n];
      MonotoneCovariation(before, after, up);
      CrossIsSigned(before, after, x, y, up);
      CovariationOfMore(before, after, x, y);
      assert xs == before + [x] && ys == after + [y];
    } else {
      NothingCrosses(Sum(Times(xs, ys)), Sum(ys));
    }
  }

  lemma CrossIsSigned(xs: seq<real>, ys: seq<real>, x: real, y: real, up: bool)
    requires |xs| == |ys| && Monotone(xs + [x], true) && Monotone(ys + [y], up)
    ensures Signed(Sum(Cross(xs, ys, x, y)), up)
  {
    forall i | 0 <= i < |xs| ensures Signed(Cross(xs, ys, x, y)[i], up) {
      assert (xs + [x])[i] == xs[i] && (xs + [x])[|xs|] == x;
      assert (ys + [y])[i] == ys[i] && (ys + [y])[|ys|] == y;
      SignedProduct(x - xs[i], y - ys[i], up);
    }
    SumIsSigned(Cross(xs, ys, x, y), up);
  }

  function CovariationOf(xs: seq<real>, ys: seq<real>): real
    requires |xs| == |ys|
  {
    Covariation(|xs| as real, Sum(xs), Sum(ys), Sum(Times(xs, ys)))
  }

  lemma CovariationOfMore(xs: seq<real>, ys: seq<real>, x: real, y: real)
    requires |xs| == |ys|
    ensures CovariationOf(xs + [x], ys + [y]) == CovariationOf(xs, ys) + Sum(Cross(xs, ys, x, y))
  {
    CrossSum(xs, ys, x, y);
    Append(xs, ys, x, y);
    Append(ys, ys, y, y);
    assert |xs + [x]| as real == |xs| as real + 1.0;
    CovariationGrows(|xs| as real, Sum(xs), Sum(ys), Sum(Times(xs, ys)), x, y, Sum(Cross(xs, ys, x, y)));
  }

  lemma SignOfQuotient(u: real, v: real, up: bool)
    requires v > 0.0 && Signed(u, up)
    ensures Signed(u / v, up)
  {
    var q := u / v;
    assert q * v == u;
    if q > 0.0 {
      PositiveProduct(q, v);
    } else if q < 0.0 {
      PositiveProduct(-q, v);
    }
  }

  /** The fitted line rises if the values never fall over time, and falls if they never
      rise. */
  lemma {:induction false} SlopeFollowsData(xs: seq<real>, ys: seq<real>, a: real, b: real, up: bool)
    requires Fitted(xs, ys, a, b) && Monotone(xs, true) && Monotone(ys, up)
    ensures Signed(b, up)
  {
    var n := |xs| as real;
    MonotoneCovariation(xs, ys, up);
    DenominatorSign(xs);
    SlopeIsSigned(n, Sum(xs), Sum(ys), Sum(Times(xs, ys)), Sum(Times(xs, xs)), up);
  }

  lemma SlopeIsSigned(n: real, sx: real, sy: real, sxy: real, sx2: real, up: bool)
    requires Denominator(n, sx, sx2) > 0.0 && Signed(Covariation(n, sx, sy, sxy), up)
    ensures Signed(Slope(n, sx, sy, sxy, sx2), up)
  {
    SignOfQuotient(Covariation(n, sx, sy, sxy), Denominator(n, sx, sx2), up);
  }

  function Leverage(n: real, px: real, mx: real, sxx: real): real
    requires n > 0.0 && sxx > 0.0
  {
    1.0 + 1.0 / n + (px - mx) * (px - mx) / sxx
  }

  lemma Quotient(u: real, v: real)
    requires u >= 0.0 && v > 0.0
    ensures u / v >= 0.0
  {
    var q := u / v;
    assert q * v == u;
    if q < 0.0 {
      PositiveProduct(-q, v);
    }
  }

  /** The safety floor on the leverage never applies. */
  lemma LeverageAtLeastOne(n: real, px: real, mx: real, sxx: real)
    requires n > 0.0 && sxx > 0.0
    ensures Leverage(n, px, mx, sxx) >= 1.0
  {
    Quotient(1.0, n);
    Squares(px - mx);
    assert Mul(px - mx, px - mx) == (px - mx) * (px - mx);
    Quotient((px - mx) * (px - mx), sxx);
  }

  // ------------------------------------------------------------- the analysis

  const MIN_DATA_POINTS: nat := 5

  datatype Snapshot = Snapshot(timestamp: real, healthScore: Option<real>)

  /** Values before display rounding. */
  datatype Prediction = Prediction(
    trend: string, velocity: real, projected: Option<real>, lower: real, upper: real,
    rSquared: real, dataPoints: nat)

  function XsOf(snapshots: seq<Snapshot>, base: real): seq<real> {
    if snapshots == [] then []
    else
      var last := snapshots[|snapshots| - 1];
      XsOf(snapshots[..|snapshots| - 1], base)
      + if last.healthScore.Some? then [last.timestamp - base] else []
  }

  function YsOf(snapshots: seq<Snapshot>): seq<real> {
    if snapshots == [] then []
    else
      var last := snapshots[|snapshots| - 1];
      YsOf(snapshots[..|snapshots| - 1])
      + if last.healthScore.Some? then [last.healthScore.value] else []
  }

  lemma Append(u: seq<real>, v: seq<real>, x: real, y: real)
    requires |u| == |v|
    ensures Sum(u + [x]) == Sum(u) + x
    ensures Times(u + [x], v + [y]) == Times(u, v) + [Mul(x, y)]
    ensures Sum(Times(u + [x], v + [y])) == Sum(Times(u, v)) + Mul(x, y)
  {
    assert (u + [x])[..|u|] == u;
    assert (Times(u, v) + [Mul(x, y)])[..|u|] == Times(u, v);
  }

  method Accumulate(snapshots: seq<Snapshot>, base: real)
    returns (xs: seq<real>, ys: seq<real>, sumX: real, sumY: real, sumXY: real, sumX2: real)
    ensures xs == XsOf(snapshots, base) && ys == YsOf(snapshots) && |xs| == |ys|
    ensures sumX == Sum(xs) && sumY == Sum(ys)
    ensures sumXY == Sum(Times(xs, ys)) && sumX2 == Sum(Times(xs, xs))
  {
    xs, ys, sumX, sumY, sumXY, sumX2 := [], [], 0.0, 0.0, 0.0, 0.0;
    for i := 0 to |snapshots|
      invariant xs == XsOf(snapshots[..i], base) && ys == YsOf(snapshots[..i]) && |xs| == |ys|
      invariant sumX == Sum(xs) && sumY == Sum(ys)
      invariant sumXY == Sum(Times(xs, ys)) && sumX2 == Sum(Times(xs, xs))
    {
      assert snapshots[..i + 1][..i] == snapshots[..i];
      if snapshots[i].healthScore.Some? {
        var x, y := snapshots[i].timestamp - base, snapshots[i].healthScore.value;
        Append(xs, ys, x, y);
        Append(xs, xs, x, x);
        Append(ys, ys, y, y);
        xs, ys := xs + [x], ys + [y];
        sumX, sumY := sumX + x, sumY + y;
        sumXY, sumX2 := sumXY + Mul(x, y), sumX2 + Mul(x, x);
      }
    }
    assert snapshots[..|snapshots|] == snapshots;
  }

  lemma ResidualsOfPrefix(xs: seq<real>, ys: seq<real>, a: real, b: real, i: nat)
    requires |xs| == |ys| && i < |xs|
    ensures var r := ys[i] - (a + Mul(b, xs[i]));
            SquaredError(xs[..i + 1], ys[..i + 1], a, b) == SquaredError(xs[..i], ys[..i], a, b) + Mul(r, r)
  {
    var before := Residuals(xs[..i], ys[..i], a, b);
    var r := ys[i] - (a + Mul(b, xs[i]));
    assert Residuals(xs[..i + 1], ys[..i + 1], a, b) == before + [r];
    Append(before, before, r, r);
  }

  method FitQuality(xs: seq<real>, ys: seq<real>, a: real, b: real, meanY: real)
    returns (ssRes: real, ssTot: real)
    requires |xs| == |ys|
    ensures ssRes == SquaredError(xs, ys, a, b) && ssTot == SquaredError(xs, ys, meanY, 0.0)
  {
    ssRes, ssTot := 0.0, 0.0;
    for i := 0 to |xs|
      invariant ssRes == SquaredError(xs[..i], ys[..i], a, b)
      invariant ssTot == SquaredError(xs[..i], ys[..i], meanY, 0.0)
    {
      ResidualsOfPrefix(xs, ys, a, b, i);
      ResidualsOfPrefix(xs, ys, meanY, 0.0, i);
      var predicted := a + Mul(b, xs[i]);
      ssRes := ssRes + Mul(ys[i] - predicted, ys[i] - predicted);
      assert meanY + Mul(0.0, xs[i]) == meanY;
      ssTot := ssTot + Mul(ys[i] - meanY, ys[i] - meanY);
    }
    assert xs[..|xs|] == xs && ys[..|ys|] == ys;
  }

  function Clamp(x: real): (r: real)
    ensures 0.0 <= r <= 100.0
    ensures x <= 0.0 ==> r == 0.0
    ensures x >= 100.0 ==> r == 100.0
    ensures 0.0 <= x <= 100.0 ==> r == x
  {
    if x < 0.0 then 0.0 else if x > 100.0 then 100.0 else x
  }

  function Trend(velocity: real): (trend: string)
    ensures trend == "stable" <==> -0.5 < velocity < 0.5
    ensures trend == "improving" <==> velocity >= 0.5
    ensures trend == "degrading" <==> velocity <= -0.5
  {
    assert "improving"[0] != "degrading"[0];
    if -0.5 < velocity < 0.5 then "stable" else if velocity > 0.0 then "improving" else "degrading"
  }

  /** Half the width of the prediction interval. */
  method Margin(n: real, ssRes: real, px: real, mx: real, sxx: real, sqrt: real -> real) returns (m: real)
    requires n > 2.0 && sxx > 0.0 && ssRes >= 0.0
    requires forall v :: v >= 0.0 ==> sqrt(v) >= 0.0 && sqrt(v) * sqrt(v) == v
    ensures m >= 0.0
    ensures m == 1.96 * Mul(sqrt(ssRes / (n - 2.0)), sqrt(Leverage(n, px, mx, sxx)))
  {
    var mse := ssRes / (n - 2.0);
    Quotient(ssRes, n - 2.0);
    var leverage := Leverage(n, px, mx, sxx);
    LeverageAtLeastOne(n, px, mx, sxx);
    if leverage < 1.0 {
      leverage := 1.0;
    }
    var se, sl := sqrt(mse), sqrt(leverage);
    NonNegativeProduct(se, sl);
    m := 1.96 * Mul(se, sl);
  }

  lemma NonNegativeProduct(x: real, y: real)
    requires x >= 0.0 && y >= 0.0
    ensures Mul(x, y) >= 0.0
  {
    if x > 0.0 && y > 0.0 {
      PositiveProduct(x, y);
    }
  }

  // Sum of squared deviations of the timestamps, with the program's lower bound.
  function Spread(n: real, sumX: real, sumX2: real): (r: real)
    requires n > 0.0
    ensures r > 0.0
  {
    var sxx := sumX2 - sumX * sumX / n;
    if sxx < 0.0000000001 then 0.0000000001 else sxx
  }

  // Half the width of the 95% interval, one hour after the last point.
  ghost function HalfWidth(xs: seq<real>, ssRes: real, sqrt: real -> real): real
    requires |xs| > 2
  {
    var n := |xs| as real;
    var sxx := Spread(n, Sum(xs), Sum(Times(xs, xs)));
    1.96 * Mul(sqrt(ssRes / (n - 2.0)), sqrt(Leverage(n, xs[|xs| - 1] + 3600.0, Mean(xs), sxx)))
  }

  /** What a prediction promises about the data and the line fitted to it. */
  ghost predicate Sound(p: Prediction, xs: seq<real>, ys: seq<real>, a: real, b: real, sqrt: real -> real) {
    && Fitted(xs, ys, a, b) && |xs| > 2
    && (var raw, half := a + Mul(b, xs[|xs| - 1] + 3600.0), HalfWidth(xs, SquaredError(xs, ys, a, b), sqrt);
        p.lower == Clamp(raw - half) && p.upper == Clamp(raw + half) && half >= 0.0)
    && p.velocity == b * 3600.0
    && (p.trend == "stable" <==> -0.5 < p.velocity < 0.5)
    && (p.trend == "improving" <==> p.velocity >= 0.5)
    && (p.trend == "degrading" <==> p.velocity <= -0.5)
    && p.projected == Some(Clamp(a + Mul(b, xs[|xs| - 1] + 3600.0)))
    && 0.0 <= p.lower <= p.projected.value <= p.upper <= 100.0
    && p.rSquared == RSquared(SquaredError(xs, ys, a, b), SquaredError(xs, ys, Mean(ys), 0.0))
    && 0.0 <= p.rSquared <= 1.0
  }

  method Quality(xs: seq<real>, ys: seq<real>, a: real, b: real) returns (ssRes: real, rSquared: real)
    requires Fitted(xs, ys, a, b)
    ensures ssRes == SquaredError(xs, ys, a, b) >= 0.0
    ensures rSquared == RSquared(ssRes, SquaredError(xs, ys, Mean(ys), 0.0)) && 0.0 <= rSquared <= 1.0
  {
    var ssTot;
    var meanY := Mean(ys);
    ssRes, ssTot := FitQuality(xs, ys, a, b, meanY);
    ResidualAtMostTotal(xs, ys, a, b, meanY);
    RSquaredIsAFraction(ssRes, ssTot);
    rSquared := RSquared(ssRes, ssTot);
    if rSquared < 0.0 {
      rSquared := 0.0;
    }
  }

  // ------------------------------------------------- what the leverage measures

  /** Sum of squared deviations from the mean. */
  function SquaredSpread(xs: seq<real>): real
    requires xs != []
  {
    Sum(Times(Deviations(xs, Mean(xs)), Deviations(xs, Mean(xs))))
  }

  /** The weight of each value in the prediction at px; it depends on the timestamps only. */
  function Weights(xs: seq<real>, px: real): (w: seq<real>)
    requires xs != [] && SquaredSpread(xs) > 0.0
    ensures |w| == |xs|
  {
    var m, k := Mean(xs), (px - Mean(xs)) / SquaredSpread(xs);
    seq(|xs|, i requires 0 <= i < |xs| => 1.0 / (|xs| as real) + Mul(k, xs[i] - m))
  }

  lemma SumOfDeviations(xs: seq<real>)
    requires xs != []
    ensures Sum(Deviations(xs, Mean(xs))) == 0.0
  {
    var m, ones := Mean(xs), Ones(|xs|);
    SumOfOnes(|xs|);
    SumOfCombination(1.0, xs, -m, ones, Deviations(xs, m));
    MeanTimes(Sum(xs), |xs| as real);
  }

  lemma MeanTimes(sx: real, n: real)
    requires n > 0.0
    ensures Mul(1.0, sx) + Mul(-(sx / n), n) == 0.0
  {
    assert (sx / n) * n == sx;
  }

  lemma DeviationsTimes(xs: seq<real>, ys: seq<real>, m: real, k: real)
    requires |xs| == |ys| && k == -m
    ensures Sum(Times(Deviations(xs, m), ys)) == Mul(1.0, Sum(Times(xs, ys))) + Mul(k, Sum(ys))
  {
    var d := Deviations(xs, m);
    forall i | 0 <= i < |xs| ensures Times(d, ys)[i] == Mul(1.0, Times(xs, ys)[i]) + Mul(k, ys[i]) {
      ShiftedProduct(xs[i], ys[i], m, k, d[i]);
    }
    SumOfCombination(1.0, Times(xs, ys), k, ys, Times(d, ys));
  }

  lemma ShiftedProduct(x: real, y: real, m: real, k: real, d: real)
    requires k == -m && d == x - m
    ensures Mul(d, y) == Mul(1.0, Mul(x, y)) + Mul(k, y)
  {
  }

  lemma WeightedTerm(inv: real, k: real, d: real, y: real, w: real, dy: real)
    requires w == inv + Mul(k, d) && dy == Mul(d, y)
    ensures Mul(w, y) == Mul(inv, y) + Mul(k, dy)
  {
    assert (inv + k * d) * y == inv * y + k * (d * y);
  }

  lemma WeightedSum(xs: seq<real>, ys: seq<real>, m: real, neg: real, inv: real, k: real, w: seq<real>)
    requires |xs| == |ys| == |w| && neg == -m
    requires forall i | 0 <= i < |xs| :: w[i] == inv + Mul(k, Deviations(xs, m)[i])
    ensures Sum(Times(w, ys)) == Mul(inv, Sum(ys)) + Mul(k, Mul(1.0, Sum(Times(xs, ys))) + Mul(neg, Sum(ys)))
  {
    var d := Deviations(xs, m);
    forall i | 0 <= i < |xs| ensures Times(w, ys)[i] == Mul(inv, ys[i]) + Mul(k, Times(d, ys)[i]) {
      WeightedTerm(inv, k, d[i], ys[i], w[i], Times(d, ys)[i]);
    }
    SumOfCombination(inv, ys, k, Times(d, ys), Times(w, ys));
    DeviationsTimes(xs, ys, m, neg);
  }

  lemma SlopeTimesSpread(n: real, sx: real, sy: real, sxy: real, sx2: real, m: real, neg: real, t: real, b: real)
    requires n > 0.0 && t > 0.0 && m == sx / n && neg == -m && Denominator(n, sx, sx2) == Mul(n, t)
    requires Denominator(n, sx, sx2) != 0.0 && b == Slope(n, sx, sy, sxy, sx2)
    ensures Mul(b, t) == Mul(1.0, sxy) + Mul(neg, sy)
  {
    assert b * (n * t) == n * sxy - sx * sy;
    assert n * (b * t) == b * (n * t);
    assert m * n == sx;
    assert n * (m * sy) == (m * n) * sy;
    assert n * (sxy - m * sy) == n * sxy - n * (m * sy);
    Cancel(n, b * t, sxy - m * sy);
  }

  lemma PredictionFromWeights(n: real, sx: real, sy: real, m: real, t: real, a: real, b: real, px: real, rest: real)
    requires n > 0.0 && t > 0.0 && m == sx / n && a == Intercept(n, sx, sy, b) && rest == Mul(b, t)
    ensures Mul(1.0 / n, sy) + Mul((px - m) / t, rest) == a + Mul(b, px)
  {
    var k := (px - m) / t;
    assert k * t == px - m;
    assert k * (b * t) == b * (k * t);
    assert b * (px - m) == b * px - b * m;
    InterceptFromMean(n, sx, sy, m, a, b);
  }

  lemma InterceptFromMean(n: real, sx: real, sy: real, m: real, a: real, b: real)
    requires n > 0.0 && m == sx / n && a == Intercept(n, sx, sy, b)
    ensures a == Mul(1.0 / n, sy) - b * m
  {
    var inv := 1.0 / n;
    assert inv * n == 1.0;
    assert a * n == sy - b * sx;
    assert m * n == sx;
    assert n * (inv * sy) == (inv * n) * sy;
    assert n * (b * m) == b * (m * n);
    assert n * (inv * sy - b * m) == n * (inv * sy) - n * (b * m);
    Cancel(n, a, inv * sy - b * m);
  }

  lemma SquaredTerm(inv: real, k: real, d: real, c: real, e: real)
    requires c == 2.0 * (inv * k) && e == k * k
    ensures Mul(inv + Mul(k, d), inv + Mul(k, d)) == Mul(1.0, Mul(inv * inv, 1.0) + Mul(c, d)) + Mul(e, Mul(d, d))
  {
    assert (inv + k * d) * (inv + k * d) == inv * inv + 2.0 * (inv * (k * d)) + (k * d) * (k * d);
    assert inv * (k * d) == (inv * k) * d;
    assert (k * d) * (k * d) == (k * k) * (d * d);
  }

  lemma SumOfSquaredWeights(xs: seq<real>, px: real, inv: real, k: real)
    requires xs != [] && SquaredSpread(xs) > 0.0
    requires inv == 1.0 / (|xs| as real) && k == (px - Mean(xs)) / SquaredSpread(xs)
    ensures Sum(Times(Weights(xs, px), Weights(xs, px))) == Mul(inv * inv, |xs| as real) + Mul(k * k, SquaredSpread(xs))
  {
    var d, w, ones := Deviations(xs, Mean(xs)), Weights(xs, px), Ones(|xs|);
    var c, e := 2.0 * (inv * k), k * k;
    var line := seq(|xs|, i requires 0 <= i < |xs| => Mul(inv * inv, ones[i]) + Mul(c, d[i]));
    forall i | 0 <= i < |xs| ensures Times(w, w)[i] == Mul(1.0, line[i]) + Mul(e, Times(d, d)[i]) {
      SquaredTerm(inv, k, d[i], c, e);
    }
    SumOfOnes(|xs|);
    SumOfDeviations(xs);
    SumOfCombination(inv * inv, ones, c, d, line);
    SumOfCombination(1.0, line, e, Times(d, d), Times(w, w));
    NoContribution(c, Sum(line));
  }

  lemma NoContribution(c: real, x: real)
    ensures Mul(c, 0.0) == 0.0 && Mul(1.0, x) == x
  {
  }

  lemma LeverageArithmetic(n: real, px: real, m: real, t: real, inv: real, k: real)
    requires n > 0.0 && t > 0.0 && inv == 1.0 / n && k == (px - m) / t
    ensures 1.0 + (Mul(inv * inv, n) + Mul(k * k, t)) == Leverage(n, px, m, t)
  {
    assert inv * n == 1.0;
    assert (inv * inv) * n == inv * (inv * n);
    var q := (px - m) * (px - m) / t;
    assert q * t == (px - m) * (px - m);
    assert k * t == px - m;
    assert t * ((k * k) * t) == (k * t) * (k * t);
    Cancel(t, (k * k) * t, q);
  }

  lemma SpreadIsSquaredSpread(xs: seq<real>)
    requires xs != [] && SquaredSpread(xs) >= 0.0000000001
    ensures Spread(|xs| as real, Sum(xs), Sum(Times(xs, xs))) == SquaredSpread(xs)
  {
    DenominatorIsSpread(xs);
    SpreadFromDenominator(|xs| as real, Sum(xs), Sum(Times(xs, xs)), SquaredSpread(xs));
  }

  lemma SpreadFromDenominator(n: real, sx: real, sx2: real, t: real)
    requires n > 0.0 && Denominator(n, sx, sx2) == Mul(n, t)
    ensures t >= 0.0000000001 ==> Spread(n, sx, sx2) == t
  {
    var q := sx * sx / n;
    assert q * n == sx * sx;
    assert n * (sx2 - q) == n * sx2 - q * n;
    Cancel(n, sx2 - q, t);
  }

  /** The prediction at px is a weighted sum of the values, with weights that depend on the
      timestamps alone, and the leverage is one more than the sum of their squares: the
      variance of prediction and new value together, in units of the values' own. */
  lemma {:induction false} LeverageIsVarianceOfPrediction(xs: seq<real>, ys: seq<real>, a: real, b: real, px: real)
    requires Fitted(xs, ys, a, b) && SquaredSpread(xs) >= 0.0000000001
    ensures var w := Weights(xs, px);
            && Sum(Times(w, ys)) == a + Mul(b, px)
            && 1.0 + Sum(Times(w, w))
               == Leverage(|xs| as real, px, Mean(xs), Spread(|xs| as real, Sum(xs), Sum(Times(xs, xs))))
  {
    PredictionIsWeightedSum(xs, ys, a, b, px, Mean(xs), -Mean(xs));
    LeverageIsSumOfSquares(xs, px);
    SpreadIsSquaredSpread(xs);
  }

  lemma {:induction false} PredictionIsWeightedSum(xs: seq<real>, ys: seq<real>, a: real, b: real, px: real, m: real, neg: real)
    requires Fitted(xs, ys, a, b) && SquaredSpread(xs) > 0.0 && m == Mean(xs) && neg == -m
    ensures Sum(Times(Weights(xs, px), ys)) == a + Mul(b, px)
  {
    var n, t := |xs| as real, SquaredSpread(xs);
    DenominatorIsSpread(xs);
    WeightedSum(xs, ys, m, neg, 1.0 / n, (px - m) / t, Weights(xs, px));
    SlopeTimesSpread(n, Sum(xs), Sum(ys), Sum(Times(xs, ys)), Sum(Times(xs, xs)), m, neg, t, b);
    PredictionFromWeights(n, Sum(xs), Sum(ys), m, t, a, b, px, Mul(b, t));
  }

  lemma {:induction false} LeverageIsSumOfSquares(xs: seq<real>, px: real)
    requires xs != [] && SquaredSpread(xs) > 0.0
    ensures 1.0 + Sum(Times(Weights(xs, px), Weights(xs, px))) == Leverage(|xs| as real, px, Mean(xs), SquaredSpread(xs))
  {
    var n, m, t := |xs| as real, Mean(xs), SquaredSpread(xs);
    SumOfSquaredWeights(xs, px, 1.0 / n, (px - m) / t);
    LeverageArithmetic(n, px, m, t, 1.0 / n, (px - m) / t);
  }

  // --------------------------------------------------- what the data say

  predicate InTimeOrder(snapshots: seq<Snapshot>) {
    forall i, j | 0 <= i < j < |snapshots| :: snapshots[i].timestamp <= snapshots[j].timestamp
  }

  /** The scores never fall, or never rise. */
  predicate ScoresMove(snapshots: seq<Snapshot>, up: bool) {
    forall i, j | 0 <= i < j < |snapshots| && snapshots[i].healthScore.Some? && snapshots[j].healthScore.Some? ::
      if up then snapshots[i].healthScore.value <= snapshots[j].healthScore.value
      else snapshots[i].healthScore.value >= snapshots[j].healthScore.value
  }

  lemma {:induction false} ValuesComeFromSnapshots(snapshots: seq<Snapshot>, base: real, i: nat) returns (k: nat)
    requires i < |XsOf(snapshots, base)| == |YsOf(snapshots)|
    ensures k < |snapshots| && snapshots[k].healthScore == Some(YsOf(snapshots)[i])
    ensures XsOf(snapshots, base)[i] == snapshots[k].timestamp - base
  {
    SameLength(snapshots[..|snapshots| - 1], base);
    if i < |YsOf(snapshots[..|snapshots| - 1])| {
      k := ValuesComeFromSnapshots(snapshots[..|snapshots| - 1], base, i);
    } else {
      k := |snapshots| - 1;
    }
  }

  lemma {:induction false} SameLength(snapshots: seq<Snapshot>, base: real)
    ensures |XsOf(snapshots, base)| == |YsOf(snapshots)|
  {
    if snapshots != [] {
      SameLength(snapshots[..|snapshots| - 1], base);
    }
  }

  lemma {:induction false} DataInOrder(snapshots: seq<Snapshot>, base: real, up: bool)
    requires InTimeOrder(snapshots)
    ensures Monotone(XsOf(snapshots, base), true)
    ensures ScoresMove(snapshots, up) ==> Monotone(YsOf(snapshots), up)
  {
    if snapshots != [] {
      var init, n := snapshots[..|snapshots| - 1], |snapshots| - 1;
      DataInOrder(init, base, up);
      SameLength(init, base);
      forall i | 0 <= i < |XsOf(init, base)|
        ensures XsOf(init, base)[i] <= snapshots[n].timestamp - base
        ensures ScoresMove(snapshots, up) && snapshots[n].healthScore.Some? ==>
                  if up then YsOf(init)[i] <= snapshots[n].healthScore.value
                  else YsOf(init)[i] >= snapshots[n].healthScore.value
      {
        var k := ValuesComeFromSnapshots(init, base, i);
        assert init[k] == snapshots[k];
      }
    }
  }

  // The velocity points the way the scores move.
  predicate FollowsScores(p: Prediction, up: bool) {
    if up then p.velocity >= 0.0 && p.trend != "degrading" else p.velocity <= 0.0 && p.trend != "improving"
  }

  lemma {:induction false} TrendFollowsScores(p: Prediction, snapshots: seq<Snapshot>, base: real, a: real, b: real,
                                              sqrt: real -> real, up: bool)
    requires Sound(p, XsOf(snapshots, base), YsOf(snapshots), a, b, sqrt)
    requires InTimeOrder(snapshots) && ScoresMove(snapshots, up)
    ensures FollowsScores(p, up)
  {
    DataInOrder(snapshots, base, up);
    SlopeFollowsData(XsOf(snapshots, base), YsOf(snapshots), a, b, up);
  }

  lemma NoWidth(sqrt: real -> real, n: real, l: real)
    requires n > 2.0 && (forall v :: v >= 0.0 ==> sqrt(v) >= 0.0 && sqrt(v) * sqrt(v) == v)
    ensures 1.96 * Mul(sqrt(0.0 / (n - 2.0)), l) == 0.0
  {
    var zero := 0.0 / (n - 2.0);
    assert zero * (n - 2.0) == 0.0;
    if zero != 0.0 {
      NonZeroProduct(zero, n - 2.0);
    }
    var root := sqrt(zero);
    assert root * root == zero;
    if root > 0.0 {
      PositiveProduct(root, root);
    }
  }

  /** Scores on one line are continued along it: the projection is its value an hour later,
      kept between 0 and 100, without any uncertainty. */
  lemma {:induction false} LinearScoresAreExtrapolated(p: Prediction, xs: seq<real>, ys: seq<real>, a: real, b: real,
                                                       sqrt: real -> real, a': real, b': real)
    requires Sound(p, xs, ys, a, b, sqrt) && OnLine(xs, ys, a', b')
    requires forall v :: v >= 0.0 ==> sqrt(v) >= 0.0 && sqrt(v) * sqrt(v) == v
    ensures var next := a' + Mul(b', xs[|xs| - 1] + 3600.0);
            p.projected == Some(if next < 0.0 then 0.0 else if next > 100.0 then 100.0 else next)
    ensures p.projected == Some(p.lower) == Some(p.upper) && p.rSquared == 1.0 && p.velocity == b' * 3600.0
  {
    ExactDataIsRecovered(xs, ys, a, b, a', b');
    RSquaredIsOneIffCollinear(xs, ys, a, b);
    var n := |xs| as real;
    var sxx := Spread(n, Sum(xs), Sum(Times(xs, xs)));
    NoWidth(sqrt, n, sqrt(Leverage(n, xs[|xs| - 1] + 3600.0, Mean(xs), sxx)));
  }

  method Interval(xs: seq<real>, ssRes: real, sumX: real, sumX2: real, sqrt: real -> real) returns (margin: real)
    requires |xs| >= MIN_DATA_POINTS && ssRes >= 0.0
    requires forall v :: v >= 0.0 ==> sqrt(v) >= 0.0 && sqrt(v) * sqrt(v) == v
    requires sumX == Sum(xs) && sumX2 == Sum(Times(xs, xs))
    ensures margin == HalfWidth(xs, ssRes, sqrt) >= 0.0
  {
    var n := |xs| as real;
    margin := Margin(n, ssRes, xs[|xs| - 1] + 3600.0, sumX / n, Spread(n, sumX, sumX2), sqrt);
  }

  method Predict(xs: seq<real>, ys: seq<real>, sumX: real, sumX2: real, slope: real, intercept: real,
                 dataPoints: nat, sqrt: real -> real)
    returns (p: Prediction)
    requires Fitted(xs, ys, intercept, slope) && |xs| >= MIN_DATA_POINTS
    requires forall v :: v >= 0.0 ==> sqrt(v) >= 0.0 && sqrt(v) * sqrt(v) == v
    requires sumX == Sum(xs) && sumX2 == Sum(Times(xs, xs))
    ensures Sound(p, xs, ys, intercept, slope, sqrt) && p.dataPoints == dataPoints
  {
    var ssRes, rSquared := Quality(xs, ys, intercept, slope);
    var velocity := slope * 3600.0;
    var raw := intercept + Mul(slope, xs[|xs| - 1] + 3600.0);
    var margin := Interval(xs, ssRes, sumX, sumX2, sqrt);
    p := Prediction(Trend(velocity), velocity, Some(Clamp(raw)), Clamp(raw - margin), Clamp(raw + margin),
                    rSquared, dataPoints);
  }

  /** None exactly when there are too few scored snapshots.  If all timestamps coincide
      there is no trend; otherwise the least-squares line gives the trend, R squared is
      a fraction and the interval contains the projection. */
  method Analyze(snapshots: seq<Snapshot>, sqrt: real -> real) returns (r: Option<Prediction>)
    requires forall v :: v >= 0.0 ==> sqrt(v) >= 0.0 && sqrt(v) * sqrt(v) == v
    ensures r.None? <==> |snapshots| < MIN_DATA_POINTS || |YsOf(snapshots)| < MIN_DATA_POINTS
    ensures r.Some? ==>
              var xs, ys := XsOf(snapshots, snapshots[0].timestamp), YsOf(snapshots);
              if AllEqual(xs) then
                r.value == Prediction("stable", 0.0, snapshots[|snapshots| - 1].healthScore, 0.0, 0.0, 0.0, |snapshots|)
              else
                r.value.dataPoints == |snapshots| && exists a, b :: Sound(r.value, xs, ys, a, b, sqrt)
    ensures forall up :: r.Some? && InTimeOrder(snapshots) && ScoresMove(snapshots, up) ==> FollowsScores(r.value, up)
  {
    if |snapshots| < MIN_DATA_POINTS {
      return None;
    }
    var xs, ys, sumX, sumY, sumXY, sumX2 := Accumulate(snapshots, snapshots[0].timestamp);
    if |xs| < MIN_DATA_POINTS {
      return None;
    }
    var n := |xs| as real;
    DenominatorSign(xs);
    if Denominator(n, sumX, sumX2) == 0.0 {
      return Some(Prediction("stable", 0.0, snapshots[|snapshots| - 1].healthScore, 0.0, 0.0, 0.0, |snapshots|));
    }
    var slope := Slope(n, sumX, sumY, sumXY, sumX2);
    var intercept := Intercept(n, sumX, sumY, slope);
    var p := Predict(xs, ys, sumX, sumX2, slope, intercept, |snapshots|, sqrt);
    forall up | InTimeOrder(snapshots) && ScoresMove(snapshots, up) ensures FollowsScores(p, up) {
      TrendFollowsScores(p, snapshots, snapshots[0].timestamp, intercept, slope, sqrt, up);
    }
    return Some(p);
  }
}
