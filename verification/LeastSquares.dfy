/** Sums over an index range, and the least-squares line through n points. */
module LeastSquares {
  type Series = nat -> real

  function Sum(f: Series, n: nat): real {
    if n == 0 then 0.0 else Sum(f, n - 1) + f(n - 1)
  }

  function Times(a: real, b: real): real {
    a * b
  }

  function Square(v: real): real {
    Times(v, v)
  }

  function Constant(c: real): Series {
    (i: nat) => c
  }

  function Squares(f: Series): Series {
    (i: nat) => Square(f(i))
  }

  function Products(f: Series, g: Series): Series {
    (i: nat) => f(i) * g(i)
  }

  function Minus(f: Series, c: real): Series {
    (i: nat) => f(i) - c
  }

  /** a + b * x, elementwise. */
  function Affine(a: real, b: real, x: Series): Series {
    (i: nat) => a + b * x(i)
  }

  // ---- Sums

  /** h = f + k * g, pointwise. */
  ghost predicate Combines(h: Series, f: Series, k: real, g: Series, n: nat) {
    forall i :: 0 <= i < n ==> h(i) == f(i) + k * g(i)
  }

  lemma AddProduct(k: real, s: real, t: real)
    ensures k * (s + t) == k * s + k * t
  {
  }

  lemma {:induction false} SumCombined(h: Series, f: Series, k: real, g: Series, n: nat)
    requires Combines(h, f, k, g, n)
    ensures Sum(h, n) == Sum(f, n) + k * Sum(g, n)
  {
    if n > 0 {
      SumCombined(h, f, k, g, n - 1);
      AddProduct(k, Sum(g, n - 1), g(n - 1));
    } else {
      assert k * 0.0 == 0.0;
    }
  }

  lemma {:induction false} SumConstant(c: real, n: nat)
    ensures Sum(Constant(c), n) == (n as real) * c
  {
    if n > 0 {
      SumConstant(c, n - 1);
      AddProduct(c, (n - 1) as real, 1.0);
      assert n as real == (n - 1) as real + 1.0;
    } else {
      assert 0.0 * c == 0.0;
    }
  }

  lemma {:induction false} SumZero(f: Series, n: nat)
    requires forall i :: 0 <= i < n ==> f(i) == 0.0
    ensures Sum(f, n) == 0.0
  {
    if n > 0 {
      SumZero(f, n - 1);
    }
  }

  lemma PositiveProduct(a: real, b: real)
    requires a > 0.0 && b > 0.0
    ensures Times(a, b) > 0.0
  {
  }

  lemma NegatedProduct(a: real, b: real)
    ensures Times(-a, -b) == Times(a, b)
  {
  }

  lemma SquareSign(v: real)
    ensures Square(v) >= 0.0
    ensures v != 0.0 ==> Square(v) > 0.0
    ensures v == 0.0 ==> Square(v) == 0.0
  {
    if v > 0.0 {
      PositiveProduct(v, v);
    } else if v < 0.0 {
      PositiveProduct(-v, -v);
      NegatedProduct(v, v);
    }
  }

  /** A sum of squares is non-negative, and zero only when every term is. */
  lemma {:induction false} SumSquares(f: Series, n: nat)
    ensures Sum(Squares(f), n) >= 0.0
    ensures Sum(Squares(f), n) == 0.0 ==> forall i :: 0 <= i < n ==> f(i) == 0.0
  {
    if n > 0 {
      SumSquares(f, n - 1);
      SquareSign(f(n - 1));
    }
  }

  function Mean(f: Series, n: nat): real
    requires n > 0
  {
    Sum(f, n) / (n as real)
  }

  lemma MeanTimes(f: Series, n: nat)
    requires n > 0
    ensures (n as real) * Mean(f, n) == Sum(f, n)
  {
  }

  /** Deviations from the mean sum to zero. */
  lemma DeviationsBalance(f: Series, n: nat)
    requires n > 0
    ensures Sum(Minus(f, Mean(f, n)), n) == 0.0
  {
    var m := Mean(f, n);
    SumCombined(Minus(f, m), f, -1.0, Constant(m), n);
    SumConstant(m, n);
    MeanTimes(f, n);
  }

  // ---- The fitted line

  datatype Line = Line(offset: real, drift: real)

  function Denominator(x: Series, n: nat): real
    requires n > 0
  {
    Sum(Squares(Minus(x, Mean(x, n))), n)
  }

  function Numerator(x: Series, y: Series, n: nat): real
    requires n > 0
  {
    Sum(Products(Minus(x, Mean(x, n)), Minus(y, Mean(y, n))), n)
  }

  /** The drift is zero when all abscissae coincide. */
  function Fit(x: Series, y: Series, n: nat): Line
    requires n > 0
  {
    var denominator := Denominator(x, n);
    var drift := if denominator != 0.0 then Numerator(x, y, n) / denominator else 0.0;
    Line(Mean(y, n) - drift * Mean(x, n), drift)
  }

  function Residual(x: Series, y: Series, l: Line): Series {
    (i: nat) => y(i) - (l.offset + l.drift * x(i))
  }

  /** The sum of squared residuals of a line. */
  function SquaredError(x: Series, y: Series, n: nat, l: Line): real {
    Sum(Squares(Residual(x, y, l)), n)
  }

  lemma ResidualCentred(x: real, y: real, mx: real, my: real, b: real)
    ensures y - ((my - b * mx) + b * x) == (y - my) + (-b) * (x - mx)
  {
    AddProduct(b, x, -mx);
    assert b * (-mx) == -(b * mx);
    assert (-b) * (x - mx) == -(b * (x - mx));
  }

  /** The fit's residual is the deviation of y less drift times the deviation of x. */
  lemma FitResidual(x: Series, y: Series, n: nat)
    requires n > 0
    ensures var fit := Fit(x, y, n);
            Combines(Residual(x, y, fit), Minus(y, Mean(y, n)), -fit.drift, Minus(x, Mean(x, n)), n)
  {
    var fit := Fit(x, y, n);
    forall i | 0 <= i < n
      ensures Residual(x, y, fit)(i) == Minus(y, Mean(y, n))(i) + (-fit.drift) * Minus(x, Mean(x, n))(i)
    {
      ResidualCentred(x(i), y(i), Mean(x, n), Mean(y, n), fit.drift);
    }
  }

  /** Residuals of the fit sum to zero. */
  lemma ResidualsBalance(x: Series, y: Series, n: nat)
    requires n > 0
    ensures Sum(Residual(x, y, Fit(x, y, n)), n) == 0.0
  {
    var fit := Fit(x, y, n);
    var dx, dy := Minus(x, Mean(x, n)), Minus(y, Mean(y, n));
    FitResidual(x, y, n);
    SumCombined(Residual(x, y, fit), dy, -fit.drift, dx, n);
    DeviationsBalance(x, n);
    DeviationsBalance(y, n);
    assert (-fit.drift) * 0.0 == 0.0;
  }

  lemma TimesDeviation(r: real, dy: real, b: real, dx: real)
    requires r == dy + (-b) * dx
    ensures dx * r == dx * dy + (-b) * Square(dx)
  {
    AddProduct(dx, dy, (-b) * dx);
    assert dx * ((-b) * dx) == (-b) * (dx * dx);
  }

  lemma SlopeTimes(b: real, den: real, num: real)
    requires den != 0.0 && b == num / den
    ensures num + (-b) * den == 0.0
  {
    assert b * den == num;
    assert (-b) * den == -(b * den);
  }

  /** Residuals of the fit are orthogonal to the deviations of x. */
  lemma ResidualsOrthogonal(x: Series, y: Series, n: nat)
    requires n > 0
    ensures Sum(Products(Minus(x, Mean(x, n)), Residual(x, y, Fit(x, y, n))), n) == 0.0
  {
    var fit := Fit(x, y, n);
    var dx, dy, r := Minus(x, Mean(x, n)), Minus(y, Mean(y, n)), Residual(x, y, fit);
    if Denominator(x, n) == 0.0 {
      SumSquares(dx, n);
      ZeroProducts(dx, r, n);
    } else {
      FitResidual(x, y, n);
      DeviationProducts(dx, dy, r, fit.drift, n);
      SlopeTimes(fit.drift, Denominator(x, n), Numerator(x, y, n));
    }
  }

  lemma ZeroProducts(dx: Series, r: Series, n: nat)
    requires forall i :: 0 <= i < n ==> dx(i) == 0.0
    ensures Sum(Products(dx, r), n) == 0.0
  {
    forall i | 0 <= i < n ensures Products(dx, r)(i) == 0.0 {
      assert dx(i) == 0.0;
    }
    SumZero(Products(dx, r), n);
  }

  lemma DeviationAt(dx: Series, dy: Series, r: Series, b: real, i: nat)
    requires r(i) == dy(i) + (-b) * dx(i)
    ensures Products(dx, r)(i) == Products(dx, dy)(i) + (-b) * Squares(dx)(i)
  {
    TimesDeviation(r(i), dy(i), b, dx(i));
  }

  lemma DeviationsCombine(dx: Series, dy: Series, r: Series, b: real, n: nat)
    requires Combines(r, dy, -b, dx, n)
    ensures Combines(Products(dx, r), Products(dx, dy), -b, Squares(dx), n)
  {
    forall i | 0 <= i < n ensures Products(dx, r)(i) == Products(dx, dy)(i) + (-b) * Squares(dx)(i) {
      DeviationAt(dx, dy, r, b, i);
    }
  }

  lemma DeviationProducts(dx: Series, dy: Series, r: Series, b: real, n: nat)
    requires Combines(r, dy, -b, dx, n)
    ensures Sum(Products(dx, r), n) == Sum(Products(dx, dy), n) + (-b) * Sum(Squares(dx), n)
  {
    DeviationsCombine(dx, dy, r, b, n);
    SumCombined(Products(dx, r), Products(dx, dy), -b, Squares(dx), n);
  }

  // ---- Any line against the fit

  lemma SquareOfSum(r: real, d: real)
    ensures Square(r + d) == (Square(r) + Square(d)) + 2.0 * (r * d)
  {
    AddProduct(r + d, r, d);
    AddProduct(r, r, d);
    AddProduct(d, r, d);
  }

  function GapSlope(fit: Line, l: Line): real {
    fit.drift - l.drift
  }

  function GapAtMean(m: real, fit: Line, l: Line): real {
    (fit.offset - l.offset) + GapSlope(fit, l) * m
  }

  /** How much the fit lies above a line, read through the mean of x. */
  function Gap(x: Series, n: nat, fit: Line, l: Line): Series
    requires n > 0
  {
    Affine(GapAtMean(Mean(x, n), fit, l), GapSlope(fit, l), Minus(x, Mean(x, n)))
  }

  lemma LinesDiffer(x: real, y: real, m: real, fit: Line, l: Line)
    ensures y - (l.offset + l.drift * x)
         == (y - (fit.offset + fit.drift * x)) + (GapAtMean(m, fit, l) + GapSlope(fit, l) * (x - m))
  {
    var v := fit.drift - l.drift;
    AddProduct(v, m, x - m);
    assert m + (x - m) == x;
    AddProduct(x, fit.drift, -l.drift);
    assert x * (-l.drift) == -(l.drift * x);
  }

  lemma SumScaled(r: Series, u: real, n: nat)
    ensures Sum(Products(Constant(u), r), n) == u * Sum(r, n)
  {
    assert Combines(Products(Constant(u), r), Constant(0.0), u, r, n);
    SumCombined(Products(Constant(u), r), Constant(0.0), u, r, n);
    SumZero(Constant(0.0), n);
  }

  lemma CrossSum(r: Series, dx: Series, u: real, v: real, n: nat)
    ensures Sum(Products(r, Affine(u, v, dx)), n) == u * Sum(r, n) + v * Sum(Products(dx, r), n)
  {
    var scaled := Products(Constant(u), r);
    var cross := Products(r, Affine(u, v, dx));
    forall i | 0 <= i < n ensures cross(i) == scaled(i) + v * Products(dx, r)(i) {
      Distribute(r(i), u, v, dx(i));
    }
    SumCombined(cross, scaled, v, Products(dx, r), n);
    SumScaled(r, u, n);
  }

  /** The cross terms between residuals and gaps cancel. */
  lemma CrossVanishes(x: Series, y: Series, n: nat, u: real, v: real)
    requires n > 0
    ensures Sum(Products(Residual(x, y, Fit(x, y, n)), Affine(u, v, Minus(x, Mean(x, n)))), n) == 0.0
  {
    CrossSum(Residual(x, y, Fit(x, y, n)), Minus(x, Mean(x, n)), u, v, n);
    ResidualsBalance(x, y, n);
    ResidualsOrthogonal(x, y, n);
    assert u * 0.0 == 0.0 && v * 0.0 == 0.0;
  }

  lemma Distribute(r: real, u: real, v: real, w: real)
    ensures r * (u + v * w) == u * r + v * (w * r)
  {
    AddProduct(r, u, v * w);
    assert r * (v * w) == v * (w * r);
  }

  lemma ResidualOfLine(x: Series, y: Series, n: nat, fit: Line, l: Line, i: nat)
    requires n > 0
    ensures Residual(x, y, l)(i) == Residual(x, y, fit)(i) + Gap(x, n, fit, l)(i)
  {
    LinesDiffer(x(i), y(i), Mean(x, n), fit, l);
  }

  lemma SquareAt(w: Series, r: Series, d: Series, i: nat)
    requires w(i) == r(i) + d(i)
    ensures Squares(w)(i) == (Squares(r)(i) + Squares(d)(i)) + 2.0 * Products(r, d)(i)
  {
    SquareOfSum(r(i), d(i));
  }

  lemma SquaresOfSums(w: Series, r: Series, d: Series, n: nat)
    requires forall i :: 0 <= i < n ==> w(i) == r(i) + d(i)
    ensures Sum(Squares(w), n) == Sum(Squares(r), n) + Sum(Squares(d), n) + 2.0 * Sum(Products(r, d), n)
  {
    var both: Series := (i: nat) => Squares(r)(i) + Squares(d)(i);
    forall i | 0 <= i < n ensures Squares(w)(i) == both(i) + 2.0 * Products(r, d)(i) {
      SquareAt(w, r, d, i);
    }
    SumCombined(Squares(w), both, 2.0, Products(r, d), n);
    assert Combines(both, Squares(r), 1.0, Squares(d), n);
    SumCombined(both, Squares(r), 1.0, Squares(d), n);
  }

  /** Any line's error is the fit's plus the squared distance between the two lines. */
  lemma ErrorDecomposes(x: Series, y: Series, n: nat, l: Line)
    requires n > 0
    ensures var fit := Fit(x, y, n);
            SquaredError(x, y, n, l) == SquaredError(x, y, n, fit) + Sum(Squares(Gap(x, n, fit, l)), n)
  {
    var fit := Fit(x, y, n);
    forall i | 0 <= i < n ensures Residual(x, y, l)(i) == Residual(x, y, fit)(i) + Gap(x, n, fit, l)(i) {
      ResidualOfLine(x, y, n, fit, l, i);
    }
    SquaresOfSums(Residual(x, y, l), Residual(x, y, fit), Gap(x, n, fit, l), n);
    CrossVanishes(x, y, n, GapAtMean(Mean(x, n), fit, l), GapSlope(fit, l));
  }

  /** No affine function of the abscissa has a smaller squared error than the fit. */
  lemma FitMinimises(x: Series, y: Series, n: nat, l: Line)
    requires n > 0
    ensures SquaredError(x, y, n, Fit(x, y, n)) <= SquaredError(x, y, n, l)
  {
    ErrorDecomposes(x, y, n, l);
    SumSquares(Gap(x, n, Fit(x, y, n), l), n);
  }

  lemma ZeroSlope(u: real, v: real, p: real, q: real)
    requires u + v * p == 0.0 && u + v * q == 0.0 && p != q
    ensures v == 0.0 && u == 0.0
  {
    var d := p - q;
    AddProduct(v, p, -q);
    assert v * (-q) == -(v * q);
    assert v * d == 0.0;
  }

  /** With two distinct abscissae the minimiser is unique. */
  lemma FitUnique(x: Series, y: Series, n: nat, l: Line, i: nat, j: nat)
    requires i < n && j < n && x(i) != x(j)
    requires SquaredError(x, y, n, l) <= SquaredError(x, y, n, Fit(x, y, n))
    ensures l == Fit(x, y, n)
  {
    var fit := Fit(x, y, n);
    var gap := Gap(x, n, fit, l);
    ErrorDecomposes(x, y, n, l);
    SumSquares(gap, n);
    assert gap(i) == 0.0 && gap(j) == 0.0;
    var m := Mean(x, n);
    ZeroSlope(GapAtMean(m, fit, l), GapSlope(fit, l), x(i) - m, x(j) - m);
    assert GapSlope(fit, l) * m == 0.0;
  }

  /** Points on one line are fitted by that line, as soon as two abscissae differ. */
  lemma FitRecovers(x: Series, y: Series, n: nat, l: Line, i: nat, j: nat)
    requires i < n && j < n && x(i) != x(j)
    requires forall k :: 0 <= k < n ==> y(k) == l.offset + l.drift * x(k)
    ensures Fit(x, y, n) == l
  {
    forall k | 0 <= k < n ensures Squares(Residual(x, y, l))(k) == 0.0 {
      SquareSign(Residual(x, y, l)(k));
    }
    SumZero(Squares(Residual(x, y, l)), n);
    SumSquares(Residual(x, y, Fit(x, y, n)), n);
    FitUnique(x, y, n, l, i, j);
  }

  // ---- Points near a line

  lemma {:induction false} TermOfSquares(f: Series, n: nat, k: nat)
    requires k < n
    ensures Square(f(k)) <= Sum(Squares(f), n)
  {
    SumSquares(f, n - 1);
    SquareSign(f(n - 1));
    if k < n - 1 {
      TermOfSquares(f, n - 1, k);
    }
  }

  lemma SquareOrder(a: real, b: real)
    requires b >= 0.0
    ensures -b <= a <= b <==> Square(a) <= Square(b)
  {
    if a > b {
      PositiveProduct(a + b, a - b);
    } else if a < -b {
      PositiveProduct(b - a, -a - b);
    } else {
      assert (b - a) * (b + a) >= 0.0;
    }
  }

  lemma {:induction false} SquaresUpTo(f: Series, n: nat, eta: real)
    requires eta >= 0.0 && forall k :: 0 <= k < n ==> -eta <= f(k) <= eta
    ensures Sum(Squares(f), n) <= Times(n as real, Square(eta))
  {
    if n > 0 {
      SquaresUpTo(f, n - 1, eta);
      SquareOrder(f(n - 1), eta);
      AddProduct(Square(eta), (n - 1) as real, 1.0);
      assert n as real == (n - 1) as real + 1.0;
    }
  }

  lemma SquaredTimes(a: real, b: real, m: real)
    requires m <= Square(a)
    ensures Times(m, Square(b)) <= Square(Times(a, b))
  {
    SquareSign(b);
    assert (Square(a) - m) * Square(b) >= 0.0;
    assert a * b * (a * b) == a * a * (b * b);
  }

  lemma GapUnderError(x: Series, y: Series, n: nat, l: Line, k: nat)
    requires k < n
    ensures Square(Gap(x, n, Fit(x, y, n), l)(k)) <= SquaredError(x, y, n, l)
  {
    ErrorDecomposes(x, y, n, l);
    SumSquares(Residual(x, y, Fit(x, y, n)), n);
    TermOfSquares(Gap(x, n, Fit(x, y, n), l), n, k);
  }

  lemma RootCovers(n: nat, root: nat)
    requires n <= root * root
    ensures n as real <= Square(root as real)
  {
    assert (root * root) as real == root as real * root as real;
  }

  lemma ErrorNear(x: Series, y: Series, n: nat, l: Line, eta: real, root: nat)
    requires n <= root * root && eta >= 0.0
    requires forall i :: 0 <= i < n ==> -eta <= Residual(x, y, l)(i) <= eta
    ensures SquaredError(x, y, n, l) <= Square(Times(root as real, eta))
  {
    SquaresUpTo(Residual(x, y, l), n, eta);
    RootCovers(n, root);
    SquaredTimes(root as real, eta, n as real);
  }

  /** Points within eta of a line are fitted by one that is within root * eta of it at each of them, where root is at
      least the square root of their number. */
  lemma FitNear(x: Series, y: Series, n: nat, l: Line, eta: real, root: nat, k: nat)
    requires k < n <= root * root && eta >= 0.0
    requires forall i :: 0 <= i < n ==> -eta <= Residual(x, y, l)(i) <= eta
    ensures -Times(root as real, eta) <= Gap(x, n, Fit(x, y, n), l)(k) <= Times(root as real, eta)
  {
    GapUnderError(x, y, n, l, k);
    ErrorNear(x, y, n, l, eta, root);
    NonNegativeTimes(root as real, eta);
    SquareOrder(Gap(x, n, Fit(x, y, n), l)(k), Times(root as real, eta));
  }

  lemma NonNegativeTimes(a: real, b: real)
    requires a >= 0.0 && b >= 0.0
    ensures Times(a, b) >= 0.0
  {
  }

  /** The gap at an abscissa is the difference of the two lines there. */
  lemma GapIs(x: Series, n: nat, fit: Line, l: Line, k: nat)
    requires n > 0
    ensures Gap(x, n, fit, l)(k) == (fit.offset + Times(fit.drift, x(k))) - (l.offset + Times(l.drift, x(k)))
  {
    LinesDiffer(x(k), 0.0, Mean(x, n), fit, l);
  }
}
