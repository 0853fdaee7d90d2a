/** Degree-1 least-squares detrending and the min-max statistic used by the
    straightness window (np.polyfit(positions, values, 1), np.polyval, np.max - np.min),
    in exact real arithmetic.

    The fitted line is the orthogonal projection of the values onto the span of the
    constant vector and the positions. When every position is the same non-zero value
    (this includes a single stored measurement away from 0) that span is one-dimensional,
    the slope is taken as 0 and the line is the mean of the values: this is the line the
    rank-deficient least-squares solution evaluates to. When every position is 0,
    np.polyfit divides the position column by its zero norm and fails; that case is the
    caller's to exclude (Straightness.FitFails). */
module LeastSquares {

  // ---------------------------------------------------------------------------
  // Vectors as sequences of reals

  function Sum(s: seq<real>): real
  {
    if |s| == 0 then 0.0 else s[0] + Sum(s[1..])
  }

  function Mean(s: seq<real>): real
    requires |s| > 0
  {
    Sum(s) / (|s| as real)
  }

  function Add(u: seq<real>, v: seq<real>): (w: seq<real>)
    requires |u| == |v|
    ensures |w| == |u|
  {
    seq(|u|, i requires 0 <= i < |u| => u[i] + v[i])
  }

  function Scale(c: real, u: seq<real>): (w: seq<real>)
    ensures |w| == |u|
  {
    seq(|u|, i requires 0 <= i < |u| => c * u[i])
  }

  function Const(n: nat, c: real): (w: seq<real>)
    ensures |w| == n
  {
    seq(n, i => c)
  }

  /** Product of two reals, named so that the sign lemmas below talk about one term. */
  function Mul(x: real, y: real): real
  {
    x * y
  }

  /** The inner product; Dot(u, u) is the sum of squares. */
  function Dot(u: seq<real>, v: seq<real>): real
    requires |u| == |v|
  {
    if |u| == 0 then 0.0 else Mul(u[0], v[0]) + Dot(u[1..], v[1..])
  }

  // ---------------------------------------------------------------------------
  // Linearity of the sums, one scalar at a time

  lemma AddTail(u: seq<real>, v: seq<real>)
    requires |u| == |v| > 0
    ensures Add(u, v)[0] == u[0] + v[0] && Add(u, v)[1..] == Add(u[1..], v[1..])
  {
  }

  lemma ScaleTail(c: real, u: seq<real>)
    requires |u| > 0
    ensures Scale(c, u)[0] == c * u[0] && Scale(c, u)[1..] == Scale(c, u[1..])
  {
    forall i | 0 <= i < |u| - 1 ensures Scale(c, u)[1..][i] == Scale(c, u[1..])[i] {
      assert u[1..][i] == u[i + 1];
    }
  }

  lemma MulPositive(x: real, y: real)
    requires x > 0.0 && y > 0.0
    ensures Mul(x, y) > 0.0
  {
  }

  lemma MulNegative(x: real, y: real)
    requires x < 0.0 && y < 0.0
    ensures Mul(x, y) > 0.0
  {
  }

  /** A square is never negative, and positive for every non-zero real. */
  lemma SquarePositive(a: real)
    ensures Mul(a, a) >= 0.0
    ensures a != 0.0 ==> Mul(a, a) > 0.0
  {
    if a > 0.0 {
      MulPositive(a, a);
    } else if a < 0.0 {
      MulNegative(a, a);
    } else {
      assert Mul(a, a) == 0.0;
    }
  }

  lemma {:induction false} SumAdd(u: seq<real>, v: seq<real>)
    requires |u| == |v|
    ensures Sum(Add(u, v)) == Sum(u) + Sum(v)
  {
    if |u| > 0 {
      AddTail(u, v);
      SumAdd(u[1..], v[1..]);
    }
  }

  lemma {:induction false} SumScale(c: real, u: seq<real>)
    ensures Sum(Scale(c, u)) == c * Sum(u)
  {
    if |u| > 0 {
      ScaleTail(c, u);
      SumScale(c, u[1..]);
    }
  }

  lemma {:induction false} SumConst(n: nat, c: real)
    ensures Sum(Const(n, c)) == (n as real) * c
  {
    if n > 0 {
      assert Const(n, c)[1..] == Const(n - 1, c);
      SumConst(n - 1, c);
    }
  }

  lemma {:induction false} DotComm(u: seq<real>, v: seq<real>)
    requires |u| == |v|
    ensures Dot(u, v) == Dot(v, u)
  {
    if |u| > 0 {
      DotComm(u[1..], v[1..]);
    }
  }

  lemma {:induction false} DotAdd(u: seq<real>, v: seq<real>, w: seq<real>)
    requires |u| == |v| == |w|
    ensures Dot(u, Add(v, w)) == Dot(u, v) + Dot(u, w)
  {
    if |u| > 0 {
      AddTail(v, w);
      DotAdd(u[1..], v[1..], w[1..]);
      var a, b, c := u[0], v[0], w[0];
      assert a * (b + c) == a * b + a * c;
    }
  }

  lemma {:induction false} DotScale(u: seq<real>, c: real, v: seq<real>)
    requires |u| == |v|
    ensures Dot(u, Scale(c, v)) == c * Dot(u, v)
  {
    if |u| > 0 {
      ScaleTail(c, v);
      DotScale(u[1..], c, v[1..]);
      var a, b := u[0], v[0];
      assert a * (c * b) == c * (a * b);
    }
  }

  lemma {:induction false} DotConst(u: seq<real>, c: real)
    ensures Dot(u, Const(|u|, c)) == c * Sum(u)
  {
    if |u| > 0 {
      assert Const(|u|, c)[1..] == Const(|u| - 1, c);
      DotConst(u[1..], c);
    }
  }

  /** (u + v).(u + v) = u.u + 2 u.v + v.v */
  lemma {:induction false} DotSquareAdd(u: seq<real>, v: seq<real>)
    requires |u| == |v|
    ensures Dot(Add(u, v), Add(u, v)) == Dot(u, u) + 2.0 * Dot(u, v) + Dot(v, v)
  {
    if |u| > 0 {
      AddTail(u, v);
      DotSquareAdd(u[1..], v[1..]);
      var a, b := u[0], v[0];
      assert (a + b) * (a + b) == a * a + 2.0 * (a * b) + b * b;
    }
  }

  lemma {:induction false} DotSelfNonNegative(u: seq<real>)
    ensures Dot(u, u) >= 0.0
  {
    if |u| > 0 {
      DotSelfNonNegative(u[1..]);
      SquarePositive(u[0]);
    }
  }

  /** A sum of squares is zero only when every term is zero. */
  lemma {:induction false} DotSelfZero(u: seq<real>)
    requires Dot(u, u) == 0.0
    ensures forall i :: 0 <= i < |u| ==> u[i] == 0.0
  {
    if |u| > 0 {
      DotSelfNonNegative(u[1..]);
      SquarePositive(u[0]);
      DotSelfZero(u[1..]);
      assert forall i :: 1 <= i < |u| ==> u[i] == u[1..][i - 1];
    }
  }

  lemma {:induction false} DotZeroLeft(u: seq<real>, v: seq<real>)
    requires |u| == |v|
    requires forall i :: 0 <= i < |u| ==> u[i] == 0.0
    ensures Dot(u, v) == 0.0
  {
    if |u| > 0 {
      assert forall i :: 0 <= i < |u| - 1 ==> u[1..][i] == u[i + 1];
      DotZeroLeft(u[1..], v[1..]);
    }
  }

  // ---------------------------------------------------------------------------
  // The least-squares line

  /** s minus its mean. */
  function Center(s: seq<real>): (d: seq<real>)
    requires |s| > 0
    ensures |d| == |s|
  {
    Add(s, Const(|s|, -Mean(s)))
  }

  /** Centred second moments Sxx and Sxy. */
  function CentredXX(xs: seq<real>): real
    requires |xs| > 0
  {
    Dot(Center(xs), Center(xs))
  }

  function CentredXY(xs: seq<real>, ys: seq<real>): real
    requires |xs| == |ys| > 0
  {
    Dot(Center(xs), Center(ys))
  }

  /** Slope of the least-squares line through the points (xs[i], ys[i]). */
  function Slope(xs: seq<real>, ys: seq<real>): real
    requires |xs| == |ys| > 0
  {
    if CentredXX(xs) == 0.0 then 0.0 else CentredXY(xs, ys) / CentredXX(xs)
  }

  /** Intercept of the least-squares line: it passes through the centroid. */
  function Intercept(xs: seq<real>, ys: seq<real>): real
    requires |xs| == |ys| > 0
  {
    Mean(ys) - Slope(xs, ys) * Mean(xs)
  }

  /** ys[i] minus the line a + b * x evaluated at xs[i]. */
  function Residuals(xs: seq<real>, ys: seq<real>, a: real, b: real): (d: seq<real>)
    requires |xs| == |ys|
    ensures |d| == |ys|
  {
    seq(|ys|, i requires 0 <= i < |ys| => ys[i] - (a + b * xs[i]))
  }

  /** The values minus their least-squares line
      (values - polyval(polyfit(positions, values, 1), positions)). */
  function Detrend(xs: seq<real>, ys: seq<real>): (d: seq<real>)
    requires |xs| == |ys| > 0
    ensures |d| == |ys|
    ensures forall i :: 0 <= i < |d| ==>
              d[i] == (ys[i] - Mean(ys)) - Slope(xs, ys) * (xs[i] - Mean(xs))
  {
    Residuals(xs, ys, Intercept(xs, ys), Slope(xs, ys))
  }

  /** Sum of squared residuals of the line a + b * x. */
  function Sse(xs: seq<real>, ys: seq<real>, a: real, b: real): real
    requires |xs| == |ys|
  {
    var r := Residuals(xs, ys, a, b);
    Dot(r, r)
  }

  lemma CenterSumsToZero(s: seq<real>)
    requires |s| > 0
    ensures Sum(Center(s)) == 0.0
  {
    var n, m := |s| as real, Mean(s);
    SumAdd(s, Const(|s|, -m));
    SumConst(|s|, -m);
    assert n * m == Sum(s);
  }

  lemma CenterAt(s: seq<real>, i: int)
    requires 0 <= i < |s|
    ensures Center(s)[i] == s[i] - Mean(s)
  {
  }

  /** The detrended values are the centred values minus slope times the centred positions. */
  lemma DetrendIsCentred(xs: seq<real>, ys: seq<real>)
    requires |xs| == |ys| > 0
    ensures Detrend(xs, ys) == Add(Center(ys), Scale(-Slope(xs, ys), Center(xs)))
  {
    var s, a, mx, my := Slope(xs, ys), Intercept(xs, ys), Mean(xs), Mean(ys);
    var d, e := Detrend(xs, ys), Add(Center(ys), Scale(-s, Center(xs)));
    forall i | 0 <= i < |ys| ensures d[i] == e[i] {
      CenterAt(xs, i);
      CenterAt(ys, i);
      var x, y := xs[i], ys[i];
      assert -s * (x - mx) == s * mx - s * x;
    }
  }

  /** The residuals of the line a + b * x are those of the line a0 + s * x plus a line
      in the positions shifted by m. */
  lemma ResidualsShift(xs: seq<real>, ys: seq<real>, a: real, b: real, a0: real, s: real, m: real)
    requires |xs| == |ys|
    ensures Residuals(xs, ys, a, b)
         == Add(Residuals(xs, ys, a0, s),
                Add(Const(|xs|, a0 - a + (s - b) * m), Scale(s - b, Add(xs, Const(|xs|, -m)))))
  {
    var r, e := Residuals(xs, ys, a, b), Residuals(xs, ys, a0, s);
    var g := Add(Const(|xs|, a0 - a + (s - b) * m), Scale(s - b, Add(xs, Const(|xs|, -m))));
    forall i | 0 <= i < |ys| ensures r[i] == Add(e, g)[i] {
      assert g[i] == (a0 - a + (s - b) * m) + (s - b) * (xs[i] + -m);
      LineDifference(ys[i], xs[i], a, b, a0, s, m);
    }
    assert r == Add(e, g);
  }

  /** Pointwise form of ResidualsShift. */
  lemma LineDifference(y: real, x: real, a: real, b: real, a0: real, s: real, mx: real)
    ensures y - (a + b * x) == (y - (a0 + s * x)) + ((a0 - a + (s - b) * mx) + (s - b) * (x + -mx))
  {
    assert (s - b) * (x - mx) == s * x - b * x - (s - b) * mx;
  }

  /** The normal equations: the detrended values sum to zero and are orthogonal to the
      centred positions. */
  lemma NormalEquations(xs: seq<real>, ys: seq<real>)
    requires |xs| == |ys| > 0
    ensures Sum(Detrend(xs, ys)) == 0.0
    ensures Dot(Detrend(xs, ys), Center(xs)) == 0.0
  {
    DetrendSumsToZero(xs, ys);
    DetrendOrthogonal(xs, ys);
  }

  /** The detrended values sum to zero. */
  lemma DetrendSumsToZero(xs: seq<real>, ys: seq<real>)
    requires |xs| == |ys| > 0
    ensures Sum(Detrend(xs, ys)) == 0.0
  {
    var s, dx, dy := Slope(xs, ys), Center(xs), Center(ys);
    DetrendIsCentred(xs, ys);
    SumAdd(dy, Scale(-s, dx));
    SumScale(-s, dx);
    CenterSumsToZero(xs);
    CenterSumsToZero(ys);
  }

  /** The detrended values are orthogonal to the centred positions. */
  lemma DetrendOrthogonal(xs: seq<real>, ys: seq<real>)
    requires |xs| == |ys| > 0
    ensures Dot(Detrend(xs, ys), Center(xs)) == 0.0
  {
    var s, dx, dy := Slope(xs, ys), Center(xs), Center(ys);
    DetrendIsCentred(xs, ys);
    DotComm(Detrend(xs, ys), dx);
    DotAdd(dx, dy, Scale(-s, dx));
    DotScale(dx, -s, dx);
    SlopeBalances(xs, ys);
  }

  /** Slope times Sxx is Sxy, also when every position is the same (then both are 0). */
  lemma SlopeBalances(xs: seq<real>, ys: seq<real>)
    requires |xs| == |ys| > 0
    ensures Slope(xs, ys) * CentredXX(xs) == CentredXY(xs, ys)
  {
    if CentredXX(xs) == 0.0 {
      DotSelfZero(Center(xs));
      DotZeroLeft(Center(xs), Center(ys));
    }
  }

  /** The detrend line is the least-squares line: no line a + b * x leaves a smaller sum
      of squared residuals. */
  lemma LeastSquaresOptimal(xs: seq<real>, ys: seq<real>, a: real, b: real)
    requires |xs| == |ys| > 0
    ensures Dot(Detrend(xs, ys), Detrend(xs, ys)) <= Sse(xs, ys, a, b)
  {
    var s, a0, mx := Slope(xs, ys), Intercept(xs, ys), Mean(xs);
    var c, k := a0 - a + (s - b) * mx, s - b;
    var e, dx := Detrend(xs, ys), Center(xs);
    var g := Add(Const(|xs|, c), Scale(k, dx));
    ResidualsShift(xs, ys, a, b, a0, s, mx);
    DotSquareAdd(e, g);
    DotAdd(e, Const(|xs|, c), Scale(k, dx));
    DotConst(e, c);
    DotScale(e, k, dx);
    NormalEquations(xs, ys);
    DotSelfNonNegative(g);
  }

  /** Values lying exactly on a line in the positions detrend to all zeros. */
  lemma DetrendOfLine(xs: seq<real>, ys: seq<real>, a: real, b: real)
    requires |xs| == |ys| > 0
    requires forall i :: 0 <= i < |xs| ==> ys[i] == a + b * xs[i]
    ensures forall i :: 0 <= i < |ys| ==> Detrend(xs, ys)[i] == 0.0
  {
    var r := Residuals(xs, ys, a, b);
    DotZeroLeft(r, r);
    LeastSquaresOptimal(xs, ys, a, b);
    DotSelfNonNegative(Detrend(xs, ys));
    DotSelfZero(Detrend(xs, ys));
  }

  // ---------------------------------------------------------------------------
  // Min-max statistic

  function Max(s: seq<real>): (m: real)
    requires |s| > 0
    ensures m in s
    ensures forall i :: 0 <= i < |s| ==> s[i] <= m
  {
    if |s| == 1 then s[0]
    else
      var m := Max(s[1..]);
      assert forall i :: 1 <= i < |s| ==> s[i] == s[1..][i - 1];
      if s[0] >= m then s[0] else m
  }

  function Min(s: seq<real>): (m: real)
    requires |s| > 0
    ensures m in s
    ensures forall i :: 0 <= i < |s| ==> m <= s[i]
  {
    if |s| == 1 then s[0]
    else
      var m := Min(s[1..]);
      assert forall i :: 1 <= i < |s| ==> s[i] == s[1..][i - 1];
      if s[0] <= m then s[0] else m
  }

  /** np.max(s) - np.min(s): never negative, and zero exactly when all entries are equal. */
  function Spread(s: seq<real>): (r: real)
    requires |s| > 0
    ensures r >= 0.0
    ensures r == 0.0 <==> forall i :: 0 <= i < |s| ==> s[i] == s[0]
  {
    Max(s) - Min(s)
  }

  /** The straightness statistic of values on a line is zero. */
  lemma SpreadOfLineIsZero(xs: seq<real>, ys: seq<real>, a: real, b: real)
    requires |xs| == |ys| > 0
    requires forall i :: 0 <= i < |xs| ==> ys[i] == a + b * xs[i]
    ensures Spread(Detrend(xs, ys)) == 0.0
  {
    DetrendOfLine(xs, ys, a, b);
  }
}
