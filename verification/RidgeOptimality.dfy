/** Ridge coefficients as the unique minimiser of the penalised squared error. */
module RidgeOptimality {
  import opened LinearSolver
  import opened LinearSystems
  import opened RidgeRegression

  /** Samples whose rows reach at least `m` columns, intercept included. */
  ghost predicate Samples(X: seq<Row>, Y: Row, m: nat) {
    m >= 1 && |Y| == |X| && forall i :: 0 <= i < |X| ==> m <= |X[i]| + 1
  }

  ghost function Error(X: seq<Row>, Y: Row, beta: Row, i: nat): real
    requires Samples(X, Y, |beta|) && i < |X|
  {
    Y[i] - Predict(X[i], beta)
  }

  ghost function SquaredError(X: seq<Row>, Y: Row, beta: Row, n: nat): real
    requires Samples(X, Y, |beta|) && n <= |X|
  {
    if n == 0 then 0.0 else SquaredError(X, Y, beta, n - 1) + Mul(Error(X, Y, beta, n - 1), Error(X, Y, beta, n - 1))
  }

  /** The squares of all coefficients but the intercept. */
  ghost function Shrinkage(beta: Row, c: nat): real
    requires c <= |beta|
  {
    if c <= 1 then 0.0 else Shrinkage(beta, c - 1) + Mul(beta[c-1], beta[c-1])
  }

  ghost function Loss(X: seq<Row>, Y: Row, ridge: real, beta: Row): real
    requires Samples(X, Y, |beta|)
  {
    SquaredError(X, Y, beta, |X|) + Mul(ridge, Shrinkage(beta, |beta|))
  }

  ghost predicate Minimises(X: seq<Row>, Y: Row, ridge: real, beta: Row)
    requires Samples(X, Y, |beta|)
  {
    forall gamma: Row | |gamma| == |beta| :: Loss(X, Y, ridge, beta) <= Loss(X, Y, ridge, gamma)
  }

  // ---------------------------------------------------------------- vectors

  lemma {:induction false} DotAddScaled(r: Row, v: Row, w: real, s: Row, x: Row, c: nat)
    requires c <= |r| && c <= |v| && c <= |s| && c <= |x| && forall k :: 0 <= k < c ==> s[k] == r[k] + w * v[k]
    ensures DotFrom(s, x, 0, c) == DotFrom(r, x, 0, c) + Mul(w, DotFrom(v, x, 0, c))
  {
    if c > 0 {
      DotAddScaled(r, v, w, s, x, c - 1);
      Expand(r[c-1], w, v[c-1], x[c-1], DotFrom(v, x, 0, c - 1));
      assert s[c-1] * x[c-1] == (r[c-1] + w * v[c-1]) * x[c-1];
    }
  }

  lemma {:induction false} DotRightAddScaled(v: Row, x: Row, w: real, d: Row, z: Row, c: nat)
    requires c <= |v| && c <= |x| && c <= |d| && c <= |z| && forall k :: 0 <= k < c ==> z[k] == x[k] + w * d[k]
    ensures DotFrom(v, z, 0, c) == DotFrom(v, x, 0, c) + w * DotFrom(v, d, 0, c)
  {
    if c > 0 {
      DotRightAddScaled(v, x, w, d, z, c - 1);
      ExpandRight(v[c-1], x[c-1], w, d[c-1], DotFrom(v, d, 0, c - 1));
    }
  }

  lemma ExpandRight(v: real, x: real, w: real, d: real, a: real)
    ensures w * (a + v * d) + v * x == w * a + v * (x + w * d)
  {
    assert v * (x + w * d) == v * x + v * (w * d);
    assert v * (w * d) == w * (v * d);
  }

  lemma {:induction false} DotOfZeroRow(v: Row, x: Row, c: nat)
    requires c <= |v| && c <= |x| && forall k :: 0 <= k < c ==> v[k] == 0.0
    ensures DotFrom(v, x, 0, c) == 0.0
  {
    if c > 0 { DotOfZeroRow(v, x, c - 1); }
  }

  // ---------------------------------------------------------------- the normal equations, read as a gradient

  /** The j-th component of the gradient of the squared error, halved and negated. */
  ghost function Score(X: seq<Row>, Y: Row, beta: Row, j: nat, n: nat): real
    requires Samples(X, Y, |beta|) && j < |beta| && n <= |X|
  {
    if n == 0 then 0.0 else Score(X, Y, beta, j, n - 1) + Aug(X[n-1], |beta|)[j] * Error(X, Y, beta, n - 1)
  }

  ghost function ScoreRow(X: seq<Row>, Y: Row, beta: Row, n: nat): (s: Row)
    requires Samples(X, Y, |beta|) && n <= |X|
    ensures |s| == |beta| && forall j :: 0 <= j < |s| ==> s[j] == Score(X, Y, beta, j, n)
  {
    seq(|beta|, j requires 0 <= j < |beta| => Score(X, Y, beta, j, n))
  }

  ghost function Slope(X: seq<Row>, Y: Row, ridge: real, beta: Row): (g: Row)
    requires Samples(X, Y, |beta|)
    ensures |g| == |beta|
    ensures forall j :: 0 <= j < |g| ==> g[j] == Score(X, Y, beta, j, |X|) - Penalty(ridge, j, j) * beta[j]
  {
    seq(|beta|, j requires 0 <= j < |beta| => Score(X, Y, beta, j, |X|) - Penalty(ridge, j, j) * beta[j])
  }

  ghost function GramRow(X: seq<Row>, m: nat, j: nat, n: nat): (g: Row)
    requires j < m && n <= |X| && forall i :: 0 <= i < |X| ==> m <= |X[i]| + 1
    ensures |g| == m && forall k :: 0 <= k < m ==> g[k] == Gram(X, m, j, k, n)
  {
    seq(m, k requires 0 <= k < m => Gram(X, m, j, k, n))
  }

  lemma GramNext(X: seq<Row>, Y: Row, beta: Row, j: nat, n: nat)
    requires Samples(X, Y, |beta|) && j < |beta| && 0 < n <= |X|
    ensures var a, g, h := Aug(X[n-1], |beta|), GramRow(X, |beta|, j, n - 1), GramRow(X, |beta|, j, n);
      forall k :: 0 <= k < |beta| ==> h[k] == g[k] + a[j] * a[k]
    ensures Cross(X, Y, |beta|, j, n) - Score(X, Y, beta, j, n) ==
      Cross(X, Y, |beta|, j, n - 1) - Score(X, Y, beta, j, n - 1) + Mul(Aug(X[n-1], |beta|)[j], Predict(X[n-1], beta))
  {
    hide Predict, Aug;
    SplitError(Aug(X[n-1], |beta|)[j], Y[n-1], Predict(X[n-1], beta));
  }

  lemma {:induction false} GramDot(X: seq<Row>, Y: Row, beta: Row, j: nat, n: nat)
    requires Samples(X, Y, |beta|) && j < |beta| && n <= |X|
    ensures DotFrom(GramRow(X, |beta|, j, n), beta, 0, |beta|) == Cross(X, Y, |beta|, j, n) - Score(X, Y, beta, j, n)
  {
    hide Aug, Predict, Gram, Cross, Score, Error, DotFrom, Mul;
    var m := |beta|;
    if n == 0 {
      GramDotNothing(X, Y, beta, j);
    } else {
      GramDot(X, Y, beta, j, n - 1);
      GramNext(X, Y, beta, j, n);
      var a := Aug(X[n-1], m);
      DotAddScaled(GramRow(X, m, j, n - 1), a, a[j], GramRow(X, m, j, n), beta, m);
      PredictIsDot(X[n-1], beta);
    }
  }

  lemma GramDotNothing(X: seq<Row>, Y: Row, beta: Row, j: nat)
    requires Samples(X, Y, |beta|) && j < |beta|
    ensures DotFrom(GramRow(X, |beta|, j, 0), beta, 0, |beta|) == 0.0
      == Cross(X, Y, |beta|, j, 0) - Score(X, Y, beta, j, 0)
  {
    DotOfZeroRow(GramRow(X, |beta|, j, 0), beta, |beta|);
  }

  lemma SplitError(a: real, y: real, p: real)
    ensures a * (y - p) == a * y - a * p
  {
  }

  ghost function PenaltyRow(ridge: real, m: nat, j: nat): (r: Row)
    ensures |r| == m && forall k :: 0 <= k < m ==> r[k] == Penalty(ridge, j, k)
  {
    seq(m, k requires 0 <= k < m => Penalty(ridge, j, k))
  }

  lemma {:induction false} PenaltyDot(ridge: real, m: nat, j: nat, beta: Row, c: nat)
    requires j < m && c <= m == |beta|
    ensures DotFrom(PenaltyRow(ridge, m, j), beta, 0, c) == if j < c then Penalty(ridge, j, j) * beta[j] else 0.0
  {
    if c > 0 { PenaltyDot(ridge, m, j, beta, c - 1); }
  }

  /** Each normal equation says that one component of the slope is zero. */
  lemma ResidualIsSlope(X: seq<Row>, Y: Row, ridge: real, beta: Row, j: nat)
    requires X != [] && Table(X) && |Y| == |X| && |beta| == Width(X) && j < |beta|
    ensures Samples(X, Y, |beta|)
    ensures Residual(Augment(NormalMatrix(X, ridge), NormalRhs(X, Y))[j], beta) == -Slope(X, Y, ridge, beta)[j]
  {
    hide Gram, Cross, Score, Predict, Aug, Penalty, DotFrom;
    var m := |beta|;
    var row := Augment(NormalMatrix(X, ridge), NormalRhs(X, Y))[j];
    GramDot(X, Y, beta, j, |X|);
    PenaltyDot(ridge, m, j, beta, m);
    forall k | 0 <= k < m ensures row[k] == GramRow(X, m, j, |X|)[k] + 1.0 * PenaltyRow(ridge, m, j)[k] {
      assert row[k] == NormalMatrix(X, ridge)[j][k];
    }
    DotAddScaled(GramRow(X, m, j, |X|), PenaltyRow(ridge, m, j), 1.0, row, beta, m);
    MulUnit(DotFrom(PenaltyRow(ridge, m, j), beta, 0, m));
    assert row[m] == NormalRhs(X, Y)[j];
  }

  lemma NormalEquationsIffNoSlope(X: seq<Row>, Y: Row, ridge: real, beta: Row)
    requires X != [] && Table(X) && |Y| == |X| && |beta| == Width(X)
    ensures Samples(X, Y, |beta|)
    ensures Solves(Augment(NormalMatrix(X, ridge), NormalRhs(X, Y)), beta) <==>
      forall j :: 0 <= j < |beta| ==> Slope(X, Y, ridge, beta)[j] == 0.0
  {
    hide Residual, Slope, Table;
    assert Samples(X, Y, |beta|) by { ResidualIsSlope(X, Y, ridge, beta, 0); }
    var S, g := Augment(NormalMatrix(X, ridge), NormalRhs(X, Y)), Slope(X, Y, ridge, beta);
    forall j | 0 <= j < |beta| ensures Residual(S[j], beta) == -g[j] {
      ResidualIsSlope(X, Y, ridge, beta, j);
    }
    if Solves(S, beta) {
      forall j | 0 <= j < |beta| ensures g[j] == 0.0 { assert Residual(S[j], beta) == 0.0; }
    }
  }

  // ---------------------------------------------------------------- the loss around a point

  ghost function ErrorDot(X: seq<Row>, Y: Row, beta: Row, d: Row, n: nat): real
    requires Samples(X, Y, |beta|) && |d| == |beta| && n <= |X|
  {
    if n == 0 then 0.0 else ErrorDot(X, Y, beta, d, n - 1) + Mul(Error(X, Y, beta, n - 1), Predict(X[n-1], d))
  }

  ghost function PredictionSquares(X: seq<Row>, d: Row, n: nat): real
    requires n <= |X| && |d| >= 1 && forall i :: 0 <= i < |X| ==> |d| <= |X[i]| + 1
  {
    if n == 0 then 0.0 else PredictionSquares(X, d, n - 1) + Mul(Predict(X[n-1], d), Predict(X[n-1], d))
  }

  ghost function Quadratic(X: seq<Row>, ridge: real, d: Row): real
    requires |d| >= 1 && forall i :: 0 <= i < |X| ==> |d| <= |X[i]| + 1
  {
    PredictionSquares(X, d, |X|) + Mul(ridge, Shrinkage(d, |d|))
  }

  lemma {:induction false} ScoreRowDot(X: seq<Row>, Y: Row, beta: Row, d: Row, n: nat)
    requires Samples(X, Y, |beta|) && |d| == |beta| && n <= |X|
    ensures DotFrom(ScoreRow(X, Y, beta, n), d, 0, |d|) == ErrorDot(X, Y, beta, d, n)
  {
    var m := |d|;
    if n == 0 {
      DotOfZeroRow(ScoreRow(X, Y, beta, 0), d, m);
    } else {
      hide Predict, Error, Mul;
      ScoreRowDot(X, Y, beta, d, n - 1);
      var a, e := Aug(X[n-1], m), Error(X, Y, beta, n - 1);
      DotAddScaled(ScoreRow(X, Y, beta, n - 1), a, e, ScoreRow(X, Y, beta, n), d, m);
      PredictIsDot(X[n-1], d);
    }
  }

  lemma PredictIsDot(row: Row, d: Row)
    requires 1 <= |d| <= |row| + 1
    ensures Predict(row, d) == DotFrom(Aug(row, |d|), d, 0, |d|)
  {
  }

  lemma ErrorAround(X: seq<Row>, Y: Row, beta: Row, d: Row, gamma: Row, i: nat)
    requires Samples(X, Y, |beta|) && |d| == |gamma| == |beta| && i < |X|
    requires forall k :: 0 <= k < |d| ==> gamma[k] == beta[k] + 1.0 * d[k]
    ensures Error(X, Y, gamma, i) == Error(X, Y, beta, i) - Predict(X[i], d)
  {
    DotRightAddScaled(Aug(X[i], |d|), beta, 1.0, d, gamma, |d|);
  }

  lemma {:induction false} SquaredErrorAround(X: seq<Row>, Y: Row, beta: Row, d: Row, gamma: Row, n: nat)
    requires Samples(X, Y, |beta|) && |d| == |gamma| == |beta| && n <= |X|
    requires forall k :: 0 <= k < |d| ==> gamma[k] == beta[k] + 1.0 * d[k]
    ensures SquaredError(X, Y, gamma, n)
      == SquaredError(X, Y, beta, n) - 2.0 * ErrorDot(X, Y, beta, d, n) + PredictionSquares(X, d, n)
  {
    if n > 0 {
      hide Error, Predict, Mul;
      SquaredErrorAround(X, Y, beta, d, gamma, n - 1);
      ErrorAround(X, Y, beta, d, gamma, n - 1);
      SquareAround(Error(X, Y, beta, n - 1), Predict(X[n-1], d), Error(X, Y, gamma, n - 1));
    }
  }

  lemma SquareAround(e: real, p: real, f: real)
    requires f == e - p
    ensures Mul(f, f) == Mul(e, e) - 2.0 * Mul(e, p) + Mul(p, p)
  {
    Spread(e - p, e, -p);
    Spread(e, e, -p);
    Spread(p, e, -p);
  }

  lemma {:induction false} ShrinkageAround(beta: Row, d: Row, gamma: Row, pen: Row, ridge: real, c: nat)
    requires |d| == |gamma| == |beta| == |pen| && c <= |d|
    requires forall k :: 0 <= k < |d| ==> gamma[k] == beta[k] + 1.0 * d[k] && pen[k] == Penalty(ridge, k, k) * beta[k]
    ensures Mul(ridge, Shrinkage(gamma, c))
      == Mul(ridge, Shrinkage(beta, c)) + 2.0 * DotFrom(pen, d, 0, c) + Mul(ridge, Shrinkage(d, c))
  {
    if c > 0 {
      hide DotFrom, Mul;
      ShrinkageAround(beta, d, gamma, pen, ridge, c - 1);
      DotNext(pen, d, c);
      PenaltyStep(ridge, beta[c-1], d[c-1], gamma[c-1], pen[c-1], Shrinkage(gamma, c - 1), Shrinkage(beta, c - 1),
        Shrinkage(d, c - 1));
    } else {
      assert DotFrom(pen, d, 0, 0) == 0.0;
    }
  }

  lemma DotNext(a: Row, x: Row, c: nat)
    requires 0 < c <= |a| && c <= |x|
    ensures DotFrom(a, x, 0, c) == DotFrom(a, x, 0, c - 1) + Mul(a[c-1], x[c-1])
  {
  }

  lemma PenaltyStep(ridge: real, b: real, d: real, g: real, pen: real, sg: real, sb: real, sd: real)
    requires g == b + 1.0 * d
    ensures var rise := Mul(ridge, sg + Mul(g, g)) - Mul(ridge, sg);
      var own, other := Mul(ridge, sb + Mul(b, b)) - Mul(ridge, sb), Mul(ridge, sd + Mul(d, d)) - Mul(ridge, sd);
      pen == ridge * b ==> rise == own + 2.0 * Mul(pen, d) + other
    ensures pen == 0.0 ==> Mul(pen, d) == 0.0
  {
    if pen == ridge * b {
      assert g * g == b * b + 2.0 * (b * d) + d * d;
      var x, y, z := b * b, b * d, d * d;
      assert ridge * b * d == ridge * y;
      Spread(ridge, sg, x + 2.0 * y + z);
      Spread(ridge, sb, x);
      Spread(ridge, sd, z);
      Spread(ridge, x + z, 2.0 * y);
      Spread(ridge, x, z);
    }
  }

  lemma Spread(a: real, b: real, c: real)
    ensures a * (b + c) == a * b + a * c
  {
  }

  lemma MulUnit(a: real)
    ensures Mul(-1.0, a) == -a && Mul(1.0, a) == a
  {
  }

  /** The loss at `gamma` is the loss at `beta`, less twice the slope along the difference, plus a square form in it. */
  lemma LossAround(X: seq<Row>, Y: Row, ridge: real, beta: Row, d: Row, gamma: Row)
    requires Samples(X, Y, |beta|) && |d| == |gamma| == |beta|
    requires forall k :: 0 <= k < |d| ==> gamma[k] == beta[k] + 1.0 * d[k]
    ensures Loss(X, Y, ridge, gamma) - Loss(X, Y, ridge, beta)
      == Quadratic(X, ridge, d) - 2.0 * DotFrom(Slope(X, Y, ridge, beta), d, 0, |d|)
  {
    hide SquaredError, Shrinkage, PredictionSquares, ErrorDot, Score, DotFrom, Mul, Penalty;
    var m := |d|;
    var pen := seq(m, k requires 0 <= k < m => Penalty(ridge, k, k) * beta[k]);
    SquaredErrorAround(X, Y, beta, d, gamma, |X|);
    ShrinkageAround(beta, d, gamma, pen, ridge, m);
    ScoreRowDot(X, Y, beta, d, |X|);
    DotAddScaled(ScoreRow(X, Y, beta, |X|), pen, -1.0, Slope(X, Y, ridge, beta), d, m);
    MulUnit(DotFrom(pen, d, 0, m));
  }

  // ---------------------------------------------------------------- the square form

  lemma {:induction false} PredictionSquaresSign(X: seq<Row>, d: Row, n: nat)
    requires n <= |X| && |d| >= 1 && forall i :: 0 <= i < |X| ==> |d| <= |X[i]| + 1
    ensures PredictionSquares(X, d, n) >= 0.0
    ensures PredictionSquares(X, d, n) == 0.0 ==> forall i :: 0 <= i < n ==> Predict(X[i], d) == 0.0
  {
    if n > 0 {
      PredictionSquaresSign(X, d, n - 1);
      SquareSign(Predict(X[n-1], d));
    }
  }

  lemma SquareSign(p: real)
    ensures p * p >= 0.0 && (p * p == 0.0 ==> p == 0.0)
  {
    if p < 0.0 {
      ProductSign(-p, -p);
      assert p * p == (-p) * (-p);
    } else {
      ProductSign(p, p);
    }
  }

  lemma {:induction false} ShrinkageSign(d: Row, c: nat)
    requires c <= |d|
    ensures Shrinkage(d, c) >= 0.0
    ensures Shrinkage(d, c) == 0.0 ==> forall k :: 1 <= k < c ==> d[k] == 0.0
  {
    if c > 1 {
      ShrinkageSign(d, c - 1);
      SquareSign(d[c-1]);
    }
  }

  lemma {:induction false} OnlyIntercept(a: Row, d: Row, c: nat)
    requires 1 <= c <= |a| && c <= |d| && a[0] == 1.0 && forall k :: 1 <= k < c ==> d[k] == 0.0
    ensures DotFrom(a, d, 0, c) == d[0]
  {
    if c == 1 {
      assert DotFrom(a, d, 0, 0) == 0.0;
    } else {
      OnlyIntercept(a, d, c - 1);
    }
  }

  lemma QuadraticSign(X: seq<Row>, ridge: real, d: Row)
    requires ridge >= 0.0 && |d| >= 1 && forall i :: 0 <= i < |X| ==> |d| <= |X[i]| + 1
    ensures Quadratic(X, ridge, d) >= 0.0
    ensures ridge > 0.0 && X != [] && Quadratic(X, ridge, d) == 0.0 ==> forall k :: 0 <= k < |d| ==> d[k] == 0.0
  {
    PredictionSquaresSign(X, d, |X|);
    ShrinkageSign(d, |d|);
    ProductSign(ridge, Shrinkage(d, |d|));
    if ridge > 0.0 && X != [] && Quadratic(X, ridge, d) == 0.0 {
      assert Predict(X[0], d) == 0.0;
      OnlyIntercept(Aug(X[0], |d|), d, |d|);
    }
  }

  lemma ProductSign(a: real, b: real)
    requires a >= 0.0 && b >= 0.0
    ensures a * b >= 0.0 && (a > 0.0 && a * b == 0.0 ==> b == 0.0)
  {
  }

  // ---------------------------------------------------------------- the minimiser

  /** A point without slope is the only global minimiser. */
  lemma NoSlopeMinimises(X: seq<Row>, Y: Row, ridge: real, beta: Row, gamma: Row)
    requires Samples(X, Y, |beta|) && ridge > 0.0 && X != [] && |gamma| == |beta|
    requires forall j :: 0 <= j < |beta| ==> Slope(X, Y, ridge, beta)[j] == 0.0
    ensures Loss(X, Y, ridge, beta) <= Loss(X, Y, ridge, gamma)
    ensures Loss(X, Y, ridge, beta) == Loss(X, Y, ridge, gamma) ==> gamma == beta
  {
    hide Loss, Quadratic, Slope;
    var d := seq(|beta|, k requires 0 <= k < |beta| => gamma[k] - beta[k]);
    LossAround(X, Y, ridge, beta, d, gamma);
    DotOfZeroRow(Slope(X, Y, ridge, beta), d, |d|);
    QuadraticSign(X, ridge, d);
    if Loss(X, Y, ridge, beta) == Loss(X, Y, ridge, gamma) {
      forall k | 0 <= k < |beta| ensures gamma[k] == beta[k] { assert d[k] == 0.0; }
    }
  }

  ghost function Scaled(t: real, d: Row): (s: Row)
    ensures |s| == |d| && forall k :: 0 <= k < |d| ==> s[k] == t * d[k]
  {
    seq(|d|, k requires 0 <= k < |d| => t * d[k])
  }

  lemma {:induction false} DotScaled(a: Row, t: real, d: Row, c: nat)
    requires c <= |a| && c <= |d|
    ensures DotFrom(a, Scaled(t, d), 0, c) == Mul(t, DotFrom(a, d, 0, c))
  {
    if c > 0 {
      DotScaled(a, t, d, c - 1);
      Spread(t, DotFrom(a, d, 0, c - 1), a[c-1] * d[c-1]);
      assert a[c-1] * (t * d[c-1]) == t * (a[c-1] * d[c-1]);
    }
  }

  lemma SquareScaled(t: real, p: real)
    ensures Mul(Mul(t, p), Mul(t, p)) == Mul(t * t, Mul(p, p))
  {
    assert (t * p) * (t * p) == t * (p * (t * p));
    assert p * (t * p) == t * (p * p);
  }

  lemma SpreadMul(a: real, b: real, c: real)
    ensures Mul(a, b + c) == Mul(a, b) + Mul(a, c)
  {
  }

  lemma {:induction false} PredictionSquaresScaled(X: seq<Row>, t: real, d: Row, n: nat)
    requires n <= |X| && |d| >= 1 && forall i :: 0 <= i < |X| ==> |d| <= |X[i]| + 1
    ensures PredictionSquares(X, Scaled(t, d), n) == Mul(t * t, PredictionSquares(X, d, n))
  {
    if n > 0 {
      hide Mul, DotFrom, Aug;
      PredictionSquaresScaled(X, t, d, n - 1);
      DotScaled(Aug(X[n-1], |d|), t, d, |d|);
      SquareScaled(t, Predict(X[n-1], d));
      SpreadMul(t * t, PredictionSquares(X, d, n - 1), Mul(Predict(X[n-1], d), Predict(X[n-1], d)));
    }
  }

  lemma {:induction false} ShrinkageScaled(t: real, d: Row, c: nat)
    requires c <= |d|
    ensures Shrinkage(Scaled(t, d), c) == Mul(t * t, Shrinkage(d, c))
  {
    if c > 1 {
      ShrinkageScaled(t, d, c - 1);
      SquareScaled(t, d[c-1]);
      SpreadMul(t * t, Shrinkage(d, c - 1), Mul(d[c-1], d[c-1]));
    }
  }

  lemma QuadraticScaled(X: seq<Row>, ridge: real, t: real, d: Row)
    requires |d| >= 1 && forall i :: 0 <= i < |X| ==> |d| <= |X[i]| + 1
    ensures Quadratic(X, ridge, Scaled(t, d)) == Mul(t * t, Quadratic(X, ridge, d))
  {
    hide PredictionSquares, Shrinkage;
    PredictionSquaresScaled(X, t, d, |X|);
    ShrinkageScaled(t, d, |d|);
    var s, p, q := t * t, PredictionSquares(X, d, |X|), Shrinkage(d, |d|);
    Spread(s, p, ridge * q);
    assert ridge * (s * q) == s * (ridge * q);
  }

  /** Where the slope is not zero, a short enough step downhill lowers the loss. */
  lemma StepDown(g: real, q: real) returns (t: real)
    requires g != 0.0 && q >= 0.0
    ensures (t * t) * q - 2.0 * (t * g) < 0.0
  {
    t := g / (q + 1.0);
    assert t * (q + 1.0) == g;
    assert t != 0.0;
    var s := t * t;
    SquareSign(t);
    assert t * g == s * q + s by {
      Spread(t, t * q, t);
      assert t * (t * q) == s * q;
    }
    ProductSign(s, q);
  }

  lemma {:induction false} DotWithUnit(a: Row, m: nat, j: nat, c: nat)
    requires c <= |a| && c <= m
    ensures DotFrom(a, Unit(m, j), 0, c) == if j < c then a[j] else 0.0
  {
    if c > 0 { DotWithUnit(a, m, j, c - 1); }
  }

  lemma MinimiserHasNoSlope(X: seq<Row>, Y: Row, ridge: real, beta: Row, j: nat)
    requires Samples(X, Y, |beta|) && ridge >= 0.0 && j < |beta| && Minimises(X, Y, ridge, beta)
    ensures Slope(X, Y, ridge, beta)[j] == 0.0
  {
    hide Loss, Quadratic, Slope, DotFrom;
    var g, e := Slope(X, Y, ridge, beta), Unit(|beta|, j);
    if g[j] != 0.0 {
      QuadraticSign(X, ridge, e);
      var t := StepDown(g[j], Quadratic(X, ridge, e));
      var d := Scaled(t, e);
      var gamma := seq(|beta|, k requires 0 <= k < |beta| => beta[k] + 1.0 * d[k]);
      LossAround(X, Y, ridge, beta, d, gamma);
      QuadraticScaled(X, ridge, t, e);
      DotScaled(g, t, e, |beta|);
      DotWithUnit(g, |beta|, j, |beta|);
    }
  }

  /** Solving the normal equations is the same as minimising the penalised squared error. */
  lemma NormalEquationsIffMinimiser(X: seq<Row>, Y: Row, ridge: real, beta: Row)
    requires X != [] && Table(X) && |Y| == |X| && |beta| == Width(X) && ridge > 0.0
    ensures Samples(X, Y, |beta|)
    ensures Solves(Augment(NormalMatrix(X, ridge), NormalRhs(X, Y)), beta) <==> Minimises(X, Y, ridge, beta)
  {
    hide Loss, Slope, Solves, NormalMatrix, NormalRhs;
    NormalEquationsIffNoSlope(X, Y, ridge, beta);
    if Solves(Augment(NormalMatrix(X, ridge), NormalRhs(X, Y)), beta) {
      forall gamma: Row | |gamma| == |beta| ensures Loss(X, Y, ridge, beta) <= Loss(X, Y, ridge, gamma) {
        NoSlopeMinimises(X, Y, ridge, beta, gamma);
      }
    }
    if Minimises(X, Y, ridge, beta) {
      forall j | 0 <= j < |beta| ensures Slope(X, Y, ridge, beta)[j] == 0.0 {
        MinimiserHasNoSlope(X, Y, ridge, beta, j);
      }
    }
  }

  /**
   * The fit is the minimiser exactly when the jittered columns, weighted by their unknowns, leave every equation alone.
   */
  lemma FitMinimisesIff(X: seq<Row>, Y: Row, ridge: real)
    requires X != [] && Table(X) && |Y| == |X| && ridge > 0.0
    ensures Samples(X, Y, Width(X))
    ensures var A, b, beta := NormalMatrix(X, ridge), NormalRhs(X, Y), Fit(X, Y, ridge);
      Minimises(X, Y, ridge, beta) <==>
        forall r :: 0 <= r < |A| ==> BumpedUnknowns(JitterMarks(A, b), r, beta, |A|) == 0.0
  {
    hide Solution, JitterMarks, BumpedUnknowns, Minimises, Solves;
    NormalEquationsIffMinimiser(X, Y, ridge, Fit(X, Y, ridge));
    SolvesIff(NormalMatrix(X, ridge), NormalRhs(X, Y));
  }

  /** Without a jitter the fit is the one and only minimiser. */
  lemma FitIsUniqueMinimiser(X: seq<Row>, Y: Row, ridge: real, gamma: Row)
    requires X != [] && Table(X) && |Y| == |X| && ridge > 0.0 && |gamma| == Width(X)
    requires JitterMarks(NormalMatrix(X, ridge), NormalRhs(X, Y)) == map[]
    ensures Samples(X, Y, Width(X))
    ensures Minimises(X, Y, ridge, gamma) <==> gamma == Fit(X, Y, ridge)
  {
    hide Solution, JitterMarks, Minimises, Solves;
    NormalEquationsIffMinimiser(X, Y, ridge, gamma);
    ExactWithoutJitter(NormalMatrix(X, ridge), NormalRhs(X, Y));
  }
}
