/** Data on which no column takes the jitter branch: a small pivot would mean a direction the loss hardly feels. */
module JitterFree {
  import opened LinearSolver
  import opened LinearSystems
  import opened RidgeRegression
  import opened RidgeOptimality

  // ---------------------------------------------------------------- a small pivot leaves a direction

  /** The matrix hardly moves `y`, whose last nonzero entry, at `c`, is one. */
  ghost predicate NearKernel(A: Matrix, y: Row, c: nat) {
    && Square(A) && |y| == |A| && c < |y| && y[c] == 1.0 && (forall j :: c < j < |y| ==> y[j] == 0.0)
    && forall r :: 0 <= r < |A| ==> Abs(DotFrom(A[r], y, 0, |y|)) < TINY
  }

  lemma {:induction false} DotUpdate(a: Row, y: Row, c: nat, v: real, hi: nat)
    requires hi <= |a| && hi <= |y| && c < |y| && c < |a|
    ensures DotFrom(a, y[c := v], 0, hi) == DotFrom(a, y, 0, hi) + if c < hi then Mul(a[c], v - y[c]) else 0.0
  {
    if hi > 0 {
      DotUpdate(a, y, c, v, hi - 1);
      if c == hi - 1 { Spread(a[c], y[c], v - y[c]); }
    }
  }

  lemma {:induction false} DotBeyond(a: Row, y: Row, lo: nat, hi: nat)
    requires lo <= hi <= |a| && hi <= |y| && forall j :: lo <= j < hi ==> y[j] == 0.0
    ensures DotFrom(a, y, lo, hi) == 0.0
    decreases hi
  {
    if hi > lo { DotBeyond(a, y, lo, hi - 1); }
  }

  /** Back substitution in the rows from `c` to `i`: the direction that they do not see. */
  lemma {:induction false} Direction(M: Matrix, i: nat, c: nat) returns (y: Row)
    requires Cleared(M, i) && c <= i < |M|
    ensures |y| == |M| && y[i] == 1.0 && (forall j :: 0 <= j < c || i < j < |y| ==> y[j] == 0.0)
    ensures forall r :: c <= r < i ==> DotFrom(M[r], y, 0, |M|) == 0.0
    decreases i - c
  {
    if c == i {
      y := Unit(|M|, i);
    } else {
      var z := Direction(M, i, c + 1);
      var d := DotFrom(M[c], z, 0, |M|);
      y := z[c := -d / M[c][c]];
      forall r | c <= r < i ensures DotFrom(M[r], y, 0, |M|) == 0.0 {
        hide DotFrom;
        DotUpdate(M[r], z, c, -d / M[c][c], |M|);
        if r == c { QuotientBack(M[c][c], -d); } else { NoWeight(M[r][c], y[c]); }
      }
    }
  }

  lemma QuotientBack(a: real, d: real)
    requires a != 0.0
    ensures Mul(a, d / a - 0.0) == d
  {
  }

  lemma NoWeight(a: real, d: real)
    requires a == 0.0
    ensures Mul(a, d - 0.0) == 0.0
  {
  }

  /** A row that is cleared before column `i` sees its own entry there. */
  lemma ClearedRowDot(M: Matrix, i: nat, k: nat, y: Row)
    requires Cleared(M, i) && i <= k < |M| && |y| == |M| && y[i] == 1.0 && forall j :: i < j < |y| ==> y[j] == 0.0
    ensures DotFrom(M[k], y, 0, |M|) == M[k][i]
  {
    DotSplit(M[k], y, 0, i, |M|);
    DotSplit(M[k], y, i, i + 1, |M|);
    DotOfZeros(M[k], y, i);
    DotBeyond(M[k], y, i + 1, |M|);
    assert DotFrom(M[k], y, i, i + 1) == DotFrom(M[k], y, i, i) + M[k][i] * y[i];
  }

  lemma {:induction false} ComboDotVanishes(f: Row, M: Matrix, y: Row, m: nat)
    requires |f| <= |M| && m <= |y| && forall r :: 0 <= r < |f| ==> m <= |M[r]| && DotFrom(M[r], y, 0, m) == 0.0
    ensures ComboDot(f, M, y, m) == 0.0
  {
    if f != [] { ComboDotVanishes(f[..|f|-1], M, y, m); }
  }

  /** What the rows kept so far do not see, the original rows see only through the column in hand. */
  lemma FactoredRowDot(P: Matrix, M: Matrix, F: Matrix, perm: seq<nat>, i: nat, y: Row, k: nat)
    requires Factored(P, M, F, perm, i) && i < |M| && k < |M| && |y| == |M|
    requires forall r :: 0 <= r < i ==> DotFrom(M[r], y, 0, |M|) == 0.0
    ensures DotFrom(P[perm[k]], y, 0, |M|) == DotFrom(M[k], y, 0, |M|)
  {
    ComboOfDots(P[perm[k]], M[k], F[k], M, y, |M|);
    ComboDotVanishes(F[k], M, y, |M|);
  }

  lemma SmallColumn(M: Matrix, i: nat, k: nat)
    requires Augmented(M) && i <= k < |M| && NeedsJitter(M, i)
    ensures Abs(M[k][i]) < TINY
  {
  }

  lemma DirectionOfJitter(P: Matrix, M: Matrix, F: Matrix, perm: seq<nat>, inv: seq<nat>, i: nat) returns (y: Row)
    requires Factored(P, M, F, perm, i) && Cleared(M, i) && Permutation(perm, inv) && i < |M| && NeedsJitter(M, i)
    ensures |y| == |P| && y[i] == 1.0 && forall j :: i < j < |y| ==> y[j] == 0.0
    ensures forall r :: 0 <= r < |P| ==> Abs(DotFrom(P[r], y, 0, |y|)) < TINY
  {
    y := Direction(M, i, 0);
    hide DotFrom, FactorRow, PivotRow;
    forall r | 0 <= r < |P| ensures Abs(DotFrom(P[r], y, 0, |y|)) < TINY {
      var k := inv[r];
      FactoredRowDot(P, M, F, perm, i, y, k);
      if k >= i {
        ClearedRowDot(M, i, k, y);
        SmallColumn(M, i, k);
      }
    }
  }

  /** The first jitter of a run, seen from the system the run started with. */
  lemma {:induction false} FirstJitter(P: Matrix, M: Matrix, F: Matrix, perm: seq<nat>, inv: seq<nat>, i: nat)
    returns (y: Row, c: nat)
    requires Factored(P, M, F, perm, i) && Cleared(M, i) && Permutation(perm, inv) && Marks(M, i, perm) != map[]
    ensures c < |P| == |y| && y[c] == 1.0 && forall j :: c < j < |y| ==> y[j] == 0.0
    ensures Augmented(P) && forall r :: 0 <= r < |P| ==> Abs(DotFrom(P[r], y, 0, |y|)) < TINY
    decreases |M| - i
  {
    hide Factored, Cleared, Permutation, Marks, Step, PivotRow, NeedsJitter, Swapped, DotFrom;
    FactoredSizes(P, M, F, perm, inv, i);
    MarksGoOn(M, i, perm);
    if NeedsJitter(M, i) {
      c := i;
      y := DirectionOfJitter(P, M, F, perm, inv, i);
    } else {
      var Q, G, w := StepKeepsFactor(P, M, F, perm, inv, i);
      var rest := Marks(Step(M, i), i + 1, Swapped(perm, i, PivotRow(M, i)));
      assert map[] + rest == rest;
      y, c := FirstJitter(Q, Step(M, i), G, Swapped(perm, i, PivotRow(M, i)), w, i + 1);
    }
  }

  /** Where the solver takes the jitter branch, there is a direction that the matrix hardly moves. */
  lemma JitterMeansNearKernel(A: Matrix, b: Row) returns (y: Row, c: nat)
    requires Square(A) && |b| == |A| && JitterMarks(A, b) != map[]
    ensures NearKernel(A, y, c)
  {
    hide Factored, Cleared, Permutation, Marks;
    var S := Augment(A, b);
    FactoredAtStart(S);
    y, c := FirstJitter(S, S, seq(|S|, _ => []), Identity(|S|), Identity(|S|), 0);
    forall r | 0 <= r < |A| ensures Abs(DotFrom(A[r], y, 0, |y|)) < TINY {
      DotSameCoefficients(S[r], A[r], y, |A|);
    }
  }

  // ---------------------------------------------------------------- the square form of the normal matrix

  /** The matrix applied to a vector. */
  ghost function Image(A: Matrix, y: Row): (w: Row)
    requires Square(A) && |y| == |A|
    ensures |w| == |A| && forall j :: 0 <= j < |w| ==> w[j] == DotFrom(A[j], y, 0, |y|)
  {
    seq(|A|, j requires 0 <= j < |A| => DotFrom(A[j], y, 0, |y|))
  }

  lemma {:induction false} CrossOfZeros(X: seq<Row>, m: nat, j: nat, n: nat)
    requires j < m && n <= |X| && forall i :: 0 <= i < |X| ==> m <= |X[i]| + 1
    ensures Cross(X, Zeros(|X|), m, j, n) == 0.0
  {
    if n > 0 { CrossOfZeros(X, m, j, n - 1); }
  }

  lemma ImageIsSlope(X: seq<Row>, ridge: real, y: Row, j: nat)
    requires X != [] && Table(X) && |y| == Width(X) && j < |y|
    ensures Samples(X, Zeros(|X|), |y|)
    ensures Image(NormalMatrix(X, ridge), y)[j] == -Slope(X, Zeros(|X|), ridge, y)[j]
  {
    hide Slope, Cross, DotFrom;
    var Z := Zeros(|X|);
    var A, b := NormalMatrix(X, ridge), NormalRhs(X, Z);
    ResidualIsSlope(X, Z, ridge, y, j);
    CrossOfZeros(X, |y|, j, |X|);
    DotSameCoefficients(Augment(A, b)[j], A[j], y, |y|);
  }

  lemma {:induction false} ErrorDotOfZeros(X: seq<Row>, y: Row, n: nat)
    requires n <= |X| && |y| >= 1 && forall i :: 0 <= i < |X| ==> |y| <= |X[i]| + 1
    ensures ErrorDot(X, Zeros(|X|), y, y, n) == -PredictionSquares(X, y, n)
  {
    if n > 0 {
      hide Predict;
      ErrorDotOfZeros(X, y, n - 1);
      var p := Predict(X[n-1], y);
      assert (0.0 - p) * p == -(p * p);
    }
  }

  lemma {:induction false} PenaltyEnergy(ridge: real, y: Row, pen: Row, c: nat)
    requires |pen| == |y| && c <= |y| && forall k :: 0 <= k < |y| ==> pen[k] == Penalty(ridge, k, k) * y[k]
    ensures DotFrom(pen, y, 0, c) == Mul(ridge, Shrinkage(y, c))
  {
    if c > 0 {
      PenaltyEnergy(ridge, y, pen, c - 1);
      if c > 1 {
        Spread(ridge, Shrinkage(y, c - 1), y[c-1] * y[c-1]);
        assert ridge * y[c-1] * y[c-1] == ridge * (y[c-1] * y[c-1]);
      }
    }
  }

  lemma ImageParts(X: seq<Row>, ridge: real, y: Row, pen: Row)
    requires X != [] && Table(X) && |y| == |pen| == Width(X)
    requires forall k :: 0 <= k < |y| ==> pen[k] == Penalty(ridge, k, k) * y[k]
    ensures Samples(X, Zeros(|X|), |y|)
    ensures forall j :: 0 <= j < |y| ==>
      Image(NormalMatrix(X, ridge), y)[j] == pen[j] + (-1.0) * ScoreRow(X, Zeros(|X|), y, |X|)[j]
  {
    hide Score, DotFrom, Penalty, Gram, Image, NormalMatrix;
    ImageIsSlope(X, ridge, y, 0);
    forall j | 0 <= j < |y|
      ensures Image(NormalMatrix(X, ridge), y)[j] == pen[j] + (-1.0) * ScoreRow(X, Zeros(|X|), y, |X|)[j]
    {
      ImageIsSlope(X, ridge, y, j);
    }
  }

  /** The normal matrix measures what the penalised loss measures. */
  lemma EnergyIsQuadratic(X: seq<Row>, ridge: real, y: Row)
    requires X != [] && Table(X) && |y| == Width(X)
    ensures DotFrom(Image(NormalMatrix(X, ridge), y), y, 0, |y|) == Quadratic(X, ridge, y)
  {
    hide Score, DotFrom, Mul, Shrinkage, PredictionSquares, ErrorDot, Penalty, Image, NormalMatrix, ScoreRow, Gram;
    var m, Z, w := |y|, Zeros(|X|), Image(NormalMatrix(X, ridge), y);
    var pen := seq(m, k requires 0 <= k < m => Penalty(ridge, k, k) * y[k]);
    ImageParts(X, ridge, y, pen);
    DotAddScaled(pen, ScoreRow(X, Z, y, |X|), -1.0, w, y, m);
    ScoreRowDot(X, Z, y, y, |X|);
    ErrorDotOfZeros(X, y, |X|);
    PenaltyEnergy(ridge, y, pen, m);
    MulUnit(DotFrom(ScoreRow(X, Z, y, |X|), y, 0, m));
  }

  lemma {:induction false} OnePrediction(X: seq<Row>, y: Row, s: nat, n: nat)
    requires s < n <= |X| && |y| >= 1 && forall i :: 0 <= i < |X| ==> |y| <= |X[i]| + 1
    ensures PredictionSquares(X, y, n) >= Mul(Predict(X[s], y), Predict(X[s], y))
  {
    hide Predict;
    if s == n - 1 {
      PredictionSquaresSign(X, y, n - 1);
    } else {
      OnePrediction(X, y, s, n - 1);
      SquareSign(Predict(X[n-1], y));
    }
  }

  // ---------------------------------------------------------------- absolute values

  ghost function AbsSum(y: Row, c: nat): real
    requires c <= |y|
  {
    if c == 0 then 0.0 else AbsSum(y, c - 1) + Abs(y[c-1])
  }

  /** The entries after the first, each weighted by one more than the size of its coefficient. */
  ghost function Weight(a: Row, y: Row, c: nat): real
    requires c <= |a| && c <= |y|
  {
    if c <= 1 then 0.0 else Weight(a, y, c - 1) + Mul(1.0 + Abs(a[c-1]), Abs(y[c-1]))
  }

  lemma AbsTimes(a: real, b: real, t: real)
    requires Abs(a) <= t
    ensures Mul(a, b) <= Mul(t, Abs(b))
  {
    if b >= 0.0 {
      ProductSign(t - a, b);
      Spread(b, t - a, a);
    } else {
      ProductSign(t + a, -b);
      assert (t + a) * (-b) == t * (-b) - a * b;
    }
  }

  lemma {:induction false} DotBound(w: Row, y: Row, t: real, c: nat)
    requires c <= |w| && c <= |y| && forall j :: 0 <= j < c ==> Abs(w[j]) <= t
    ensures DotFrom(w, y, 0, c) <= Mul(t, AbsSum(y, c))
  {
    if c > 0 {
      hide Abs, Mul;
      DotBound(w, y, t, c - 1);
      AbsTimes(w[c-1], y[c-1], t);
      DotNext(w, y, c);
      SpreadMul(t, AbsSum(y, c - 1), Abs(y[c-1]));
    } else {
      AbsTimes(0.0, 0.0, 0.0);
    }
  }

  lemma AbsDotStep(d: real, a: real, y: real)
    ensures Abs(d) + Abs(y) <= Abs(d + Mul(a, y)) + Mul(1.0 + Abs(a), Abs(y))
  {
    AbsTimes(a, y, Abs(a));
    AbsTimes(-a, y, Abs(a));
    assert (-a) * y == -(a * y);
    assert (1.0 + Abs(a)) * Abs(y) == Abs(y) + Abs(a) * Abs(y);
  }

  lemma {:induction false} AbsSumBound(a: Row, y: Row, c: nat)
    requires 1 <= c <= |a| && c <= |y| && a[0] == 1.0
    ensures AbsSum(y, c) <= Abs(DotFrom(a, y, 0, c)) + Weight(a, y, c)
  {
    if c == 1 {
      assert DotFrom(a, y, 0, 0) == 0.0 && AbsSum(y, 0) == 0.0;
    } else {
      hide Abs;
      AbsSumBound(a, y, c - 1);
      AbsDotStep(DotFrom(a, y, 0, c - 1), a[c-1], y[c-1]);
    }
  }

  // ---------------------------------------------------------------- what the penalty outweighs

  /** By how much the penalty exceeds what a tiny image leaves room for. */
  ghost function Gap(ridge: real, a: Row, y: Row, c: nat): real
    requires c <= |a| && c <= |y|
  {
    Mul(ridge, Shrinkage(y, c)) - Mul(TINY, Weight(a, y, c))
  }

  ghost function Term(ridge: real, a: real, y: real): real {
    Mul(ridge, Mul(y, y)) - Mul(TINY, Mul(1.0 + Abs(a), Abs(y)))
  }

  lemma GapStep(ridge: real, a: Row, y: Row, c: nat)
    requires c <= |a| && c <= |y|
    ensures Gap(ridge, a, y, c) == if c <= 1 then 0.0 else Gap(ridge, a, y, c - 1) + Term(ridge, a[c-1], y[c-1])
  {
    if c > 1 {
      SpreadMul(ridge, Shrinkage(y, c - 1), Mul(y[c-1], y[c-1]));
      SpreadMul(TINY, Weight(a, y, c - 1), Mul(1.0 + Abs(a[c-1]), Abs(y[c-1])));
    }
  }

  lemma {:induction false} GapOfNothing(ridge: real, a: Row, y: Row, c: nat)
    requires c <= |a| && c <= |y| && forall j :: 1 <= j < c ==> y[j] == 0.0
    ensures Gap(ridge, a, y, c) == 0.0
  {
    GapStep(ridge, a, y, c);
    if c > 1 { GapOfNothing(ridge, a, y, c - 1); }
  }

  /** Coefficients are small enough for the penalty, with `n` of them. */
  predicate Small(ridge: real, n: real, a: real) {
    2.0 * n * ((1.0 + Abs(a)) * TINY) <= ridge
  }

  lemma TermBound(ridge: real, n: real, g: real, a: real, y: real)
    requires n >= 1.0 && ridge == 16.0 * (n * n * g) && Small(ridge, n, a)
    ensures Term(ridge, a, y) >= -g
    ensures y == 1.0 ==> Term(ridge, a, y) >= ridge - 8.0 * (n * g)
  {
    var t, h := Abs(y), (1.0 + Abs(a)) * TINY;
    assert y * y == t * t;
    assert h <= 8.0 * (n * g) by { Halve(n, h, g); }
    assert Mul(TINY, Mul(1.0 + Abs(a), t)) == h * t;
    ProductSign(8.0 * (n * g) - h, t);
    assert Term(ridge, a, y) >= ridge * (t * t) - 8.0 * (n * g) * t;
    Complete(n, g, t, ridge, h);
  }

  lemma Halve(n: real, h: real, g: real)
    requires n >= 1.0 && 2.0 * n * h <= 16.0 * (n * n * g)
    ensures h <= 8.0 * (n * g)
  {
    assert n * (h - 8.0 * (n * g)) == n * h - 8.0 * (n * n * g);
    FactorSign(n, h - 8.0 * (n * g));
  }

  lemma FactorSign(n: real, d: real)
    requires n > 0.0 && n * d <= 0.0
    ensures d <= 0.0
  {
  }

  lemma Complete(n: real, g: real, t: real, ridge: real, h: real)
    requires n >= 1.0 && ridge == 16.0 * (n * n * g) && 0.0 <= h <= 8.0 * (n * g)
    ensures ridge * (t * t) - 8.0 * (n * g) * t >= -g
  {
    var u := 4.0 * n * t - 1.0;
    SquareSign(u);
    assert g >= 0.0;
    ProductSign(g, u * u);
    assert u * u == 16.0 * (n * n * (t * t)) - 8.0 * (n * t) + 1.0;
    assert g * (u * u) == ridge * (t * t) - 8.0 * (n * g) * t + g;
  }

  lemma OneMoreTimes(k: nat, g: real)
    ensures Mul((k + 1) as real, g) == Mul(k as real, g) + g
    ensures Mul(0.0, g) == 0.0
  {
  }

  lemma {:induction false} GapBound(ridge: real, n: real, g: real, a: Row, y: Row, c: nat)
    requires 1 <= c <= |a| && c <= |y| && n >= 1.0 && ridge == 16.0 * (n * n * g)
    requires forall j :: 1 <= j < c ==> Small(ridge, n, a[j])
    ensures Gap(ridge, a, y, c) >= -Mul((c - 1) as real, g)
  {
    hide Gap, Term, Mul, Small;
    GapStep(ridge, a, y, c);
    if c > 1 {
      GapBound(ridge, n, g, a, y, c - 1);
      TermBound(ridge, n, g, a[c-1], y[c-1]);
      OneMoreTimes(c - 2, g);
    } else {
      OneMoreTimes(0, g);
    }
  }

  /** One entry that is one makes up for all the others. */
  lemma {:induction false} GapWithOne(ridge: real, n: real, g: real, a: Row, y: Row, i: nat, c: nat)
    requires 1 <= i < c <= |a| && c <= |y| && n >= 1.0 && ridge == 16.0 * (n * n * g) && y[i] == 1.0
    requires forall j :: 1 <= j < c ==> Small(ridge, n, a[j])
    ensures Gap(ridge, a, y, c) >= ridge - 8.0 * (n * g) - Mul((c - 2) as real, g)
  {
    hide Gap, Term, Mul, Small;
    GapStep(ridge, a, y, c);
    TermBound(ridge, n, g, a[c-1], y[c-1]);
    if i == c - 1 {
      GapBound(ridge, n, g, a, y, c - 1);
    } else {
      GapWithOne(ridge, n, g, a, y, i, c - 1);
      OneMoreTimes(c - 3, g);
    }
  }

  lemma Margin(ridge: real, n: real, g: real, a: real)
    requires n >= 1.0 && ridge == 16.0 * (n * n * g) && Small(ridge, n, a)
    ensures ridge - 8.0 * (n * g) - Mul(n - 1.0, g) >= TINY
  {
    Halve(n, (1.0 + Abs(a)) * TINY, g);
    assert TINY <= 8.0 * (n * g);
    assert n * (-g) == -(n * g);
    FactorSign(n, -g);
    ProductSign(16.0 * n - 1.0, n - 1.0);
    ProductSign(g, (16.0 * n - 1.0) * (n - 1.0));
    assert g * ((16.0 * n - 1.0) * (n - 1.0)) == 16.0 * (n * n * g) - 16.0 * (n * g) - (n - 1.0) * g;
  }

  // ---------------------------------------------------------------- no jitter

  /** The first `p` covariates of a row are small enough for the penalty. */
  predicate WellScaled(row: Row, p: nat, ridge: real)
    requires p <= |row|
  {
    forall j :: 0 <= j < p ==> Small(ridge, p as real, row[j])
  }

  /** A direction that the normal matrix hardly moves leaves little room, seen from any one sample. */
  lemma Squeeze(X: seq<Row>, ridge: real, s: nat, y: Row, c: nat)
    requires X != [] && Table(X) && s < |X| && |y| == Width(X) && NearKernel(NormalMatrix(X, ridge), y, c)
    ensures var p := Predict(X[s], y);
      Mul(p, p) + Gap(ridge, Aug(X[s], |y|), y, |y|) <= Mul(TINY, Abs(p))
  {
    hide NormalMatrix, Image, AbsSum, Weight, Shrinkage, PredictionSquares, Abs, DotFrom, Mul, Gram;
    var m, A, a, p := |y|, NormalMatrix(X, ridge), Aug(X[s], |y|), Predict(X[s], y);
    EnergyIsQuadratic(X, ridge, y);
    DotBound(Image(A, y), y, TINY, m);
    AbsSumBound(a, y, m);
    PredictIsDot(X[s], y);
    OnePrediction(X, y, s, |X|);
    TinyTimes(AbsSum(y, m), Abs(p) + Weight(a, y, m));
    SpreadMul(TINY, Abs(p), Weight(a, y, m));
  }

  lemma TinyTimes(a: real, b: real)
    requires a <= b
    ensures Mul(TINY, a) <= Mul(TINY, b)
  {
  }

  lemma Wide(X: seq<Row>, ridge: real, s: nat, y: Row, c: nat)
    requires X != [] && Table(X) && s < |X| && |y| == Width(X) && WellScaled(X[s], |X[0]|, ridge)
    requires c < |y| && y[c] == 1.0 && forall j :: c < j < |y| ==> y[j] == 0.0
    ensures var p := Predict(X[s], y);
      Mul(p, p) + Gap(ridge, Aug(X[s], |y|), y, |y|) > Mul(TINY, Abs(p))
  {
    var m, a, p := |y|, Aug(X[s], |y|), Predict(X[s], y);
    if c == 0 {
      GapOfNothing(ridge, a, y, m);
      OnlyIntercept(a, y, m);
    } else {
      hide Gap, Predict, Small;
      var n := (m - 1) as real;
      var g := ridge / (16.0 * (n * n));
      assert forall j :: 1 <= j < m ==> a[j] == X[s][j-1];
      ScaleBack(ridge, n);
      GapWithOne(ridge, n, g, a, y, c, m);
      Margin(ridge, n, g, a[c]);
      SquareWins(p);
    }
  }

  lemma ScaleBack(ridge: real, n: real)
    requires n >= 1.0
    ensures n * n > 0.0 && 16.0 * (n * n * (ridge / (16.0 * (n * n)))) == ridge
  {
    ProductSign(n, n);
    var d := 16.0 * (n * n);
    assert d * (ridge / d) == ridge;
  }

  lemma SquareWins(p: real)
    ensures Mul(p, p) + TINY > Mul(TINY, Abs(p))
  {
    var t := Abs(p);
    assert p * p == t * t;
    if t <= 0.5 {
      SquareSign(t);
    } else {
      ProductSign(t - 0.5, t);
    }
  }

  /** With one sample whose covariates are small enough for the penalty, no column takes the jitter branch. */
  lemma ScaledDataNeedNoJitter(X: seq<Row>, ridge: real, b: Row, s: nat)
    requires X != [] && Table(X) && |b| == Width(X) && s < |X| && WellScaled(X[s], |X[0]|, ridge)
    ensures JitterMarks(NormalMatrix(X, ridge), b) == map[]
  {
    hide NormalMatrix, JitterMarks, WellScaled, Gap, Predict, Abs, Mul;
    var A := NormalMatrix(X, ridge);
    if JitterMarks(A, b) != map[] {
      var y, c := JitterMeansNearKernel(A, b);
      Wide(X, ridge, s, y, c);
      Squeeze(X, ridge, s, y, c);
    }
  }

  /** On such data, whatever else they hold, the fit is the one and only minimiser of the penalised squared error. */
  lemma ScaledFitIsUniqueMinimiser(X: seq<Row>, Y: Row, ridge: real, s: nat, gamma: Row)
    requires X != [] && Table(X) && |Y| == |X| && ridge > 0.0 && |gamma| == Width(X)
    requires s < |X| && WellScaled(X[s], |X[0]|, ridge)
    ensures Samples(X, Y, Width(X))
    ensures Minimises(X, Y, ridge, gamma) <==> gamma == Fit(X, Y, ridge)
  {
    hide NormalMatrix, JitterMarks, WellScaled, Minimises, Fit;
    ScaledDataNeedNoJitter(X, ridge, NormalRhs(X, Y), s);
    FitIsUniqueMinimiser(X, Y, ridge, gamma);
  }

  // ---------------------------------------------------------------- data on which the fit is wrong

  /** Two samples with one covariate, one apart. */
  function Apart(x: real): seq<Row> {
    [[x], [x + 1.0]]
  }

  lemma TwoSamples(X: seq<Row>, Y: Row, j: nat, k: nat)
    requires |X| == |Y| == 2 && |X[0]| == |X[1]| == 1 && j < 2 && k < 2
    ensures Gram(X, 2, j, k, 2) == Mul(Aug(X[0], 2)[j], Aug(X[0], 2)[k]) + Mul(Aug(X[1], 2)[j], Aug(X[1], 2)[k])
    ensures Cross(X, Y, 2, j, 2) == Mul(Aug(X[0], 2)[j], Y[0]) + Mul(Aug(X[1], 2)[j], Y[1])
  {
    OneSample(X, Y, j, k, 1);
    OneSample(X, Y, j, k, 2);
    MomentsNext(X, Y, 2, 0);
    hide Gram, Cross, Aug, Mul;
  }

  lemma OneSample(X: seq<Row>, Y: Row, j: nat, k: nat, n: nat)
    requires |X| == |Y| == 2 && |X[0]| == |X[1]| == 1 && j < 2 && k < 2 && 1 <= n <= 2
    ensures Gram(X, 2, j, k, n) == Gram(X, 2, j, k, n - 1) + Mul(Aug(X[n-1], 2)[j], Aug(X[n-1], 2)[k])
    ensures Cross(X, Y, 2, j, n) == Cross(X, Y, 2, j, n - 1) + Mul(Aug(X[n-1], 2)[j], Y[n-1])
  {
    hide Gram, Cross, Aug;
    MomentsNext(X, Y, 2, n);
  }

  lemma ApartMoments(x: real)
    ensures var X := Apart(x);
      && Gram(X, 2, 0, 0, 2) == 2.0
      && Gram(X, 2, 0, 1, 2) == Gram(X, 2, 1, 0, 2) == 2.0 * x + 1.0
      && Gram(X, 2, 1, 1, 2) == 2.0 * (x * x) + 2.0 * x + 1.0
      && Cross(X, [0.0, 1.0], 2, 0, 2) == 1.0 && Cross(X, [0.0, 1.0], 2, 1, 2) == x + 1.0
  {
    var X, Y := Apart(x), [0.0, 1.0];
    assert Aug(X[0], 2) == [1.0, x] && Aug(X[1], 2) == [1.0, x + 1.0];
    hide Gram, Cross, Aug;
    TwoSamples(X, Y, 0, 0);
    TwoSamples(X, Y, 0, 1);
    TwoSamples(X, Y, 1, 0);
    TwoSamples(X, Y, 1, 1);
  }

  /** The normal equations of that data, in numbers. */
  lemma ApartEquations(x: real) returns (S: Matrix)
    ensures var X := Apart(x);
      var A, b := NormalMatrix(X, 0.01), NormalRhs(X, [0.0, 1.0]);
      && |A| == |b| == 2 && S == Augment(A, b)
      && S[0] == [2.0, 2.0 * x + 1.0, 1.0]
      && S[1] == [2.0 * x + 1.0, 2.0 * (x * x) + 2.0 * x + 1.01, x + 1.0]
  {
    var X := Apart(x);
    ApartMoments(x);
    var A, b := NormalMatrix(X, 0.01), NormalRhs(X, [0.0, 1.0]);
    hide Gram, Cross;
    assert A[0] == [A[0][0], A[0][1]] && A[1] == [A[1][0], A[1][1]];
    S := Augment(A, b);
  }

  /** What is left of the second pivot. */
  lemma ApartPivot(x: real)
    requires x >= 1000000000000.0
    ensures var m := 2.0 * x + 1.0;
      -TINY < m - (2.0 / m) * (2.0 * (x * x) + 2.0 * x + 1.01) < 0.0
  {
    var m := 2.0 * x + 1.0;
    var d := 2.0 * (x * x) + 2.0 * x + 1.01;
    var q := m - (2.0 / m) * d;
    assert (2.0 / m) * d == (2.0 * d) / m;
    assert q * m == m * m - 2.0 * d;
    assert m * m == 4.0 * (x * x) + 4.0 * x + 1.0;
    assert q * m == -1.02;
    SmallQuotient(q, m);
  }

  lemma SmallQuotient(q: real, m: real)
    requires q * m == -1.02 && m > 2000000000000.0
    ensures -TINY < q < 0.0
  {
    assert m * q == -1.02;
    FactorSign(m, q);
    assert m * (-TINY - q) == -TINY * m + 1.02;
    FactorSign(m, -TINY - q);
  }

  lemma ApartIsJittered(x: real)
    requires x >= 1000000000000.0
    ensures JitterMarks(NormalMatrix(Apart(x), 0.01), NormalRhs(Apart(x), [0.0, 1.0])) == map[1 := 0]
  {
    var S := ApartEquations(x);
    ApartPivot(x);
    hide NormalMatrix, NormalRhs, Augment;
    assert PivotRow(S, 0) == 1 && !NeedsJitter(S, 0);
    var N := Prepared(S, 0);
    assert N == [S[1], S[0]];
    var U := Step(S, 0);
    assert U[1] == ReducedRow(N[1], N[0], 0);
    assert U[1][1] == S[0][1] - (S[0][0] / S[1][0]) * S[1][1];
    assert PivotRow(U, 1) == 1 && NeedsJitter(U, 1);
    hide Step, PivotRow, NeedsJitter;
    var perm := Swapped(Identity(2), 0, 1);
    assert perm == [1, 0];
    MarksGoOn(S, 0, Identity(2));
    MarksGoOn(U, 1, perm);
    MarksGoOn(Step(U, 1), 2, Swapped(perm, 1, PivotRow(U, 1)));
  }

  lemma TwoEquations(S: Matrix, beta: Row, x: real)
    requires |S| == |beta| == 2 && Augmented(S)
    requires S[0] == [2.0, 2.0 * x + 1.0, 1.0] && S[1][0] == 2.0 * x + 1.0 && S[1][2] == x + 1.0
    ensures beta[1] == 0.0 ==> !Solves(S, beta)
  {
    forall r | 0 <= r < 2 ensures Residual(S[r], beta) == S[r][0] * beta[0] + S[r][1] * beta[1] - S[r][2] {
      assert DotFrom(S[r], beta, 0, 1) == DotFrom(S[r], beta, 0, 0) + S[r][0] * beta[0];
    }
    if beta[1] == 0.0 && Residual(S[0], beta) == 0.0 {
      assert beta[0] == 0.5;
      assert Residual(S[1], beta) != 0.0;
    }
  }

  lemma OnlyBumpInRowZero(x: Row)
    requires |x| == 2
    ensures BumpedUnknowns(map[1 := 0], 0, x, 2) == x[1]
  {
    assert BumpedUnknowns(map[1 := 0], 0, x, 1) == BumpedUnknowns(map[1 := 0], 0, x, 0);
  }

  lemma ApartIsHuge(x: real)
    requires x >= 1000000000000.0
    ensures forall s :: 0 <= s < 2 ==> !WellScaled(Apart(x)[s], 1, 0.01)
  {
    forall s | 0 <= s < 2 ensures !WellScaled(Apart(x)[s], 1, 0.01) {
      assert !Small(0.01, 1.0, Apart(x)[s][0]);
    }
  }

  /** The bound matters: with such large covariates and the penalty in use, the fit does not minimise. */
  lemma HugeCovariatesMissMinimum(x: real)
    requires x >= 1000000000000.0
    ensures forall s :: 0 <= s < 2 ==> !WellScaled(Apart(x)[s], 1, 0.01)
    ensures Samples(Apart(x), [0.0, 1.0], 2)
    ensures !Minimises(Apart(x), [0.0, 1.0], 0.01, Fit(Apart(x), [0.0, 1.0], 0.01))
  {
    ApartIsHuge(x);
    var X, Y := Apart(x), [0.0, 1.0];
    var beta := Fit(X, Y, 0.01);
    var S := ApartEquations(x);
    ApartIsJittered(x);
    assert Table(X) && Width(X) == 2;
    hide NormalMatrix, NormalRhs, Augment, Fit, JitterMarks, Minimises, Gram, Cross, WellScaled, Solves, Apart, Table;
    hide BumpedUnknowns, Width;
    FitMinimisesIff(X, Y, 0.01);
    NormalEquationsIffMinimiser(X, Y, 0.01, beta);
    OnlyBumpInRowZero(beta);
    TwoEquations(S, beta, x);
  }
}
