/** Ridge regression by normal equations with an unpenalised intercept: what the fitted coefficients are. */
module RidgeRegression {
  import opened Wrappers
  import opened LinearSolver

  datatype SampleError = InvalidSampleData

  /** Rows may be longer than the first one; the surplus is ignored. */
  ghost predicate Table(X: seq<Row>) {
    forall i :: 0 <= i < |X| ==> |X[i]| >= |X[0]|
  }

  /** The row with the intercept column in front, cut to `m` columns. */
  function Aug(row: Row, m: nat): (a: Row)
    requires 1 <= m <= |row| + 1
    ensures |a| == m && a[0] == 1.0
  {
    [1.0] + row[..m-1]
  }

  function Width(X: seq<Row>): (m: nat)
    requires X != []
    ensures m >= 1
  {
    |X[0]| + 1
  }

  /** Entry of X^T X over the first `n` samples. */
  function Gram(X: seq<Row>, m: nat, j: nat, k: nat, n: nat): real
    requires j < m && k < m && n <= |X| && forall i :: 0 <= i < |X| ==> m <= |X[i]| + 1
  {
    if n == 0 then 0.0 else Gram(X, m, j, k, n - 1) + Aug(X[n-1], m)[j] * Aug(X[n-1], m)[k]
  }

  /** Entry of X^T Y over the first `n` samples. */
  function Cross(X: seq<Row>, Y: Row, m: nat, j: nat, n: nat): real
    requires j < m && n <= |X| && n <= |Y| && forall i :: 0 <= i < |X| ==> m <= |X[i]| + 1
  {
    if n == 0 then 0.0 else Cross(X, Y, m, j, n - 1) + Aug(X[n-1], m)[j] * Y[n-1]
  }

  function Penalty(ridge: real, j: nat, k: nat): real {
    if j == k && j >= 1 then ridge else 0.0
  }

  function NormalMatrix(X: seq<Row>, ridge: real): (A: Matrix)
    requires X != [] && Table(X)
    ensures Square(A) && |A| == Width(X)
    ensures forall j, k :: 0 <= j < |A| && 0 <= k < |A| ==>
      A[j][k] == Gram(X, Width(X), j, k, |X|) + Penalty(ridge, j, k)
  {
    var m := Width(X);
    seq(m, j requires 0 <= j < m => seq(m, k requires 0 <= k < m => Gram(X, m, j, k, |X|) + Penalty(ridge, j, k)))
  }

  function NormalRhs(X: seq<Row>, Y: Row): (b: Row)
    requires X != [] && Table(X) && |Y| == |X|
    ensures |b| == Width(X) && forall j :: 0 <= j < |b| ==> b[j] == Cross(X, Y, Width(X), j, |X|)
  {
    var m := Width(X);
    seq(m, j requires 0 <= j < m => Cross(X, Y, m, j, |X|))
  }

  /** The fitted coefficients, intercept first. */
  function Fit(X: seq<Row>, Y: Row, ridge: real): (beta: Row)
    requires X != [] && Table(X) && |Y| == |X|
    ensures |beta| == Width(X)
  {
    Solution(NormalMatrix(X, ridge), NormalRhs(X, Y))
  }

  // ---------------------------------------------------------------- the methods of the source

  /** One sample's contribution, in the double loop of the source. */
  method AddSample(A0: Matrix, b0: Row, row: Row, y: real) returns (A: Matrix, b: Row)
    requires Square(A0) && |b0| == |A0| == |row|
    ensures Square(A) && |A| == |A0| && |b| == |b0|
    ensures forall j :: 0 <= j < |b| ==> b[j] == b0[j] + row[j] * y
    ensures forall j, k :: 0 <= j < |A| && 0 <= k < |A| ==> A[j][k] == A0[j][k] + row[j] * row[k]
  {
    A, b := A0, b0;
    for j := 0 to |row|
      invariant Square(A) && |A| == |A0| && |b| == |b0|
      invariant forall r :: 0 <= r < |b| ==> b[r] == if r < j then b0[r] + row[r] * y else b0[r]
      invariant forall r :: j <= r < |A| ==> A[r] == A0[r]
      invariant forall r, k :: 0 <= r < j && 0 <= k < |A| ==> A[r][k] == A0[r][k] + row[r] * row[k]
    {
      b := b[j := b[j] + row[j] * y];
      var Aj := AddScaled(A[j], row, row[j]);
      A := A[j := Aj];
    }
  }

  method AddScaled(v: Row, row: Row, w: real) returns (r: Row)
    requires |v| == |row|
    ensures |r| == |v| && forall k :: 0 <= k < |v| ==> r[k] == v[k] + w * row[k]
  {
    r := v;
    for k := 0 to |row|
      invariant |r| == |v| && forall c :: 0 <= c < |v| ==> r[c] == if c < k then v[c] + w * row[c] else v[c]
    {
      r := r[k := r[k] + w * row[k]];
    }
  }

  method NormalEquations(X: seq<Row>, Y: Row) returns (A: Matrix, b: Row)
    requires X != [] && Table(X) && |Y| == |X|
    ensures Square(A) && |A| == |b| == Width(X)
    ensures forall j :: 0 <= j < |b| ==> b[j] == Cross(X, Y, Width(X), j, |X|)
    ensures forall j, k :: 0 <= j < |A| && 0 <= k < |A| ==> A[j][k] == Gram(X, Width(X), j, k, |X|)
  {
    hide Gram, Cross;
    var m := Width(X);
    MomentsNext(X, Y, m, 0);
    A, b := seq(m, _ => Zeros(m)), Zeros(m);
    for i := 0 to |X|
      invariant Square(A) && |A| == m && |b| == m
      invariant forall j :: 0 <= j < m ==> b[j] == Cross(X, Y, m, j, i)
      invariant forall j, k :: 0 <= j < m && 0 <= k < m ==> A[j][k] == Gram(X, m, j, k, i)
    {
      MomentsNext(X, Y, m, i + 1);
      A, b := AddSample(A, b, Aug(X[i], m), Y[i]);
    }
  }

  lemma MomentsNext(X: seq<Row>, Y: Row, m: nat, n: nat)
    requires 1 <= m && n <= |X| && n <= |Y| && forall i :: 0 <= i < |X| ==> m <= |X[i]| + 1
    ensures n == 0 ==> forall j :: 0 <= j < m ==> Cross(X, Y, m, j, 0) == 0.0
    ensures n == 0 ==> forall j, k :: 0 <= j < m && 0 <= k < m ==> Gram(X, m, j, k, 0) == 0.0
    ensures n > 0 ==> forall j :: 0 <= j < m ==>
      Cross(X, Y, m, j, n) == Cross(X, Y, m, j, n - 1) + Aug(X[n-1], m)[j] * Y[n-1]
    ensures n > 0 ==> forall j, k :: 0 <= j < m && 0 <= k < m ==>
      Gram(X, m, j, k, n) == Gram(X, m, j, k, n - 1) + Aug(X[n-1], m)[j] * Aug(X[n-1], m)[k]
  {
  }

  /** The ridge penalty goes on the diagonal, except for the intercept. */
  method AddPenalty(A0: Matrix, ridge: real) returns (A: Matrix)
    requires Square(A0) && |A0| >= 1
    ensures Square(A) && |A| == |A0|
    ensures forall j, k :: 0 <= j < |A| && 0 <= k < |A| ==> A[j][k] == A0[j][k] + Penalty(ridge, j, k)
  {
    A := A0;
    for j := 1 to |A|
      invariant Square(A) && |A| == |A0|
      invariant forall r, k :: 0 <= r < |A| && 0 <= k < |A| ==>
        A[r][k] == A0[r][k] + if r < j then Penalty(ridge, r, k) else 0.0
    {
      A := A[j := A[j][j := A[j][j] + ridge]];
    }
  }

  method FitRidgeLinearRegression(X: seq<Row>, Y: Row, ridge: real) returns (r: Result<Row, SampleError>)
    requires Table(X)
    ensures r.Failure? <==> X == [] || |Y| != |X|
    ensures r.Success? ==> r.value == Fit(X, Y, ridge)
  {
    var n := |X|;
    if n == 0 || |Y| != n {
      return Failure(InvalidSampleData);
    }
    var A, b := NormalEquations(X, Y);
    A := AddPenalty(A, ridge);
    SameMatrix(A, NormalMatrix(X, ridge));
    assert b == NormalRhs(X, Y);
    var beta := SolveLinearSystem(A, b);
    r := Success(beta);
  }

  lemma SameMatrix(A: Matrix, B: Matrix)
    requires Square(A) && Square(B) && |A| == |B|
    requires forall j, k :: 0 <= j < |A| && 0 <= k < |A| ==> A[j][k] == B[j][k]
    ensures A == B
  {
    forall j | 0 <= j < |A| ensures A[j] == B[j] {}
  }

  /** The linear prediction for one row. */
  function Predict(row: Row, beta: Row): real
    requires 1 <= |beta| <= |row| + 1
  {
    DotFrom(Aug(row, |beta|), beta, 0, |beta|)
  }

  lemma {:induction false} PredictAsSum(row: Row, beta: Row, j: nat)
    requires 1 <= |beta| <= |row| + 1 && j < |beta|
    ensures DotFrom(Aug(row, |beta|), beta, 0, j + 1) == beta[0] + DotFrom(beta[1..], row, 0, j)
  {
    if j > 0 {
      PredictAsSum(row, beta, j - 1);
      assert Aug(row, |beta|)[j] == row[j-1];
    } else {
      assert DotFrom(Aug(row, |beta|), beta, 0, 0) == 0.0;
    }
  }

  method PredictLinear(X: seq<Row>, beta: Row) returns (preds: Row)
    requires |beta| >= 1 && forall i :: 0 <= i < |X| ==> |beta| <= |X[i]| + 1
    ensures |preds| == |X| && forall i :: 0 <= i < |X| ==> preds[i] == Predict(X[i], beta)
  {
    preds := [];
    var p := |beta| - 1;
    for i := 0 to |X|
      invariant |preds| == i && forall k :: 0 <= k < i ==> preds[k] == Predict(X[k], beta)
    {
      var s := 0.0;
      for j := 0 to p
        invariant s == DotFrom(beta[1..], X[i], 0, j)
      {
        s := s + beta[j+1] * X[i][j];
      }
      PredictAsSum(X[i], beta, p);
      preds := preds + [beta[0] + s];
    }
  }
}
