/** The doubly robust point estimate (AIPW) over ridge outcome models, and what it is under a constant propensity. */
module Aipw {
  import opened Wrappers
  import opened LinearSolver
  import opened LinearSystems
  import opened RidgeRegression
  import opened RidgeOptimality
  import opened JitterFree

  datatype CausalError = InsufficientSample | InvalidSample | OverlapViolation

  const LAMBDA: real := 0.01
  const MIN_SAMPLES := 4

  // ---------------------------------------------------------------- specification

  /** The entries whose label is `t`, in order. */
  function Select<T>(s: seq<T>, labels: seq<int>, t: int, n: nat): (r: seq<T>)
    requires n <= |s| && n <= |labels|
    ensures forall x :: x in r ==> x in s
  {
    if n == 0 then []
    else if labels[n-1] == t then Select(s, labels, t, n - 1) + [s[n-1]]
    else Select(s, labels, t, n - 1)
  }

  function Clamp(lo: real, hi: real, p: real): real {
    var q := if p < hi then p else hi;
    if q > lo then q else lo
  }

  /** Quotients under a name, as for `Mul`. */
  function Over(a: real, c: real): real
    requires c != 0.0
  {
    a / c
  }

  /** One sample's influence value. */
  function Psi(e: real, t: int, y: real, m1: real, m0: real): real
    requires e != 0.0 && e != 1.0
  {
    (m1 - m0) + Over(Mul(t as real, y - m1), e) - Over(Mul((1 - t) as real, y - m0), 1.0 - e)
  }

  /** Rows share one width, and every row has a label and an outcome. */
  ghost predicate Study(X: seq<Row>, T: seq<int>, Y: Row) {
    && |T| >= |X| && |Y| >= |X|
    && forall i :: 0 <= i < |X| ==> |X[i]| == |X[0]|
  }

  ghost predicate Bounds(lo: real, hi: real) {
    0.0 < lo < 1.0 && hi < 1.0
  }

  ghost function PsiSum(X: seq<Row>, T: seq<int>, Y: Row, e: Row, lo: real, hi: real, b1: Row, b0: Row, n: nat): real
    requires Study(X, T, Y) && |e| >= |X| && Bounds(lo, hi) && n <= |X|
    requires |b1| == |b0| >= 1 && forall i :: 0 <= i < |X| ==> |b1| == |X[i]| + 1
  {
    if n == 0 then 0.0 else
    PsiSum(X, T, Y, e, lo, hi, b1, b0, n - 1)
      + Psi(Clamp(lo, hi, e[n-1]), T[n-1], Y[n-1], Predict(X[n-1], b1), Predict(X[n-1], b0))
  }

  predicate Binary(T: seq<int>) {
    forall i :: 0 <= i < |T| ==> T[i] == 0 || T[i] == 1
  }

  ghost predicate BothArms(X: seq<Row>, T: seq<int>)
    requires |T| >= |X|
  {
    Select(X, T, 1, |X|) != [] && Select(X, T, 0, |X|) != []
  }

  lemma {:induction false} ArmShape(X: seq<Row>, T: seq<int>, Y: Row, t: int, n: nat)
    requires Study(X, T, Y) && n <= |X|
    ensures |Select(Y, T, t, n)| == |Select(X, T, t, n)|
    ensures forall i :: 0 <= i < |Select(X, T, t, n)| ==> |Select(X, T, t, n)[i]| == |X[0]|
  {
    if n > 0 { ArmShape(X, T, Y, t, n - 1); }
  }

  /** The outcome model of one arm. */
  ghost function ArmFit(X: seq<Row>, T: seq<int>, Y: Row, t: int): (beta: Row)
    requires Study(X, T, Y) && Select(X, T, t, |X|) != []
    ensures |beta| == |X[0]| + 1
  {
    ArmShape(X, T, Y, t, |X|);
    Fit(Select(X, T, t, |X|), Select(Y, T, t, |X|), LAMBDA)
  }

  ghost function Ate(X: seq<Row>, T: seq<int>, Y: Row, e: Row, lo: real, hi: real): real
    requires X != [] && Study(X, T, Y) && |e| >= |X| && Bounds(lo, hi) && BothArms(X, T)
  {
    PsiSum(X, T, Y, e, lo, hi, ArmFit(X, T, Y, 1), ArmFit(X, T, Y, 0), |X|) / |X| as real
  }

  // ---------------------------------------------------------------- the methods of the source

  function LabelSum(T: seq<int>, n: nat): int
    requires n <= |T|
  {
    if n == 0 then 0 else LabelSum(T, n - 1) + T[n-1]
  }

  /** The treatment rate, held between 0.001 and 0.999, for every sample. */
  function TrivialScores(n: nat, T: seq<int>): (e: Row)
    requires n > 0
    ensures |e| == n
  {
    seq(n, _ => Clamp(0.001, 0.999, LabelSum(T, |T|) as real / n as real))
  }

  /** Without covariates every score is the clamped treatment rate; `learned` stands for the logistic fit otherwise. */
  method PropensityScores(X: seq<Row>, T: seq<int>, learned: Row) returns (r: Result<Row, CausalError>)
    requires |learned| == |X|
    ensures r.Failure? <==> X == [] || |T| != |X|
    ensures r.Failure? ==> r.error == InvalidSample
    ensures r.Success? && |X[0]| > 0 ==> r.value == learned
    ensures r.Success? && |X[0]| == 0 ==> r.value == TrivialScores(|X|, T)
  {
    var n := |X|;
    if n == 0 || |T| != n {
      return Failure(InvalidSample);
    }
    if |X[0]| == 0 {
      var total := 0;
      for i := 0 to |T|
        invariant total == LabelSum(T, i)
      {
        total := total + T[i];
      }
      var rate := Clamp(0.001, 0.999, total as real / n as real);
      return Success(seq(n, _ => rate));
    }
    r := Success(learned);
  }

  method Arm<V>(s: seq<V>, labels: seq<int>, t: int, n: nat) returns (r: seq<V>)
    requires n <= |s| && n <= |labels|
    ensures r == Select(s, labels, t, n)
  {
    r := [];
    for i := 0 to n
      invariant r == Select(s, labels, t, i)
    {
      if labels[i] == t {
        r := r + [s[i]];
      }
    }
  }

  method FitArm(X: seq<Row>, T: seq<int>, Y: Row, t: int) returns (r: Option<Row>)
    requires Study(X, T, Y)
    ensures r.None? <==> Select(X, T, t, |X|) == []
    ensures r.Some? ==> r.value == ArmFit(X, T, Y, t)
  {
    var Xt := Arm(X, T, t, |X|);
    var Yt := Arm(Y, T, t, |X|);
    if Xt == [] {
      return None;
    }
    ArmShape(X, T, Y, t, |X|);
    var beta := FitRidgeLinearRegression(Xt, Yt, LAMBDA);
    r := Some(beta.value);
  }

  method EstimateAipwAte(X: seq<Row>, T: seq<int>, Y: Row, propensity: Option<Row>, learned: Row, lo: real, hi: real)
    returns (r: Result<real, CausalError>)
    requires |learned| == |X| && Bounds(lo, hi)
    requires |Y| >= |X| && forall i :: 0 <= i < |X| ==> |X[i]| == |X[0]|
    requires propensity.Some? ==> |propensity.value| >= |X| && |T| >= |X|
    ensures |X| < 4 ==> r == Failure(InsufficientSample)
    ensures |X| >= 4 && propensity.None? && |T| != |X| ==> r == Failure(InvalidSample)
    ensures |X| >= 4 && (propensity.Some? || |T| == |X|) ==> (r.Success? <==> BothArms(X, T))
    ensures |X| >= 4 && (propensity.Some? || |T| == |X|) && r.Failure? ==> r.error == OverlapViolation
    ensures r.Success? && propensity.Some? ==> r.value == Ate(X, T, Y, propensity.value, lo, hi)
    ensures r.Success? && propensity.None? && |X[0]| > 0 ==> r.value == Ate(X, T, Y, learned, lo, hi)
    ensures r.Success? && propensity.None? && |X[0]| == 0 ==> r.value == Ate(X, T, Y, TrivialScores(|X|, T), lo, hi)
    ensures r.Success? && propensity.None? && |X[0]| == 0 && Binary(T) ==>
      r.value == ArmMean(X, T, Y, 1) - ArmMean(X, T, Y, 0)
  {
    var n := |X|;
    if n < MIN_SAMPLES {
      return Failure(InsufficientSample);
    }
    var scores: Row;
    match propensity {
      case Some(given) => scores := given;
      case None =>
        var computed := PropensityScores(X, T, learned);
        if computed.Failure? {
          return Failure(computed.error);
        }
        scores := computed.value;
    }
    var beta1 := FitArm(X, T, Y, 1);
    var beta0 := FitArm(X, T, Y, 0);
    if beta1.None? || beta0.None? {
      return Failure(OverlapViolation);
    }
    var total := SumPsi(X, T, Y, scores, lo, hi, beta1.value, beta0.value);
    r := Success(total / n as real);
    if propensity.None? && |X[0]| == 0 && Binary(T) {
      TrivialScoresEstimate(X, T, Y, lo, hi);
    }
  }

  method SumPsi(X: seq<Row>, T: seq<int>, Y: Row, scores: Row, lo: real, hi: real, beta1: Row, beta0: Row)
    returns (total: real)
    requires Study(X, T, Y) && |scores| >= |X| && Bounds(lo, hi)
    requires |beta1| == |beta0| >= 1 && forall i :: 0 <= i < |X| ==> |beta1| == |X[i]| + 1
    ensures total == PsiSum(X, T, Y, scores, lo, hi, beta1, beta0, |X|)
  {
    hide Predict, Psi;
    var mu1 := PredictLinear(X, beta1);
    var mu0 := PredictLinear(X, beta0);
    total := 0.0;
    for i := 0 to |X|
      invariant total == PsiSum(X, T, Y, scores, lo, hi, beta1, beta0, i)
    {
      var e := Clamp(lo, hi, scores[i]);
      total := total + Psi(e, T[i], Y[i], mu1[i], mu0[i]);
    }
  }

  // ---------------------------------------------------------------- residuals of an arm

  /** The sum of the residuals of the samples labelled `t`. */
  ghost function ArmError(X: seq<Row>, T: seq<int>, Y: Row, t: int, beta: Row, n: nat): real
    requires Study(X, T, Y) && n <= |X| && |beta| >= 1 && forall i :: 0 <= i < |X| ==> |beta| == |X[i]| + 1
  {
    if n == 0 then 0.0 else
    ArmError(X, T, Y, t, beta, n - 1) + if T[n-1] == t then Y[n-1] - Predict(X[n-1], beta) else 0.0
  }

  lemma {:induction false} ArmErrorIsScore(X: seq<Row>, T: seq<int>, Y: Row, t: int, beta: Row, n: nat)
    requires Study(X, T, Y) && n <= |X| && |beta| >= 1 && forall i :: 0 <= i < |X| ==> |beta| == |X[i]| + 1
    ensures Samples(Select(X, T, t, n), Select(Y, T, t, n), |beta|)
    ensures ArmError(X, T, Y, t, beta, n)
      == Score(Select(X, T, t, n), Select(Y, T, t, n), beta, 0, |Select(X, T, t, n)|)
  {
    ArmShape(X, T, Y, t, n);
    if n > 0 {
      hide Predict;
      ArmErrorIsScore(X, T, Y, t, beta, n - 1);
      if T[n-1] == t {
        ScoreAppend(Select(X, T, t, n - 1), Select(Y, T, t, n - 1), X[n-1], Y[n-1], beta);
      }
    }
  }

  lemma ScoreAppend(X: seq<Row>, Y: Row, row: Row, y: real, beta: Row)
    requires Samples(X, Y, |beta|) && |beta| == |row| + 1
    ensures Samples(X + [row], Y + [y], |beta|)
    ensures Score(X + [row], Y + [y], beta, 0, |X| + 1) == Score(X, Y, beta, 0, |X|) + (y - Predict(row, beta))
  {
    hide Predict;
    ScorePrefix(X, Y, [row], [y], beta, |X|);
    assert Aug(row, |beta|)[0] == 1.0;
    assert (X + [row])[|X|] == row && (Y + [y])[|X|] == y;
  }

  lemma {:induction false} ScorePrefix(X: seq<Row>, Y: Row, X': seq<Row>, Y': Row, beta: Row, n: nat)
    requires Samples(X, Y, |beta|) && Samples(X + X', Y + Y', |beta|) && n <= |X|
    ensures Score(X + X', Y + Y', beta, 0, n) == Score(X, Y, beta, 0, n)
  {
    if n > 0 {
      hide Predict, Aug;
      ScorePrefix(X, Y, X', Y', beta, n - 1);
      assert (X + X')[n-1] == X[n-1] && (Y + Y')[n-1] == Y[n-1];
    }
  }

  /** What the jitter, if any, leaves in the first normal equation of an arm; zero without a jitter. */
  ghost function InterceptLeak(X: seq<Row>, T: seq<int>, Y: Row, t: int): real
    requires Study(X, T, Y) && Select(X, T, t, |X|) != []
  {
    ArmShape(X, T, Y, t, |X|);
    var A, b := NormalMatrix(Select(X, T, t, |X|), LAMBDA), NormalRhs(Select(X, T, t, |X|), Select(Y, T, t, |X|));
    JITTER * BumpedUnknowns(JitterMarks(A, b), 0, Solution(A, b), |A|)
  }

  /**
   * The intercept is not penalised, so the residuals of an arm add up to what the jitter leaks, and to zero without
   * one.
   */
  lemma ArmResidualsCancel(X: seq<Row>, T: seq<int>, Y: Row, t: int)
    requires Study(X, T, Y) && Select(X, T, t, |X|) != []
    ensures ArmError(X, T, Y, t, ArmFit(X, T, Y, t), |X|) == InterceptLeak(X, T, Y, t)
  {
    hide Solution, JitterMarks, BumpedUnknowns, ArmError, Score, Residual;
    var beta := ArmFit(X, T, Y, t);
    ArmShape(X, T, Y, t, |X|);
    ArmErrorIsScore(X, T, Y, t, beta, |X|);
    var Xt, Yt := Select(X, T, t, |X|), Select(Y, T, t, |X|);
    ResidualIsSlope(Xt, Yt, LAMBDA, beta, 0);
    SolutionResidual(NormalMatrix(Xt, LAMBDA), NormalRhs(Xt, Yt), 0);
  }

  lemma {:induction false} NothingBumped(r: nat, x: Row, c: nat)
    requires c <= |x|
    ensures BumpedUnknowns(map[], r, x, c) == 0.0
  {
    if c > 0 { NothingBumped(r, x, c - 1); }
  }

  // ---------------------------------------------------------------- constant propensity

  ghost function EffectSum(X: seq<Row>, b1: Row, b0: Row, n: nat): real
    requires n <= |X| && |b1| == |b0| >= 1 && forall i :: 0 <= i < |X| ==> |b1| == |X[i]| + 1
  {
    if n == 0 then 0.0 else EffectSum(X, b1, b0, n - 1) + (Predict(X[n-1], b1) - Predict(X[n-1], b0))
  }

  /** All clamped scores are `c`, and every label is 0 or 1. */
  ghost predicate ConstantPropensity(T: seq<int>, e: Row, lo: real, hi: real, c: real, n: nat)
    requires n <= |T| && n <= |e|
  {
    forall i :: 0 <= i < n ==> Clamp(lo, hi, e[i]) == c && (T[i] == 0 || T[i] == 1)
  }

  lemma {:induction false} PsiSumSplits(X: seq<Row>, T: seq<int>, Y: Row, e: Row, lo: real, hi: real, b1: Row, b0: Row,
                                        c: real, n: nat)
    requires Study(X, T, Y) && |e| >= |X| && Bounds(lo, hi) && n <= |X|
    requires |b1| == |b0| >= 1 && forall i :: 0 <= i < |X| ==> |b1| == |X[i]| + 1
    requires 0.0 < c < 1.0 && ConstantPropensity(T, e, lo, hi, c, n)
    ensures PsiSum(X, T, Y, e, lo, hi, b1, b0, n) ==
      EffectSum(X, b1, b0, n) + Over(ArmError(X, T, Y, 1, b1, n), c) - Over(ArmError(X, T, Y, 0, b0, n), 1.0 - c)
  {
    hide Predict, Clamp, Psi, Over;
    if n == 0 {
      NothingOver(c);
      NothingOver(1.0 - c);
    } else {
      PsiSumSplits(X, T, Y, e, lo, hi, b1, b0, c, n - 1);
      var m1, m0, y := Predict(X[n-1], b1), Predict(X[n-1], b0), Y[n-1];
      if T[n-1] == 1 {
        Quotients(ArmError(X, T, Y, 1, b1, n - 1), y - m1, c);
        PsiTreated(c, y, m1, m0, T[n-1]);
      } else {
        Quotients(ArmError(X, T, Y, 0, b0, n - 1), y - m0, 1.0 - c);
        PsiControl(c, y, m1, m0, T[n-1]);
      }
    }
  }

  lemma NothingOver(c: real)
    requires c != 0.0
    ensures Over(0.0, c) == 0.0
  {
  }

  lemma Quotients(a: real, b: real, c: real)
    requires c != 0.0
    ensures Over(a + b, c) == Over(a, c) + Over(b, c)
  {
  }

  lemma ZeroTimes(a: real, b: real)
    requires a == 0.0
    ensures Mul(a, b) == 0.0
  {
  }

  lemma OneTimes(a: real, b: real)
    requires a == 1.0
    ensures Mul(a, b) == b
  {
  }

  lemma PsiTreated(c: real, y: real, m1: real, m0: real, t: int)
    requires 0.0 < c < 1.0 && t == 1
    ensures Psi(c, t, y, m1, m0) == (m1 - m0) + Over(y - m1, c)
  {
    hide Over, Mul;
    ZeroTimes((1 - t) as real, y - m0);
    OneTimes(t as real, y - m1);
    NothingOver(1.0 - c);
  }

  lemma PsiControl(c: real, y: real, m1: real, m0: real, t: int)
    requires 0.0 < c < 1.0 && t == 0
    ensures Psi(c, t, y, m1, m0) == (m1 - m0) - Over(y - m0, 1.0 - c)
  {
    hide Over, Mul;
    ZeroTimes(t as real, y - m1);
    OneTimes((1 - t) as real, y - m0);
    NothingOver(c);
  }

  /** Under a constant propensity the estimate is the mean modelled effect, plus only what a jitter leaks. */
  lemma ConstantPropensityEstimate(X: seq<Row>, T: seq<int>, Y: Row, e: Row, lo: real, hi: real, c: real)
    requires X != [] && Study(X, T, Y) && |e| >= |X| && Bounds(lo, hi) && BothArms(X, T)
    requires 0.0 < c < 1.0 && ConstantPropensity(T, e, lo, hi, c, |X|)
    ensures Mul(|X| as real, Ate(X, T, Y, e, lo, hi)) ==
      EffectSum(X, ArmFit(X, T, Y, 1), ArmFit(X, T, Y, 0), |X|)
        + Over(InterceptLeak(X, T, Y, 1), c) - Over(InterceptLeak(X, T, Y, 0), 1.0 - c)
  {
    hide PsiSum, EffectSum, ArmError, ArmFit, InterceptLeak, ConstantPropensity, Over, Mul;
    var b1, b0 := ArmFit(X, T, Y, 1), ArmFit(X, T, Y, 0);
    PsiSumSplits(X, T, Y, e, lo, hi, b1, b0, c, |X|);
    ArmResidualsCancel(X, T, Y, 1);
    ArmResidualsCancel(X, T, Y, 0);
    MulDiv(PsiSum(X, T, Y, e, lo, hi, b1, b0, |X|), |X| as real);
  }

  lemma MulDiv(a: real, n: real)
    requires n != 0.0
    ensures Mul(n, a / n) == a
  {
  }

  /** Without jitters the correction terms cancel exactly. */
  lemma ConstantPropensityExact(X: seq<Row>, T: seq<int>, Y: Row, e: Row, lo: real, hi: real, c: real)
    requires X != [] && Study(X, T, Y) && |e| >= |X| && Bounds(lo, hi) && BothArms(X, T)
    requires 0.0 < c < 1.0 && ConstantPropensity(T, e, lo, hi, c, |X|)
    requires NoJitter(X, T, Y, 1) && NoJitter(X, T, Y, 0)
    ensures Mul(|X| as real, Ate(X, T, Y, e, lo, hi)) == EffectSum(X, ArmFit(X, T, Y, 1), ArmFit(X, T, Y, 0), |X|)
  {
    hide Ate, EffectSum, ArmFit, NoJitter, InterceptLeak, Over, ConstantPropensity, Mul;
    NothingOver(c);
    NothingOver(1.0 - c);
    ConstantPropensityEstimate(X, T, Y, e, lo, hi, c);
    NoLeak(X, T, Y, 1);
    NoLeak(X, T, Y, 0);
  }

  ghost predicate NoJitter(X: seq<Row>, T: seq<int>, Y: Row, t: int)
    requires Study(X, T, Y) && Select(X, T, t, |X|) != []
  {
    ArmShape(X, T, Y, t, |X|);
    var Xt, Yt := Select(X, T, t, |X|), Select(Y, T, t, |X|);
    JitterMarks(NormalMatrix(Xt, LAMBDA), NormalRhs(Xt, Yt)) == map[]
  }

  lemma NoLeak(X: seq<Row>, T: seq<int>, Y: Row, t: int)
    requires Study(X, T, Y) && Select(X, T, t, |X|) != [] && NoJitter(X, T, Y, t)
    ensures InterceptLeak(X, T, Y, t) == 0.0
  {
    ArmShape(X, T, Y, t, |X|);
    var A, b := NormalMatrix(Select(X, T, t, |X|), LAMBDA), NormalRhs(Select(X, T, t, |X|), Select(Y, T, t, |X|));
    NothingBumped(0, Solution(A, b), |A|);
  }

  lemma {:induction false} SelectHas<V>(s: seq<V>, labels: seq<int>, t: int, n: nat, i: nat)
    requires i < n <= |s| && n <= |labels| && labels[i] == t
    ensures s[i] in Select(s, labels, t, n)
  {
    if i < n - 1 { SelectHas(s, labels, t, n - 1, i); }
  }

  /** One sample of the arm with covariates of up to 5e9 / p - 1, with p covariates, keeps the arm free of jitters. */
  lemma ScaledArmNeedsNoJitter(X: seq<Row>, T: seq<int>, Y: Row, t: int, i: nat)
    requires Study(X, T, Y) && i < |X| && T[i] == t && WellScaled(X[i], |X[0]|, LAMBDA)
    ensures Select(X, T, t, |X|) != [] && NoJitter(X, T, Y, t)
  {
    hide WellScaled, JitterMarks, NormalMatrix;
    SelectHas(X, T, t, |X|, i);
    ArmShape(X, T, Y, t, |X|);
    var Xt, Yt := Select(X, T, t, |X|), Select(Y, T, t, |X|);
    var s :| 0 <= s < |Xt| && Xt[s] == X[i];
    ScaledDataNeedNoJitter(Xt, LAMBDA, NormalRhs(Xt, Yt), s);
  }

  /** One such sample in each arm is all it takes for the correction terms to cancel under a constant propensity. */
  lemma ConstantPropensityScaled(X: seq<Row>, T: seq<int>, Y: Row, e: Row, lo: real, hi: real, c: real, i: nat, j: nat)
    requires Study(X, T, Y) && |e| >= |X| && Bounds(lo, hi)
    requires i < |X| && T[i] == 1 && WellScaled(X[i], |X[0]|, LAMBDA)
    requires j < |X| && T[j] == 0 && WellScaled(X[j], |X[0]|, LAMBDA)
    requires 0.0 < c < 1.0 && ConstantPropensity(T, e, lo, hi, c, |X|)
    ensures BothArms(X, T)
    ensures Mul(|X| as real, Ate(X, T, Y, e, lo, hi)) == EffectSum(X, ArmFit(X, T, Y, 1), ArmFit(X, T, Y, 0), |X|)
  {
    hide WellScaled, NoJitter, Ate, EffectSum, ArmFit, ConstantPropensity, Mul, Select;
    ScaledArmNeedsNoJitter(X, T, Y, 1, i);
    ScaledArmNeedsNoJitter(X, T, Y, 0, j);
    ConstantPropensityExact(X, T, Y, e, lo, hi, c);
  }

  // ---------------------------------------------------------------- no covariates

  ghost function Total(Y: Row, n: nat): real
    requires n <= |Y|
  {
    if n == 0 then 0.0 else Total(Y, n - 1) + Y[n-1]
  }

  lemma {:induction false} InterceptMoments(X: seq<Row>, Y: Row, n: nat)
    requires n <= |X| == |Y| && forall i :: 0 <= i < |X| ==> |X[i]| == 0
    ensures Gram(X, 1, 0, 0, n) == n as real && Cross(X, Y, 1, 0, n) == Total(Y, n)
  {
    if n > 0 { InterceptMoments(X, Y, n - 1); }
  }

  /** With the intercept alone no jitter occurs and the fit is the mean. */
  lemma InterceptOnlyFit(X: seq<Row>, Y: Row)
    requires X != [] && |Y| == |X| && forall i :: 0 <= i < |X| ==> |X[i]| == 0
    ensures JitterMarks(NormalMatrix(X, LAMBDA), NormalRhs(X, Y)) == map[]
    ensures Fit(X, Y, LAMBDA)[0] * |X| as real == Total(Y, |Y|)
  {
    hide Gram, Cross, Solution, JitterMarks, Total;
    var A, b := NormalMatrix(X, LAMBDA), NormalRhs(X, Y);
    InterceptMoments(X, Y, |X|);
    assert |A| == 1 && A[0][0] == |X| as real && b[0] == Total(Y, |Y|);
    OneEquation(A, b);
  }

  lemma OneEquation(A: Matrix, b: Row)
    requires Square(A) && |A| == |b| == 1 && A[0][0] >= 1.0
    ensures JitterMarks(A, b) == map[] && Solution(A, b)[0] * A[0][0] == b[0]
  {
    hide Solution, JitterMarks, Residual;
    OnePivot(A, b);
    ExactWithoutJitter(A, b);
    var S, x := Augment(A, b), Solution(A, b);
    assert S[0] == A[0] + [b[0]];
    assert Solves(S, x) && Residual(S[0], x) == 0.0;
    ResidualOfOne(S[0], x);
  }

  lemma ResidualOfOne(row: Row, x: Row)
    requires |row| == 2 && |x| == 1
    ensures Residual(row, x) == x[0] * row[0] - row[1]
  {
    assert DotFrom(row, x, 0, 1) == DotFrom(row, x, 0, 0) + row[0] * x[0];
  }

  lemma OnePivot(A: Matrix, b: Row)
    requires Square(A) && |A| == |b| == 1 && A[0][0] >= 1.0
    ensures JitterMarks(A, b) == map[]
  {
    hide Step, Swapped;
    var S := Augment(A, b);
    assert S[0][0] == A[0][0];
    assert !NeedsJitter(S, 0);
    MarksGoOn(S, 0, Identity(1));
    MarksGoOn(Step(S, 0), 1, Swapped(Identity(1), 0, PivotRow(S, 0)));
  }

  lemma OneMore(n: nat, d: real)
    requires n > 0
    ensures Mul(n as real, d) == Mul((n - 1) as real, d) + d
  {
  }

  lemma {:induction false} EffectSumConstant(X: seq<Row>, b1: Row, b0: Row, n: nat)
    requires n <= |X| && |b1| == |b0| == 1 && forall i :: 0 <= i < |X| ==> |X[i]| == 0
    ensures EffectSum(X, b1, b0, n) == Mul(n as real, b1[0] - b0[0])
  {
    hide Mul;
    if n > 0 {
      EffectSumConstant(X, b1, b0, n - 1);
      OnlyIntercept(Aug(X[n-1], 1), b1, 1);
      OnlyIntercept(Aug(X[n-1], 1), b0, 1);
      OneMore(n, b1[0] - b0[0]);
    } else {
      ZeroTimes(0.0, b1[0] - b0[0]);
    }
  }

  ghost function ArmMean(X: seq<Row>, T: seq<int>, Y: Row, t: int): real
    requires Study(X, T, Y) && Select(X, T, t, |X|) != []
  {
    ArmShape(X, T, Y, t, |X|);
    var Yt := Select(Y, T, t, |X|);
    Total(Yt, |Yt|) / |Yt| as real
  }

  lemma ArmFitIsMean(X: seq<Row>, T: seq<int>, Y: Row, t: int)
    requires Study(X, T, Y) && Select(X, T, t, |X|) != [] && forall i :: 0 <= i < |X| ==> |X[i]| == 0
    ensures NoJitter(X, T, Y, t) && ArmFit(X, T, Y, t)[0] == ArmMean(X, T, Y, t)
  {
    hide Fit, JitterMarks, Total;
    ArmShape(X, T, Y, t, |X|);
    var Xt, Yt := Select(X, T, t, |X|), Select(Y, T, t, |X|);
    InterceptOnlyFit(Xt, Yt);
    DivMul(Fit(Xt, Yt, LAMBDA)[0], |Xt| as real);
    assert ArmFit(X, T, Y, t) == Fit(Xt, Yt, LAMBDA);
    assert ArmMean(X, T, Y, t) == Fit(Xt, Yt, LAMBDA)[0] * |Xt| as real / |Xt| as real;
  }

  lemma DivMul(a: real, n: real)
    requires n != 0.0
    ensures a * n / n == a
  {
  }

  /** Without covariates the estimate is the difference of the arm means, whatever constant the propensity is. */
  lemma NoCovariatesEstimate(X: seq<Row>, T: seq<int>, Y: Row, e: Row, lo: real, hi: real, c: real)
    requires X != [] && Study(X, T, Y) && |e| >= |X| && Bounds(lo, hi) && BothArms(X, T)
    requires forall i :: 0 <= i < |X| ==> |X[i]| == 0
    requires 0.0 < c < 1.0 && ConstantPropensity(T, e, lo, hi, c, |X|)
    ensures Ate(X, T, Y, e, lo, hi) == ArmMean(X, T, Y, 1) - ArmMean(X, T, Y, 0)
  {
    hide Ate, EffectSum, ArmFit, ArmMean, NoJitter, Mul, ConstantPropensity;
    ArmFitIsMean(X, T, Y, 1);
    ArmFitIsMean(X, T, Y, 0);
    ConstantPropensityExact(X, T, Y, e, lo, hi, c);
    EffectSumConstant(X, ArmFit(X, T, Y, 1), ArmFit(X, T, Y, 0), |X|);
    Cancel(|X| as real, Ate(X, T, Y, e, lo, hi), ArmMean(X, T, Y, 1) - ArmMean(X, T, Y, 0));
  }

  /** The scores computed without covariates are constant and strictly between 0 and 1 after clamping. */
  lemma TrivialScoresAreConstant(X: seq<Row>, T: seq<int>, lo: real, hi: real)
    requires X != [] && |T| == |X| && Bounds(lo, hi) && Binary(T)
    ensures var e := TrivialScores(|X|, T);
      var c := Clamp(lo, hi, e[0]);
      0.0 < c < 1.0 && ConstantPropensity(T, e, lo, hi, c, |X|)
  {
  }

  /** So without covariates, and with scores it computes itself, the estimator returns the difference of the means. */
  lemma TrivialScoresEstimate(X: seq<Row>, T: seq<int>, Y: Row, lo: real, hi: real)
    requires X != [] && |T| == |X| && Study(X, T, Y) && Bounds(lo, hi) && BothArms(X, T)
    requires |X[0]| == 0 && Binary(T)
    ensures Ate(X, T, Y, TrivialScores(|X|, T), lo, hi) == ArmMean(X, T, Y, 1) - ArmMean(X, T, Y, 0)
  {
    hide Ate, ArmMean, ConstantPropensity, TrivialScores, Clamp;
    TrivialScoresAreConstant(X, T, lo, hi);
    NoCovariatesEstimate(X, T, Y, TrivialScores(|X|, T), lo, hi, Clamp(lo, hi, TrivialScores(|X|, T)[0]));
  }
}
