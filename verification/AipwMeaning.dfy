/** What the doubly robust estimate is made of: the modelled effects, and each arm's residuals over its own scores. */
module AipwMeaning {
  import opened LinearSolver
  import opened LinearSystems
  import opened RidgeRegression
  import opened RidgeOptimality
  import opened JitterFree
  import opened Aipw

  // ---------------------------------------------------------------- the clamped scores

  /** Clamping takes a score to the nearest value between the bounds. */
  lemma ClampMeaning(lo: real, hi: real, p: real)
    requires lo <= hi
    ensures lo <= Clamp(lo, hi, p) <= hi
    ensures lo <= p <= hi ==> Clamp(lo, hi, p) == p
    ensures (p < lo ==> Clamp(lo, hi, p) == lo) && (p > hi ==> Clamp(lo, hi, p) == hi)
  {
  }

  lemma {:induction false} TreatedCount(T: seq<int>, n: nat)
    requires n <= |T| && Binary(T)
    ensures LabelSum(T, n) == |Select(T, T, 1, n)|
  {
    if n > 0 { TreatedCount(T, n - 1); }
  }

  /** Without covariates the score of every sample is the share of the treated, but at least 0.001 and at most 0.999. */
  lemma TrivialScoresAreTreatedShare(n: nat, T: seq<int>, i: nat)
    requires i < n && Binary(T)
    ensures var share := |Select(T, T, 1, |T|)| as real / n as real;
      TrivialScores(n, T)[i] == if share < 0.001 then 0.001 else if share > 0.999 then 0.999 else share
  {
    TreatedCount(T, |T|);
  }

  /** The weights of treated samples, one for each score. */
  ghost function TreatedWeights(lo: real, hi: real, e: Row): (w: Row)
    requires Bounds(lo, hi)
    ensures |w| == |e| && forall i :: 0 <= i < |w| ==> w[i] == Clamp(lo, hi, e[i]) && w[i] > 0.0
  {
    seq(|e|, i requires 0 <= i < |e| => Clamp(lo, hi, e[i]))
  }

  ghost function ControlWeights(lo: real, hi: real, e: Row): (w: Row)
    requires Bounds(lo, hi)
    ensures |w| == |e| && forall i :: 0 <= i < |w| ==> w[i] == 1.0 - Clamp(lo, hi, e[i]) && w[i] > 0.0
  {
    seq(|e|, i requires 0 <= i < |e| => 1.0 - Clamp(lo, hi, e[i]))
  }

  // ---------------------------------------------------------------- the residuals of an arm over its own weights

  /** The first `n` residuals of the samples, each over its own weight. */
  ghost function Weighted(X: seq<Row>, Y: Row, w: Row, beta: Row, n: nat): real
    requires n <= |X| && |X| == |Y| == |w| && |beta| >= 1
    requires forall i :: 0 <= i < |X| ==> |beta| == |X[i]| + 1 && w[i] > 0.0
  {
    if n == 0 then 0.0 else
    Weighted(X, Y, w, beta, n - 1) + (Y[n-1] - Predict(X[n-1], beta)) / w[n-1]
  }

  lemma OverIsQuotient(a: real, c: real)
    requires c != 0.0
    ensures Over(a, c) == a / c
  {
  }

  lemma {:induction false} WeightedPrefix(X: seq<Row>, Y: Row, w: Row, X': seq<Row>, Y': Row, w': Row, beta: Row,
                                          n: nat)
    requires n <= |X| && |X| == |Y| == |w| && |X'| == |Y'| == |w'| && |beta| >= 1
    requires forall i :: 0 <= i < |X| ==> |beta| == |X[i]| + 1 && w[i] > 0.0
    requires forall i :: 0 <= i < |X'| ==> |beta| == |X'[i]| + 1 && w'[i] > 0.0
    requires X <= X' && Y <= Y' && w <= w'
    ensures Weighted(X, Y, w, beta, n) == Weighted(X', Y', w', beta, n)
  {
    if n > 0 {
      hide Predict, Over;
      WeightedPrefix(X, Y, w, X', Y', w', beta, n - 1);
      assert X'[n-1] == X[n-1] && Y'[n-1] == Y[n-1] && w'[n-1] == w[n-1];
    }
  }

  lemma {:induction false} ArmSizes(X: seq<Row>, T: seq<int>, Y: Row, e: Row, t: int, n: nat)
    requires Study(X, T, Y) && |e| >= |X| && n <= |X|
    ensures |Select(Y, T, t, n)| == |Select(e, T, t, n)| == |Select(X, T, t, n)|
    ensures forall i :: 0 <= i < |Select(X, T, t, n)| ==> |Select(X, T, t, n)[i]| == |X[0]|
  {
    if n > 0 { ArmSizes(X, T, Y, e, t, n - 1); }
  }

  /** The treated samples' residuals, each over its own clamped score. */
  ghost function TreatedResiduals(X: seq<Row>, T: seq<int>, Y: Row, e: Row, lo: real, hi: real, beta: Row, n: nat): real
    requires Study(X, T, Y) && |e| >= |X| && Bounds(lo, hi) && n <= |X|
    requires |beta| >= 1 && forall i :: 0 <= i < |X| ==> |beta| == |X[i]| + 1
  {
    ArmSizes(X, T, Y, e, 1, n);
    var Xt, Yt, et := Select(X, T, 1, n), Select(Y, T, 1, n), Select(e, T, 1, n);
    Weighted(Xt, Yt, TreatedWeights(lo, hi, et), beta, |Xt|)
  }

  /** The control samples' residuals, each over one minus its own clamped score. */
  ghost function ControlResiduals(X: seq<Row>, T: seq<int>, Y: Row, e: Row, lo: real, hi: real, beta: Row, n: nat): real
    requires Study(X, T, Y) && |e| >= |X| && Bounds(lo, hi) && n <= |X|
    requires |beta| >= 1 && forall i :: 0 <= i < |X| ==> |beta| == |X[i]| + 1
  {
    ArmSizes(X, T, Y, e, 0, n);
    var Xc, Yc, ec := Select(X, T, 0, n), Select(Y, T, 0, n), Select(e, T, 0, n);
    Weighted(Xc, Yc, ControlWeights(lo, hi, ec), beta, |Xc|)
  }

  lemma WeightedNext(X: seq<Row>, Y: Row, w: Row, row: Row, y: real, v: real, beta: Row)
    requires |X| == |Y| == |w| && |beta| == |row| + 1 && v > 0.0
    requires forall i :: 0 <= i < |X| ==> |beta| == |X[i]| + 1 && w[i] > 0.0
    ensures Weighted(X + [row], Y + [y], w + [v], beta, |X| + 1) ==
      Weighted(X, Y, w, beta, |X|) + Over(y - Predict(row, beta), v)
  {
    hide Predict, Over;
    OverIsQuotient(y - Predict(row, beta), v);
    WeightedPrefix(X, Y, w, X + [row], Y + [y], w + [v], beta, |X|);
  }

  lemma TreatedNext(X: seq<Row>, T: seq<int>, Y: Row, e: Row, lo: real, hi: real, beta: Row, n: nat)
    requires Study(X, T, Y) && |e| >= |X| && Bounds(lo, hi) && 0 < n <= |X|
    requires |beta| >= 1 && forall i :: 0 <= i < |X| ==> |beta| == |X[i]| + 1
    ensures TreatedResiduals(X, T, Y, e, lo, hi, beta, n) == TreatedResiduals(X, T, Y, e, lo, hi, beta, n - 1)
      + if T[n-1] == 1 then Over(Y[n-1] - Predict(X[n-1], beta), Clamp(lo, hi, e[n-1])) else 0.0
  {
    ArmSizes(X, T, Y, e, 1, n - 1);
    if T[n-1] == 1 {
      var Xt, Yt, et := Select(X, T, 1, n - 1), Select(Y, T, 1, n - 1), Select(e, T, 1, n - 1);
      WeightedNext(Xt, Yt, TreatedWeights(lo, hi, et), X[n-1], Y[n-1], Clamp(lo, hi, e[n-1]), beta);
      assert TreatedWeights(lo, hi, et + [e[n-1]]) == TreatedWeights(lo, hi, et) + [Clamp(lo, hi, e[n-1])];
    }
  }

  lemma ControlNext(X: seq<Row>, T: seq<int>, Y: Row, e: Row, lo: real, hi: real, beta: Row, n: nat)
    requires Study(X, T, Y) && |e| >= |X| && Bounds(lo, hi) && 0 < n <= |X|
    requires |beta| >= 1 && forall i :: 0 <= i < |X| ==> |beta| == |X[i]| + 1
    ensures ControlResiduals(X, T, Y, e, lo, hi, beta, n) == ControlResiduals(X, T, Y, e, lo, hi, beta, n - 1)
      + if T[n-1] == 0 then Over(Y[n-1] - Predict(X[n-1], beta), 1.0 - Clamp(lo, hi, e[n-1])) else 0.0
  {
    ArmSizes(X, T, Y, e, 0, n - 1);
    if T[n-1] == 0 {
      var Xc, Yc, ec := Select(X, T, 0, n - 1), Select(Y, T, 0, n - 1), Select(e, T, 0, n - 1);
      WeightedNext(Xc, Yc, ControlWeights(lo, hi, ec), X[n-1], Y[n-1], 1.0 - Clamp(lo, hi, e[n-1]), beta);
      assert ControlWeights(lo, hi, ec + [e[n-1]]) == ControlWeights(lo, hi, ec) + [1.0 - Clamp(lo, hi, e[n-1])];
    }
  }

  /** For any scores, the influence values add up to the modelled effects and the weighted residuals of the two arms. */
  lemma {:induction false} PsiSumByArms(X: seq<Row>, T: seq<int>, Y: Row, e: Row, lo: real, hi: real, b1: Row, b0: Row,
                                        n: nat)
    requires Study(X, T, Y) && |e| >= |X| && Bounds(lo, hi) && n <= |X| && Binary(T)
    requires |b1| == |b0| >= 1 && forall i :: 0 <= i < |X| ==> |b1| == |X[i]| + 1
    ensures PsiSum(X, T, Y, e, lo, hi, b1, b0, n) == EffectSum(X, b1, b0, n)
      + TreatedResiduals(X, T, Y, e, lo, hi, b1, n) - ControlResiduals(X, T, Y, e, lo, hi, b0, n)
  {
    if n > 0 {
      PsiSumByArms(X, T, Y, e, lo, hi, b1, b0, n - 1);
      TreatedNext(X, T, Y, e, lo, hi, b1, n);
      ControlNext(X, T, Y, e, lo, hi, b0, n);
      ClampInside(lo, hi, e[n-1]);
      PsiByLabel(Clamp(lo, hi, e[n-1]), T[n-1], Y[n-1], Predict(X[n-1], b1), Predict(X[n-1], b0));
      hide Predict, Clamp, Psi, Over, TreatedResiduals, ControlResiduals;
    }
  }

  lemma PsiByLabel(c: real, t: int, y: real, m1: real, m0: real)
    requires 0.0 < c < 1.0 && (t == 0 || t == 1)
    ensures Psi(c, t, y, m1, m0) ==
      (m1 - m0) + (if t == 1 then Over(y - m1, c) else 0.0) - (if t == 0 then Over(y - m0, 1.0 - c) else 0.0)
  {
    if t == 1 { PsiTreated(c, y, m1, m0, t); } else { PsiControl(c, y, m1, m0, t); }
    hide Psi, Over;
  }

  lemma ClampInside(lo: real, hi: real, p: real)
    requires Bounds(lo, hi)
    ensures 0.0 < Clamp(lo, hi, p) < 1.0
  {
  }

  /** The same for the estimate: every sample is weighted with its own score. */
  lemma EstimateByArms(X: seq<Row>, T: seq<int>, Y: Row, e: Row, lo: real, hi: real)
    requires X != [] && Study(X, T, Y) && |e| >= |X| && Bounds(lo, hi) && BothArms(X, T) && Binary(T)
    ensures var b1, b0 := ArmFit(X, T, Y, 1), ArmFit(X, T, Y, 0);
      Mul(|X| as real, Ate(X, T, Y, e, lo, hi)) == EffectSum(X, b1, b0, |X|)
        + TreatedResiduals(X, T, Y, e, lo, hi, b1, |X|) - ControlResiduals(X, T, Y, e, lo, hi, b0, |X|)
  {
    hide PsiSum, EffectSum, ArmFit, TreatedResiduals, ControlResiduals, Mul;
    PsiSumByArms(X, T, Y, e, lo, hi, ArmFit(X, T, Y, 1), ArmFit(X, T, Y, 0), |X|);
    MulDiv(PsiSum(X, T, Y, e, lo, hi, ArmFit(X, T, Y, 1), ArmFit(X, T, Y, 0), |X|), |X| as real);
  }

  // ---------------------------------------------------------------- one sample's score

  /** What one sample's score contributes, given the two predictions. */
  ghost function Correction(t: int, y: real, m1: real, m0: real, c: real): real
    requires 0.0 < c < 1.0
  {
    if t == 1 then (y - m1) / c else -((y - m0) / (1.0 - c))
  }

  lemma PsiIsCorrection(c: real, t: int, y: real, m1: real, m0: real)
    requires 0.0 < c < 1.0 && (t == 0 || t == 1)
    ensures Psi(c, t, y, m1, m0) == (m1 - m0) + Correction(t, y, m1, m0, c)
  {
    hide Psi, Over;
    OverIsQuotient(y - m1, c);
    OverIsQuotient(y - m0, 1.0 - c);
    if t == 1 { PsiTreated(c, y, m1, m0, t); } else { PsiControl(c, y, m1, m0, t); }
  }

  lemma {:induction false} PsiSumUntouched(X: seq<Row>, T: seq<int>, Y: Row, e: Row, e': Row, lo: real, hi: real,
                                           b1: Row, b0: Row, n: nat)
    requires Study(X, T, Y) && |e| >= |X| && |e'| >= |X| && Bounds(lo, hi) && n <= |X|
    requires |b1| == |b0| >= 1 && forall i :: 0 <= i < |X| ==> |b1| == |X[i]| + 1
    requires forall i :: 0 <= i < n ==> e[i] == e'[i]
    ensures PsiSum(X, T, Y, e, lo, hi, b1, b0, n) == PsiSum(X, T, Y, e', lo, hi, b1, b0, n)
  {
    if n > 0 {
      hide Predict, Clamp, Psi;
      PsiSumUntouched(X, T, Y, e, e', lo, hi, b1, b0, n - 1);
    }
  }

  lemma {:induction false} PsiSumLocal(X: seq<Row>, T: seq<int>, Y: Row, e: Row, lo: real, hi: real, b1: Row, b0: Row,
                                       n: nat, i: nat, p: real)
    requires Study(X, T, Y) && |e| >= |X| && Bounds(lo, hi) && i < n <= |X| && Binary(T)
    requires |b1| == |b0| >= 1 && forall k :: 0 <= k < |X| ==> |b1| == |X[k]| + 1
    ensures 0.0 < Clamp(lo, hi, p) < 1.0 && 0.0 < Clamp(lo, hi, e[i]) < 1.0
    ensures var m1, m0 := Predict(X[i], b1), Predict(X[i], b0);
      PsiSum(X, T, Y, e[i := p], lo, hi, b1, b0, n) - PsiSum(X, T, Y, e, lo, hi, b1, b0, n) ==
        Correction(T[i], Y[i], m1, m0, Clamp(lo, hi, p)) - Correction(T[i], Y[i], m1, m0, Clamp(lo, hi, e[i]))
  {
    ClampInside(lo, hi, p);
    ClampInside(lo, hi, e[i]);
    hide Predict, Clamp, Psi, Correction;
    if i == n - 1 {
      PsiSumUntouched(X, T, Y, e, e[i := p], lo, hi, b1, b0, n - 1);
      PsiIsCorrection(Clamp(lo, hi, p), T[i], Y[i], Predict(X[i], b1), Predict(X[i], b0));
      PsiIsCorrection(Clamp(lo, hi, e[i]), T[i], Y[i], Predict(X[i], b1), Predict(X[i], b0));
    } else {
      PsiSumLocal(X, T, Y, e, lo, hi, b1, b0, n - 1, i, p);
    }
  }

  /** Changing one sample's score changes that sample's correction and nothing else. */
  lemma ScoresActLocally(X: seq<Row>, T: seq<int>, Y: Row, e: Row, lo: real, hi: real, i: nat, p: real)
    requires Study(X, T, Y) && |e| >= |X| && Bounds(lo, hi) && BothArms(X, T) && Binary(T) && i < |X|
    ensures 0.0 < Clamp(lo, hi, p) < 1.0 && 0.0 < Clamp(lo, hi, e[i]) < 1.0
    ensures var m1, m0 := Predict(X[i], ArmFit(X, T, Y, 1)), Predict(X[i], ArmFit(X, T, Y, 0));
      Mul(|X| as real, Ate(X, T, Y, e[i := p], lo, hi)) - Mul(|X| as real, Ate(X, T, Y, e, lo, hi)) ==
        Correction(T[i], Y[i], m1, m0, Clamp(lo, hi, p)) - Correction(T[i], Y[i], m1, m0, Clamp(lo, hi, e[i]))
  {
    hide PsiSum, ArmFit, Mul, Predict, Clamp, Correction;
    var b1, b0 := ArmFit(X, T, Y, 1), ArmFit(X, T, Y, 0);
    PsiSumLocal(X, T, Y, e, lo, hi, b1, b0, |X|, i, p);
    MulDiv(PsiSum(X, T, Y, e, lo, hi, b1, b0, |X|), |X| as real);
    MulDiv(PsiSum(X, T, Y, e[i := p], lo, hi, b1, b0, |X|), |X| as real);
  }

  // ---------------------------------------------------------------- the outcome models

  /** The outcome model of an arm minimises the squared error of that arm plus 0.01 times the squared slopes. */
  lemma ArmFitMinimises(X: seq<Row>, T: seq<int>, Y: Row, t: int, i: nat)
    requires Study(X, T, Y) && i < |X| && T[i] == t && WellScaled(X[i], |X[0]|, 0.01)
    ensures Select(X, T, t, |X|) != []
    ensures Samples(Select(X, T, t, |X|), Select(Y, T, t, |X|), |X[0]| + 1)
    ensures forall gamma: Row | |gamma| == |X[0]| + 1 ::
      Minimises(Select(X, T, t, |X|), Select(Y, T, t, |X|), 0.01, gamma) <==> gamma == ArmFit(X, T, Y, t)
  {
    hide WellScaled, Minimises, Fit;
    SelectHas(X, T, t, |X|, i);
    ArmShape(X, T, Y, t, |X|);
    var Xt, Yt := Select(X, T, t, |X|), Select(Y, T, t, |X|);
    var s :| 0 <= s < |Xt| && Xt[s] == X[i];
    forall gamma: Row | |gamma| == |X[0]| + 1
      ensures Samples(Xt, Yt, |X[0]| + 1) && (Minimises(Xt, Yt, 0.01, gamma) <==> gamma == ArmFit(X, T, Y, t))
    {
      ScaledFitIsUniqueMinimiser(Xt, Yt, 0.01, s, gamma);
    }
    ScaledFitIsUniqueMinimiser(Xt, Yt, 0.01, s, ArmFit(X, T, Y, t));
  }
}
