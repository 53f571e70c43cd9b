/** What elimination computes: a triangular factor of the (jittered) system, hence exactly when A x = b holds. */
module LinearSystems {
  import opened LinearSolver

  // ---------------------------------------------------------------- linear combinations of rows

  /** Column `j` of the first |f| rows, weighted by `f`. */
  ghost function Combo(f: Row, M: Matrix, j: nat): real
    requires |f| <= |M| && forall r :: 0 <= r < |f| ==> j < |M[r]|
  {
    if f == [] then 0.0 else
    Combo(f[..|f|-1], M, j) + f[|f|-1] * M[|f|-1][j]
  }

  ghost function ComboDot(f: Row, M: Matrix, y: Row, m: nat): real
    requires |f| <= |M| && m <= |y| && forall r :: 0 <= r < |f| ==> m <= |M[r]|
  {
    if f == [] then 0.0 else
    ComboDot(f[..|f|-1], M, y, m) + f[|f|-1] * DotFrom(M[|f|-1], y, 0, m)
  }

  ghost function ComboResidual(f: Row, M: Matrix, y: Row): real
    requires |f| <= |M| && forall r :: 0 <= r < |f| ==> |M[r]| == |y| + 1
  {
    if f == [] then 0.0 else
    ComboResidual(f[..|f|-1], M, y) + f[|f|-1] * Residual(M[|f|-1], y)
  }

  lemma {:induction false} ComboSameRows(f: Row, M: Matrix, N: Matrix, j: nat)
    requires |f| <= |M| && |f| <= |N| && forall r :: 0 <= r < |f| ==> M[r] == N[r] && j < |M[r]|
    ensures Combo(f, M, j) == Combo(f, N, j)
  {
    if f != [] { ComboSameRows(f[..|f|-1], M, N, j); }
  }

  lemma {:induction false} ComboDotStep(f: Row, M: Matrix, y: Row, m: nat)
    requires |f| <= |M| && m < |y| && forall r :: 0 <= r < |f| ==> m < |M[r]|
    ensures ComboDot(f, M, y, m + 1) == ComboDot(f, M, y, m) + Combo(f, M, m) * y[m]
  {
    if f != [] {
      var g, w, v := f[..|f|-1], f[|f|-1], M[|f|-1];
      ComboDotStep(g, M, y, m);
      Expand(Combo(g, M, m), w, v[m], y[m], DotFrom(v, y, 0, m));
    }
  }

  lemma Expand(a: real, w: real, v: real, y: real, d: real)
    ensures w * (d + v * y) + a * y == w * d + (a + w * v) * y
  {
  }

  lemma Distribute(a: real, b: real, y: real)
    ensures (a + b) * y == a * y + b * y
  {
  }

  lemma {:induction false} ComboOfDots(row: Row, base: Row, f: Row, M: Matrix, y: Row, m: nat)
    requires |f| <= |M| && m <= |y| && m <= |row| && m <= |base| && forall r :: 0 <= r < |f| ==> m <= |M[r]|
    requires forall j :: 0 <= j < m ==> row[j] == base[j] + Combo(f, M, j)
    ensures DotFrom(row, y, 0, m) == DotFrom(base, y, 0, m) + ComboDot(f, M, y, m)
  {
    if m == 0 {
      ComboDotOfNothing(f, M, y);
    } else {
      ComboOfDots(row, base, f, M, y, m - 1);
      ComboDotStep(f, M, y, m - 1);
      Distribute(base[m-1], Combo(f, M, m - 1), y[m-1]);
    }
  }

  lemma {:induction false} ComboDotOfNothing(f: Row, M: Matrix, y: Row)
    requires |f| <= |M|
    ensures ComboDot(f, M, y, 0) == 0.0
  {
    if f != [] { ComboDotOfNothing(f[..|f|-1], M, y); }
  }

  lemma {:induction false} ComboResidualSplits(f: Row, M: Matrix, y: Row)
    requires |f| <= |M| && forall r :: 0 <= r < |f| ==> |M[r]| == |y| + 1
    ensures ComboResidual(f, M, y) == ComboDot(f, M, y, |y|) - Combo(f, M, |y|)
  {
    if f != [] {
      ComboResidualSplits(f[..|f|-1], M, y);
      var w, v := f[|f|-1], M[|f|-1];
      assert w * (DotFrom(v, y, 0, |y|) - v[|y|]) == w * DotFrom(v, y, 0, |y|) - w * v[|y|];
    }
  }

  /** Residuals combine like the rows they belong to. */
  lemma ResidualOfCombination(row: Row, base: Row, f: Row, M: Matrix, y: Row)
    requires |row| == |y| + 1 && FactorRow(row, base, f, M)
    ensures Residual(row, y) == Residual(base, y) + ComboResidual(f, M, y)
  {
    ComboOfDots(row, base, f, M, y, |y|);
    ComboResidualSplits(f, M, y);
  }

  lemma {:induction false} ComboResidualVanishes(f: Row, M: Matrix, y: Row)
    requires |f| <= |M| && forall r :: 0 <= r < |f| ==> |M[r]| == |y| + 1 && Residual(M[r], y) == 0.0
    ensures ComboResidual(f, M, y) == 0.0
  {
    if f != [] { ComboResidualVanishes(f[..|f|-1], M, y); }
  }

  // ---------------------------------------------------------------- the factorisation kept by every step

  /** Row exchanges so far: `perm[k]` is the original index of the row now at `k`, and `inv` its inverse. */
  ghost predicate Permutation(perm: seq<nat>, inv: seq<nat>) {
    && |perm| == |inv|
    && (forall k :: 0 <= k < |perm| ==> perm[k] < |perm| && inv[perm[k]] == k)
    && (forall r :: 0 <= r < |inv| ==> inv[r] < |inv| && perm[inv[r]] == r)
  }

  function Lesser(a: nat, b: nat): nat {
    if a < b then a else b
  }

  /** The row `p` is the row `m` plus the first |f| rows of `M` weighted by `f`. */
  ghost predicate FactorRow(p: Row, m: Row, f: Row, M: Matrix) {
    && |p| == |m| && |f| <= |M| && (forall r :: 0 <= r < |f| ==> |M[r]| == |m|)
    && forall j :: 0 <= j < |m| ==> p[j] == m[j] + Combo(f, M, j)
  }

  /** After `step` columns, the system `P` is the unit lower triangle `F` times the rows `M`, up to `perm`. */
  ghost predicate Factored(P: Matrix, M: Matrix, F: Matrix, perm: seq<nat>, step: nat) {
    && |P| == |M| == |F| == |perm| && step <= |M| && Augmented(P) && Augmented(M)
    && (forall k :: 0 <= k < |M| ==> perm[k] < |M|)
    && (forall k :: 0 <= k < |M| ==> |F[k]| == Lesser(k, step))
    && (forall k :: 0 <= k < |M| ==> FactorRow(P[perm[k]], M[k], F[k], M))
  }

  lemma FactorRowFrame(p: Row, m: Row, f: Row, M: Matrix, N: Matrix)
    requires FactorRow(p, m, f, M) && |f| <= |N| && forall r :: 0 <= r < |f| ==> N[r] == M[r]
    ensures FactorRow(p, m, f, N)
  {
    forall j | 0 <= j < |m| ensures p[j] == m[j] + Combo(f, N, j) {
      ComboSameRows(f, M, N, j);
    }
  }

  lemma FactorRowReduced(p: Row, m: Row, f: Row, M: Matrix, N: Matrix, w: real)
    requires FactorRow(p, m, f, M) && |f| < |N| && |N[|f|]| == |m| && forall r :: 0 <= r < |f| ==> N[r] == M[r]
    requires |f| < |m| && forall j :: 0 <= j < |f| ==> N[|f|][j] == 0.0
    ensures FactorRow(p, Less(m, N[|f|], |f|, w), f + [w], N)
  {
    var pivot := N[|f|];
    forall j | 0 <= j < |m| ensures p[j] == Less(m, pivot, |f|, w)[j] + Combo(f + [w], N, j) {
      ComboSameRows(f, M, N, j);
      ComboAppend(f, w, N, j);
    }
  }

  lemma ComboAppend(f: Row, w: real, M: Matrix, j: nat)
    requires |f| < |M| && forall r :: 0 <= r <= |f| ==> j < |M[r]|
    ensures Combo(f + [w], M, j) == Combo(f, M, j) + w * M[|f|][j]
  {
    assert (f + [w])[..|f|] == f;
  }

  /** Columns before `step` are cleared below the diagonal, and the diagonal is not zero. */
  ghost predicate Cleared(M: Matrix, step: nat) {
    && Augmented(M) && step <= |M|
    && (forall k, j :: 0 <= j < k < |M| && j < step ==> M[k][j] == 0.0)
    && (forall c :: 0 <= c < step ==> M[c][c] != 0.0)
  }

  lemma FactoredAtStart(P: Matrix)
    requires Augmented(P)
    ensures Factored(P, P, seq(|P|, _ => []), seq(|P|, k => k), 0) && Cleared(P, 0)
    ensures Permutation(seq(|P|, k => k), seq(|P|, k => k))
  {
  }

  lemma BumpKeepsFactor(P: Matrix, M: Matrix, F: Matrix, perm: seq<nat>, inv: seq<nat>, i: nat)
    requires Factored(P, M, F, perm, i) && Cleared(M, i) && Permutation(perm, inv) && i < |M|
    ensures Factored(Bumped(P, perm[i], i), Bumped(M, i, i), F, perm, i) && Cleared(Bumped(M, i, i), i)
  {
    hide Combo;
    var Q, N := Bumped(P, perm[i], i), Bumped(M, i, i);
    forall k | 0 <= k < |M| ensures FactorRow(Q[perm[k]], N[k], F[k], N) {
      FactorRowFrame(P[perm[k]], M[k], F[k], M, N);
      assert k != i ==> perm[k] != perm[i];
    }
  }

  lemma SwapKeepsFactor(P: Matrix, M: Matrix, F: Matrix, perm: seq<nat>, i: nat, p: nat)
    requires Factored(P, M, F, perm, i) && Cleared(M, i) && i <= p < |M|
    ensures Factored(P, Swapped(M, i, p), Swapped(F, i, p), Swapped(perm, i, p), i) && Cleared(Swapped(M, i, p), i)
  {
    hide FactorRow;
    var N, G, q := Swapped(M, i, p), Swapped(F, i, p), Swapped(perm, i, p);
    forall k | 0 <= k < |M| ensures FactorRow(P[q[k]], N[k], G[k], N) {
      var h := if k == i then p else if k == p then i else k;
      FactorRowFrame(P[perm[h]], M[h], F[h], M, N);
    }
  }

  function SwapInverse(perm: seq<nat>, inv: seq<nat>, i: nat, p: nat): seq<nat>
    requires i < |perm| && p < |perm| && perm[i] < |inv| && perm[p] < |inv|
  {
    inv[perm[i] := p][perm[p] := i]
  }

  lemma SwapKeepsPermutation(perm: seq<nat>, inv: seq<nat>, i: nat, p: nat)
    requires Permutation(perm, inv) && i < |perm| && p < |perm|
    ensures Permutation(Swapped(perm, i, p), SwapInverse(perm, inv, i, p))
  {
  }

  function NextMultipliers(M: Matrix, F: Matrix, i: nat): Matrix
    requires Augmented(M) && |F| == |M| && i < |M| && M[i][i] != 0.0
  {
    seq(|F|, k requires 0 <= k < |F| => if k <= i then F[k] else F[k] + [M[k][i] / M[i][i]])
  }

  lemma EliminateKeepsFactor(P: Matrix, M: Matrix, F: Matrix, perm: seq<nat>, i: nat)
    requires Factored(P, M, F, perm, i) && Cleared(M, i) && i < |M| && M[i][i] != 0.0
    ensures Factored(P, Eliminated(M, i), NextMultipliers(M, F, i), perm, i + 1) && Cleared(Eliminated(M, i), i + 1)
  {
    hide FactorRow, Less;
    var N, G := Eliminated(M, i), NextMultipliers(M, F, i);
    EliminateClears(M, i);
    forall k | 0 <= k < |M| ensures FactorRow(P[perm[k]], N[k], G[k], N) {
      if k <= i {
        FactorRowFrame(P[perm[k]], M[k], F[k], M, N);
      } else {
        FactorRowReduced(P[perm[k]], M[k], F[k], M, N, M[k][i] / M[i][i]);
      }
    }
  }

  lemma EliminateClears(M: Matrix, i: nat)
    requires Cleared(M, i) && i < |M| && M[i][i] != 0.0
    ensures Cleared(Eliminated(M, i), i + 1)
  {
    var N := Eliminated(M, i);
    forall k, j | 0 <= j < k < |M| && j < i + 1 ensures N[k][j] == 0.0 {
      if k > i && j == i {
        assert N[k][i] == M[k][i] - M[k][i] / M[i][i] * M[i][i];
      }
    }
  }

  // ---------------------------------------------------------------- triangular systems

  ghost predicate Triangular(U: Matrix) {
    Cleared(U, |U|)
  }

  lemma {:induction false} DotSplit(a: Row, x: Row, lo: nat, mid: nat, hi: nat)
    requires lo <= mid <= hi <= |a| && hi <= |x|
    ensures DotFrom(a, x, lo, hi) == DotFrom(a, x, lo, mid) + DotFrom(a, x, mid, hi)
    decreases hi
  {
    if hi > mid { DotSplit(a, x, lo, mid, hi - 1); }
  }

  lemma {:induction false} DotOfZeros(a: Row, x: Row, hi: nat)
    requires hi <= |a| && hi <= |x| && forall j :: 0 <= j < hi ==> a[j] == 0.0
    ensures DotFrom(a, x, 0, hi) == 0.0
  {
    if hi > 0 { DotOfZeros(a, x, hi - 1); }
  }

  lemma {:induction false} DotSameTail(a: Row, x: Row, y: Row, lo: nat, hi: nat)
    requires hi <= |a| && hi <= |x| && hi <= |y| && forall j :: lo <= j < hi ==> x[j] == y[j]
    ensures DotFrom(a, x, lo, hi) == DotFrom(a, y, lo, hi)
    decreases hi
  {
    if hi > lo { DotSameTail(a, x, y, lo, hi - 1); }
  }

  /** Products under a name, so that sums of products stay linear for the solver. */
  function Mul(a: real, b: real): real {
    a * b
  }

  lemma TriangularResidual(U: Matrix, c: nat, x: Row)
    requires Triangular(U) && c < |U| && |x| == |U|
    ensures Residual(U[c], x) == Mul(U[c][c], x[c]) + DotFrom(U[c], x, c + 1, |U|) - U[c][|U|]
  {
    DotSplit(U[c], x, 0, c, |U|);
    DotSplit(U[c], x, c, c + 1, |U|);
    DotOfZeros(U[c], x, c);
    assert DotFrom(U[c], x, c, c + 1) == DotFrom(U[c], x, c, c) + U[c][c] * x[c];
  }

  lemma {:induction false} BackSubstituteSolves(U: Matrix, i: nat, x: Row)
    requires Triangular(U) && NonzeroDiagonal(U) && i <= |U| && |x| == |U|
    requires forall c :: i <= c < |U| ==> Residual(U[c], x) == 0.0
    ensures Solves(U, BackSubstitute(U, i, x))
  {
    if i > 0 {
      var c := i - 1;
      var x' := x[c := (U[c][|U|] - DotFrom(U[c], x, i, |U|)) / U[c][c]];
      forall r | c <= r < |U| ensures Residual(U[r], x') == 0.0 {
        TriangularResidual(U, r, x');
        DotSameTail(U[r], x, x', r + 1, |U|);
        if r > c { TriangularResidual(U, r, x); }
      }
      BackSubstituteSolves(U, c, x');
    }
  }

  lemma Cancel(d: real, x: real, y: real)
    requires d != 0.0 && Mul(d, x) == Mul(d, y)
    ensures x == y
  {
    assert d * (x - y) == 0.0;
  }

  lemma {:induction false} TriangularUnique(U: Matrix, x: Row, y: Row, i: nat)
    requires Triangular(U) && |x| == |y| == |U| && Solves(U, x) && Solves(U, y) && i <= |U|
    ensures forall c :: i <= c < |U| ==> x[c] == y[c]
    decreases |U| - i
  {
    if i < |U| {
      TriangularUnique(U, x, y, i + 1);
      assert Residual(U[i], x) == Residual(U[i], y) == 0.0;
      TriangularResidual(U, i, x);
      TriangularResidual(U, i, y);
      DotSameTail(U[i], x, y, i + 1, |U|);
      hide Mul, DotFrom, Residual;
      Cancel(U[i][i], x[i], y[i]);
    }
  }

  // ---------------------------------------------------------------- the factored system has the same solutions

  lemma {:induction false} SolvesFactorRows(P: Matrix, U: Matrix, F: Matrix, perm: seq<nat>, y: Row, k: nat)
    requires Factored(P, U, F, perm, |U|) && |y| == |U| && k <= |U| && Solves(P, y)
    ensures forall c :: 0 <= c < k ==> Residual(U[c], y) == 0.0
  {
    hide FactorRow, Residual;
    if k > 0 {
      SolvesFactorRows(P, U, F, perm, y, k - 1);
      var c := k - 1;
      ResidualOfCombination(P[perm[c]], U[c], F[c], U, y);
      ComboResidualVanishes(F[c], U, y);
    }
  }

  lemma SameSolutions(P: Matrix, U: Matrix, F: Matrix, perm: seq<nat>, inv: seq<nat>, y: Row)
    requires Factored(P, U, F, perm, |U|) && Permutation(perm, inv) && |y| == |U|
    ensures Solves(P, y) <==> Solves(U, y)
  {
    hide FactorRow, Residual;
    if Solves(P, y) {
      SolvesFactorRows(P, U, F, perm, y, |U|);
    }
    if Solves(U, y) {
      forall r | 0 <= r < |P| ensures Residual(P[r], y) == 0.0 {
        var k := inv[r];
        assert perm[k] == r;
        ResidualOfCombination(P[r], U[k], F[k], U, y);
        ComboResidualVanishes(F[k], U, y);
      }
    }
  }

  // ---------------------------------------------------------------- the system that is actually solved

  /** `P` is `S` with the bumps of `jit` added: column `c` is bumped in row `jit[c]`. */
  ghost predicate JitteredSystem(S: Matrix, P: Matrix, jit: map<nat, nat>) {
    && |P| == |S| && Augmented(S) && Augmented(P)
    && (forall c :: c in jit ==> c < |S| && jit[c] < |S|)
    && (forall r, j :: 0 <= r < |S| && 0 <= j <= |S| ==>
        P[r][j] == S[r][j] + if j in jit && jit[j] == r then JITTER else 0.0)
  }

  lemma BumpIsJitter(S: Matrix, P: Matrix, jit: map<nat, nat>, r: nat, c: nat)
    requires JitteredSystem(S, P, jit) && r < |S| && c < |S| && c !in jit
    ensures JitteredSystem(S, Bumped(P, r, c), jit[c := r])
  {
  }

  lemma StepKeepsFactor(P: Matrix, M: Matrix, F: Matrix, perm: seq<nat>, inv: seq<nat>, i: nat)
    returns (P': Matrix, F': Matrix, inv': seq<nat>)
    requires Factored(P, M, F, perm, i) && Cleared(M, i) && Permutation(perm, inv) && i < |M|
    ensures var perm' := Swapped(perm, i, PivotRow(M, i));
      Factored(P', Step(M, i), F', perm', i + 1) && Cleared(Step(M, i), i + 1) && Permutation(perm', inv')
    ensures P' == if NeedsJitter(M, i) then Bumped(P, perm[i], i) else P
  {
    hide Factored, Cleared, Permutation;
    FactoredSizes(P, M, F, perm, inv, i);
    var p := PivotRow(M, i);
    var N := M;
    P' := P;
    if NeedsJitter(M, i) {
      BumpKeepsFactor(P, M, F, perm, inv, i);
      P', N := Bumped(P, perm[i], i), Bumped(M, i, i);
    }
    SwapKeepsFactor(P', N, F, perm, i, p);
    SwapKeepsPermutation(perm, inv, i, p);
    inv' := SwapInverse(perm, inv, i, p);
    assert Swapped(N, i, p) == Prepared(M, i);
    F' := NextMultipliers(Prepared(M, i), Swapped(F, i, p), i);
    EliminateKeepsFactor(P', Prepared(M, i), Swapped(F, i, p), Swapped(perm, i, p), i);
  }

  lemma FactoredSizes(P: Matrix, M: Matrix, F: Matrix, perm: seq<nat>, inv: seq<nat>, i: nat)
    requires Factored(P, M, F, perm, i) && Permutation(perm, inv)
    ensures |P| == |M| == |F| == |perm| == |inv| && i <= |M| && Augmented(P) && Augmented(M)
    ensures forall k :: 0 <= k < |perm| ==> perm[k] < |inv|
  {
  }

  lemma {:induction false} RunKeepsFactor(S: Matrix, P: Matrix, jit: map<nat, nat>, M: Matrix, F: Matrix,
                                          perm: seq<nat>, inv: seq<nat>, i: nat)
    returns (P': Matrix, F': Matrix, perm': seq<nat>, inv': seq<nat>)
    requires Factored(P, M, F, perm, i) && Cleared(M, i) && Permutation(perm, inv)
    requires JitteredSystem(S, P, jit) && forall c :: c in jit ==> c < i
    ensures Factored(P', Run(M, i), F', perm', |M|) && Cleared(Run(M, i), |M|) && Permutation(perm', inv')
    ensures JitteredSystem(S, P', jit + Marks(M, i, perm))
    decreases |M| - i
  {
    hide Factored, Cleared, Permutation, Step, Run, PivotRow, Swapped;
    FactoredSizes(P, M, F, perm, inv, i);
    if i == |M| {
      P', F', perm', inv' := P, F, perm, inv;
      assert jit + Marks(M, i, perm) == jit;
      RunStops(M);
    } else {
      var Q, G, w := StepKeepsFactor(P, M, F, perm, inv, i);
      var perm1 := Swapped(perm, i, PivotRow(M, i));
      var jit1 := if NeedsJitter(M, i) then jit[i := perm[i]] else jit;
      if NeedsJitter(M, i) { BumpIsJitter(S, P, jit, perm[i], i); }
      assert forall c :: c in jit1 ==> c < i + 1;
      P', F', perm', inv' := RunKeepsFactor(S, Q, jit1, Step(M, i), G, perm1, w, i + 1);
      RunGoesOn(M, i);
      MapUnion(jit, if NeedsJitter(M, i) then map[i := perm[i]] else map[], Marks(Step(M, i), i + 1, perm1));
      assert jit1 == jit + if NeedsJitter(M, i) then map[i := perm[i]] else map[];
    }
  }

  lemma MapUnion(a: map<nat, nat>, b: map<nat, nat>, c: map<nat, nat>)
    ensures a + (b + c) == (a + b) + c
  {
  }

  lemma RunStops(M: Matrix)
    requires Augmented(M)
    ensures Run(M, |M|) == M
  {
  }

  lemma RunGoesOn(M: Matrix, i: nat)
    requires Augmented(M) && i < |M|
    ensures |Step(M, i)| == |M| && Run(M, i) == Run(Step(M, i), i + 1)
  {
  }

  /** The returned vector is the one and only solution of the jittered system, whatever the input. */
  lemma SolvesJitteredSystem(A: Matrix, b: Row) returns (P: Matrix)
    requires Square(A) && |b| == |A|
    ensures JitteredSystem(Augment(A, b), P, JitterMarks(A, b)) && |P| == |A| && Augmented(P)
    ensures forall y: Row | |y| == |A| :: Solves(P, y) <==> y == Solution(A, b)
  {
    hide Factored, Cleared, Permutation, JitteredSystem, Solves;
    var S := Augment(A, b);
    assert JitteredSystem(S, S, map[]) by { NoJitterYet(S); }
    FactoredAtStart(S);
    var F, perm, inv;
    P, F, perm, inv := RunKeepsFactor(S, S, map[], S, seq(|S|, _ => []), Identity(|S|), Identity(|S|), 0);
    assert map[] + JitterMarks(A, b) == JitterMarks(A, b);
    var U, x := Run(S, 0), Solution(A, b);
    RunLeavesPivots(S, 0);
    BackSubstituteSolves(U, |U|, Zeros(|A|));
    FactoredSizes(P, U, F, perm, inv, |U|);
    forall y: Row | |y| == |A| ensures Solves(P, y) <==> y == x {
      SameSolutions(P, U, F, perm, inv, y);
      if Solves(U, y) { EqualByTail(U, x, y); }
    }
  }

  lemma NoJitterYet(S: Matrix)
    requires Augmented(S)
    ensures JitteredSystem(S, S, map[])
  {
  }

  lemma EqualByTail(U: Matrix, x: Row, y: Row)
    requires Triangular(U) && |x| == |y| == |U| && Solves(U, x) && Solves(U, y)
    ensures x == y
  {
    TriangularUnique(U, x, y, 0);
  }

  // ---------------------------------------------------------------- when A x = b

  /** The unknowns, before `c`, whose columns were bumped in row `r`. */
  ghost function BumpedUnknowns(jit: map<nat, nat>, r: nat, x: Row, c: nat): real
    requires c <= |x|
  {
    if c == 0 then 0.0 else
    BumpedUnknowns(jit, r, x, c - 1) + if c - 1 in jit && jit[c-1] == r then x[c-1] else 0.0
  }

  lemma {:induction false} JitterInDot(s: Row, p: Row, jit: map<nat, nat>, r: nat, x: Row, c: nat)
    requires c <= |x| && c <= |s| && c <= |p|
    requires forall j :: 0 <= j < c ==> p[j] == s[j] + if j in jit && jit[j] == r then JITTER else 0.0
    ensures DotFrom(p, x, 0, c) == DotFrom(s, x, 0, c) + JITTER * BumpedUnknowns(jit, r, x, c)
  {
    if c > 0 {
      JitterInDot(s, p, jit, r, x, c - 1);
    }
  }

  /** Each equation is missed by exactly the jitter times the unknowns of the columns bumped in its row. */
  lemma SolutionResidual(A: Matrix, b: Row, r: nat)
    requires Square(A) && |b| == |A| && r < |A|
    ensures Residual(Augment(A, b)[r], Solution(A, b))
      == -JITTER * BumpedUnknowns(JitterMarks(A, b), r, Solution(A, b), |A|)
  {
    hide Solution, JitterMarks, DotFrom, BumpedUnknowns;
    var P := SolvesJitteredSystem(A, b);
    var x := Solution(A, b);
    assert Residual(P[r], x) == 0.0;
    JitterInDot(Augment(A, b)[r], P[r], JitterMarks(A, b), r, x, |A|);
    assert |A| !in JitterMarks(A, b);
    assert P[r][|A|] == Augment(A, b)[r][|A|];
  }

  lemma NoJitterTimesNonzero(z: real)
    ensures -JITTER * z == 0.0 <==> z == 0.0
  {
  }

  lemma SolvesIff(A: Matrix, b: Row)
    requires Square(A) && |b| == |A|
    ensures Solves(Augment(A, b), Solution(A, b)) <==>
      forall r :: 0 <= r < |A| ==> BumpedUnknowns(JitterMarks(A, b), r, Solution(A, b), |A|) == 0.0
  {
    hide Solution, JitterMarks, Residual, BumpedUnknowns;
    var S, x, jit := Augment(A, b), Solution(A, b), JitterMarks(A, b);
    forall r | 0 <= r < |A| ensures Residual(S[r], x) == 0.0 <==> BumpedUnknowns(jit, r, x, |A|) == 0.0 {
      SolutionResidual(A, b, r);
      NoJitterTimesNonzero(BumpedUnknowns(jit, r, x, |A|));
    }
    if Solves(S, x) {
      forall r | 0 <= r < |A| ensures BumpedUnknowns(jit, r, x, |A|) == 0.0 {
        assert Residual(S[r], x) == 0.0;
      }
    } else {
      var r :| 0 <= r < |S| && Residual(S[r], x) != 0.0;
      assert BumpedUnknowns(jit, r, x, |A|) != 0.0;
    }
  }

  lemma WithoutBumps(S: Matrix, P: Matrix, jit: map<nat, nat>)
    requires JitteredSystem(S, P, jit) && jit == map[]
    ensures P == S
  {
    forall r | 0 <= r < |S| ensures P[r] == S[r] {
      forall j | 0 <= j <= |S| ensures P[r][j] == S[r][j] {
        assert j !in jit;
      }
    }
  }

  /** Without a jitter the system has one solution, and the solver returns it. */
  lemma ExactWithoutJitter(A: Matrix, b: Row)
    requires Square(A) && |b| == |A| && JitterMarks(A, b) == map[]
    ensures forall y: Row | |y| == |A| :: Solves(Augment(A, b), y) <==> y == Solution(A, b)
  {
    hide Solution, JitterMarks, Solves;
    var P := SolvesJitteredSystem(A, b);
    var S := Augment(A, b);
    WithoutBumps(S, P, JitterMarks(A, b));
  }

  // ---------------------------------------------------------------- the jitters do not depend on the right-hand side

  ghost predicate SameCoefficients(M: Matrix, N: Matrix) {
    && |M| == |N| && Augmented(M) && Augmented(N)
    && forall r, j :: 0 <= r < |M| && 0 <= j < |M| ==> M[r][j] == N[r][j]
  }

  lemma {:induction false} SamePivotScan(M: Matrix, N: Matrix, i: nat, k: nat, best: nat)
    requires SameCoefficients(M, N) && i < |M| && i <= best < k <= |M|
    requires forall r :: i <= r < k ==> Abs(M[r][i]) <= Abs(M[best][i])
    ensures (forall r :: i <= r < k ==> Abs(N[r][i]) <= Abs(N[best][i]))
      && PivotScan(M, i, k, best) == PivotScan(N, i, k, best)
    decreases |M| - k
  {
    assert forall r :: i <= r < |M| ==> M[r][i] == N[r][i];
    if k < |M| {
      SamePivotScan(M, N, i, k + 1, if Abs(M[k][i]) > Abs(M[best][i]) then k else best);
    }
  }

  lemma SameStep(M: Matrix, N: Matrix, i: nat)
    requires SameCoefficients(M, N) && i < |M|
    ensures PivotRow(M, i) == PivotRow(N, i) && NeedsJitter(M, i) == NeedsJitter(N, i)
    ensures SameCoefficients(Step(M, i), Step(N, i))
  {
    SamePivotScan(M, N, i, i + 1, i);
    assert SameCoefficients(Prepared(M, i), Prepared(N, i));
    SameElimination(Prepared(M, i), Prepared(N, i), i);
  }

  lemma SameElimination(M: Matrix, N: Matrix, i: nat)
    requires SameCoefficients(M, N) && i < |M| && M[i][i] != 0.0
    ensures SameCoefficients(Eliminated(M, i), Eliminated(N, i))
  {
    forall k, j | 0 <= k < |M| && 0 <= j < |M| ensures Eliminated(M, i)[k][j] == Eliminated(N, i)[k][j] {
      if k > i { SameLess(M[k], M[i], N[k], N[i], i, j); }
    }
  }

  lemma SameLess(row: Row, pivot: Row, row': Row, pivot': Row, i: nat, j: nat)
    requires |row| == |pivot| == |row'| == |pivot'| && i < |row| && j < |row|
    requires row[i] == row'[i] && pivot[i] == pivot'[i] && row[j] == row'[j] && pivot[j] == pivot'[j] && pivot[i] != 0.0
    ensures ReducedRow(row, pivot, i)[j] == ReducedRow(row', pivot', i)[j]
  {
    assert row[i] / pivot[i] == row'[i] / pivot'[i];
  }

  lemma MarksGoOn(M: Matrix, i: nat, perm: seq<nat>)
    requires Augmented(M) && i <= |M| == |perm|
    ensures i == |M| ==> Marks(M, i, perm) == map[]
    ensures i < |M| ==> var first := if NeedsJitter(M, i) then map[i := perm[i]] else map[];
      Marks(M, i, perm) == first + Marks(Step(M, i), i + 1, Swapped(perm, i, PivotRow(M, i)))
  {
  }

  lemma {:induction false} SameMarks(M: Matrix, N: Matrix, i: nat, perm: seq<nat>)
    requires SameCoefficients(M, N) && i <= |M| == |perm|
    ensures Marks(M, i, perm) == Marks(N, i, perm)
    decreases |M| - i
  {
    hide Marks, Step, PivotRow, NeedsJitter, Swapped, SameCoefficients;
    SameSizes(M, N);
    MarksGoOn(M, i, perm);
    MarksGoOn(N, i, perm);
    if i < |M| {
      SameStep(M, N, i);
      SameMarks(Step(M, i), Step(N, i), i + 1, Swapped(perm, i, PivotRow(M, i)));
    }
  }

  lemma SameSizes(M: Matrix, N: Matrix)
    requires SameCoefficients(M, N)
    ensures |N| == |M| && Augmented(M) && Augmented(N)
  {
  }

  lemma MarksIgnoreRightHandSide(A: Matrix, b: Row, c: Row)
    requires Square(A) && |b| == |c| == |A|
    ensures JitterMarks(A, b) == JitterMarks(A, c)
  {
    SameMarks(Augment(A, b), Augment(A, c), 0, Identity(|A|));
  }

  function Unit(n: nat, c: nat): (e: Row)
    ensures |e| == n && forall j :: 0 <= j < n ==> e[j] == if j == c then 1.0 else 0.0
  {
    seq(n, j => if j == c then 1.0 else 0.0)
  }

  lemma {:induction false} UnitUnderBump(jit: map<nat, nat>, r: nat, n: nat, c: nat, k: nat)
    requires k <= n
    ensures BumpedUnknowns(jit, r, Unit(n, c), k) == if c < k && c in jit && jit[c] == r then 1.0 else 0.0
  {
    if k > 0 { UnitUnderBump(jit, r, n, c, k - 1); }
  }

  /** The right-hand side for which the unit vector `c` solves the jittered system. */
  lemma UnitRightHandSide(A: Matrix, c: nat) returns (b: Row)
    requires Square(A)
    ensures |b| == |A| && Solution(A, b) == Unit(|A|, c)
  {
    hide Solution, JitterMarks, Residual, Solves, JitteredSystem, DotFrom;
    var P := SolvesJitteredSystem(A, Zeros(|A|));
    var e := Unit(|A|, c);
    b := seq(|A|, r requires 0 <= r < |A| => DotFrom(P[r], e, 0, |A|));
    MarksIgnoreRightHandSide(A, b, Zeros(|A|));
    var Q := SolvesJitteredSystem(A, b);
    UnitSolves(A, b, P, Q, e, JitterMarks(A, b));
  }

  /** A jittered column spoils the equations of the right-hand side for which its own unknown is one. */
  lemma JitterSpoilsSomeRightHandSide(A: Matrix, c: nat) returns (b: Row)
    requires Square(A) && c in JitterMarks(A, Zeros(|A|))
    ensures |b| == |A| && !Solves(Augment(A, b), Solution(A, b))
  {
    hide Solution, JitterMarks, Solves, BumpedUnknowns;
    b := UnitRightHandSide(A, c);
    MarksIgnoreRightHandSide(A, b, Zeros(|A|));
    var P := SolvesJitteredSystem(A, b);
    var jit := JitterMarks(A, b);
    assert c < |A| && jit[c] < |A|;
    UnitUnderBump(jit, jit[c], |A|, c, |A|);
    SolvesIff(A, b);
  }

  lemma UnitSolves(A: Matrix, b: Row, P: Matrix, Q: Matrix, e: Row, jit: map<nat, nat>)
    requires Square(A) && |b| == |A| == |e|
    requires JitteredSystem(Augment(A, Zeros(|A|)), P, jit) && JitteredSystem(Augment(A, b), Q, jit)
    requires forall r :: 0 <= r < |A| ==> b[r] == DotFrom(P[r], e, 0, |A|)
    ensures Solves(Q, e)
  {
    forall r | 0 <= r < |A| ensures Residual(Q[r], e) == 0.0 {
      SameBumpedRow(A, b, P, Q, jit, r);
      DotSameCoefficients(P[r], Q[r], e, |A|);
    }
  }

  lemma SameBumpedRow(A: Matrix, b: Row, P: Matrix, Q: Matrix, jit: map<nat, nat>, r: nat)
    requires Square(A) && |b| == |A| && r < |A|
    requires JitteredSystem(Augment(A, Zeros(|A|)), P, jit) && JitteredSystem(Augment(A, b), Q, jit)
    ensures Q[r][|A|] == b[r] && forall j :: 0 <= j < |A| ==> P[r][j] == Q[r][j]
  {
    var S, T := Augment(A, Zeros(|A|)), Augment(A, b);
    forall j | 0 <= j < |A| ensures P[r][j] == Q[r][j] {
      assert S[r][j] == A[r][j] == T[r][j];
      var d := if j in jit && jit[j] == r then JITTER else 0.0;
      assert P[r][j] == S[r][j] + d && Q[r][j] == T[r][j] + d;
    }
    assert |A| !in jit;
    assert Q[r][|A|] == T[r][|A|];
  }

  lemma {:induction false} DotSameCoefficients(p: Row, q: Row, x: Row, c: nat)
    requires c <= |p| && c <= |q| && c <= |x| && forall j :: 0 <= j < c ==> p[j] == q[j]
    ensures DotFrom(p, x, 0, c) == DotFrom(q, x, 0, c)
  {
    if c > 0 { DotSameCoefficients(p, q, x, c - 1); }
  }

  /** The solver meets A x = b for every right-hand side exactly when no column of A takes the jitter branch. */
  lemma ExactForAllIffNoJitter(A: Matrix)
    requires Square(A)
    ensures (forall b: Row | |b| == |A| :: Solves(Augment(A, b), Solution(A, b))) <==>
      JitterMarks(A, Zeros(|A|)) == map[]
  {
    hide Solution, JitterMarks, Solves;
    var jit := JitterMarks(A, Zeros(|A|));
    if jit == map[] {
      forall b: Row | |b| == |A| ensures Solves(Augment(A, b), Solution(A, b)) {
        MarksIgnoreRightHandSide(A, b, Zeros(|A|));
        ExactWithoutJitter(A, b);
      }
    } else {
      var c :| c in jit;
      var b := JitterSpoilsSomeRightHandSide(A, c);
    }
  }

  /** A column is jittered exactly when all its entries from the diagonal down lie within 1e-12 of zero. */
  lemma NeedsJitterIff(M: Matrix, i: nat)
    requires Augmented(M) && i < |M|
    ensures NeedsJitter(M, i) <==>
      forall r :: i <= r < |M| ==> -0.000000000001 < M[r][i] < 0.000000000001
  {
    hide PivotRow;
    assert forall r :: i <= r < |M| ==> Abs(M[r][i]) <= Abs(M[PivotRow(M, i)][i]);
  }

  /** The smallest singular system: 0 * x = 1 is answered with x = 1000000. */
  lemma SingularExample()
    ensures Solution([[0.0]], [1.0]) == [1000000.0]
    ensures !Solves(Augment([[0.0]], [1.0]), Solution([[0.0]], [1.0]))
  {
    var S := Augment([[0.0]], [1.0]);
    assert S[0] == [0.0] + [1.0] == [0.0, 1.0];
    var U := Prepared(S, 0);
    assert NeedsJitter(S, 0) && PivotRow(S, 0) == 0;
    assert U[0] == [JITTER, 1.0];
    assert Run(S, 0) == Run(Step(S, 0), 1) == Step(S, 0) == U;
    RunLeavesPivots(S, 0);
    assert DotFrom(U[0], Zeros(1), 1, 1) == 0.0;
    assert BackSubstitute(U, 1, Zeros(1)) == BackSubstitute(U, 0, Zeros(1)[0 := 1.0 / JITTER]);
    var x := [1000000.0];
    assert DotFrom(S[0], x, 0, 1) == DotFrom(S[0], x, 0, 0) + S[0][0] * x[0];
    assert Residual(S[0], x) == -1.0;
  }
}
