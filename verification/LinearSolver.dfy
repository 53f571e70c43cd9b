/** Gaussian elimination with partial pivoting and a jitter branch, over exact reals. */
module LinearSolver {

  type Row = seq<real>
  type Matrix = seq<Row>

  const TINY: real := 0.000000000001
  const JITTER: real := 0.000001

  ghost predicate Square(A: Matrix) {
    forall r :: 0 <= r < |A| ==> |A[r]| == |A|
  }

  /** `n` rows of `n + 1` entries: the coefficients and, last, the right-hand side. */
  ghost predicate Augmented(M: Matrix) {
    forall r :: 0 <= r < |M| ==> |M[r]| == |M| + 1
  }

  function Abs(x: real): real {
    if x < 0.0 then -x else x
  }

  // ---------------------------------------------------------------- dot products and residuals

  function DotFrom(a: Row, x: Row, lo: nat, hi: nat): real
    requires hi <= |a| && hi <= |x|
  {
    if hi <= lo then 0.0 else DotFrom(a, x, lo, hi - 1) + a[hi-1] * x[hi-1]
  }

  /** How far `x` is from satisfying the equation in `row`. */
  function Residual(row: Row, x: Row): real
    requires |row| == |x| + 1
  {
    DotFrom(row, x, 0, |x|) - row[|x|]
  }

  ghost predicate Solves(M: Matrix, x: Row)
    requires Augmented(M) && |x| == |M|
  {
    forall r :: 0 <= r < |M| ==> Residual(M[r], x) == 0.0
  }

  // ---------------------------------------------------------------- the elimination, step by step

  function Augment(A: Matrix, b: Row): (M: Matrix)
    requires Square(A) && |b| == |A|
    ensures |M| == |A| && Augmented(M)
    ensures forall r :: 0 <= r < |A| ==> M[r] == A[r] + [b[r]]
  {
    seq(|A|, r requires 0 <= r < |A| => A[r] + [b[r]])
  }

  function PivotScan(M: Matrix, i: nat, k: nat, best: nat): (p: nat)
    requires Augmented(M) && i < |M| && i <= best < k <= |M|
    requires forall r :: i <= r < k ==> Abs(M[r][i]) <= Abs(M[best][i])
    ensures i <= p < |M| && forall r :: i <= r < |M| ==> Abs(M[r][i]) <= Abs(M[p][i])
    ensures p == best || Abs(M[p][i]) > Abs(M[best][i])
    decreases |M| - k
  {
    if k == |M| then best
    else if Abs(M[k][i]) > Abs(M[best][i]) then PivotScan(M, i, k + 1, k)
    else PivotScan(M, i, k + 1, best)
  }

  /** The row at or below `i` with the largest entry in column `i`; row `i` itself on ties. */
  function PivotRow(M: Matrix, i: nat): (p: nat)
    requires Augmented(M) && i < |M|
    ensures i <= p < |M| && forall r :: i <= r < |M| ==> Abs(M[r][i]) <= Abs(M[p][i])
    ensures p == i || Abs(M[p][i]) > Abs(M[i][i])
  {
    PivotScan(M, i, i + 1, i)
  }

  predicate NeedsJitter(M: Matrix, i: nat)
    requires Augmented(M) && i < |M|
  {
    Abs(M[PivotRow(M, i)][i]) < TINY
  }

  function Bumped(M: Matrix, r: nat, c: nat): (N: Matrix)
    requires Augmented(M) && r < |M| && c <= |M|
    ensures |N| == |M| && Augmented(N)
  {
    M[r := M[r][c := M[r][c] + JITTER]]
  }

  function Swapped<T>(s: seq<T>, i: nat, p: nat): (t: seq<T>)
    requires i < |s| && p < |s|
    ensures |t| == |s|
  {
    s[i := s[p]][p := s[i]]
  }

  /** Row `i` holds the pivot: bumped when the column is too small, then exchanged with the pivot row. */
  function Prepared(M: Matrix, i: nat): (N: Matrix)
    requires Augmented(M) && i < |M|
    ensures |N| == |M| && Augmented(N) && N[i][i] != 0.0
  {
    var p := PivotRow(M, i);
    Swapped(if NeedsJitter(M, i) then Bumped(M, i, i) else M, i, p)
  }

  /** `row` less `factor` times `pivot`, from column `i` on. */
  function Less(row: Row, pivot: Row, i: nat, factor: real): (r: Row)
    requires |row| == |pivot|
    ensures |r| == |row|
    ensures forall j :: 0 <= j < |row| ==> r[j] == if j < i then row[j] else row[j] - factor * pivot[j]
  {
    seq(|row|, j requires 0 <= j < |row| => if j < i then row[j] else row[j] - factor * pivot[j])
  }

  function ReducedRow(row: Row, pivot: Row, i: nat): (r: Row)
    requires |row| == |pivot| && i < |row| && pivot[i] != 0.0
    ensures |r| == |row|
  {
    Less(row, pivot, i, row[i] / pivot[i])
  }

  function Eliminated(M: Matrix, i: nat): (N: Matrix)
    requires Augmented(M) && i < |M| && M[i][i] != 0.0
    ensures |N| == |M| && Augmented(N)
    ensures forall k :: 0 <= k < |M| ==> N[k] == if k <= i then M[k] else ReducedRow(M[k], M[i], i)
  {
    seq(|M|, k requires 0 <= k < |M| => if k <= i then M[k] else ReducedRow(M[k], M[i], i))
  }

  function Step(M: Matrix, i: nat): (N: Matrix)
    requires Augmented(M) && i < |M|
    ensures |N| == |M| && Augmented(N)
  {
    Eliminated(Prepared(M, i), i)
  }

  function Run(M: Matrix, i: nat): (N: Matrix)
    requires Augmented(M) && i <= |M|
    ensures |N| == |M| && Augmented(N)
    decreases |M| - i
  {
    if i == |M| then M else Run(Step(M, i), i + 1)
  }

  function Identity(n: nat): (s: seq<nat>)
    ensures |s| == n && forall k :: 0 <= k < n ==> s[k] == k
  {
    seq(n, k => k)
  }

  /**
   * The jitters of a run from column `i` on: each column that takes the jitter branch, with the original index of the
   * row that is bumped. `perm[k]` is the original index of the row now at `k`.
   */
  function Marks(M: Matrix, i: nat, perm: seq<nat>): map<nat, nat>
    requires Augmented(M) && i <= |M| == |perm|
    decreases |M| - i
  {
    if i == |M| then map[] else
    (if NeedsJitter(M, i) then map[i := perm[i]] else map[])
      + Marks(Step(M, i), i + 1, Swapped(perm, i, PivotRow(M, i)))
  }

  function JitterMarks(A: Matrix, b: Row): map<nat, nat>
    requires Square(A) && |b| == |A|
  {
    Marks(Augment(A, b), 0, Identity(|A|))
  }

  ghost predicate NonzeroDiagonal(U: Matrix) {
    Augmented(U) && forall c :: 0 <= c < |U| ==> U[c][c] != 0.0
  }

  /** Fills in the unknowns below `i`, from the last to the first. */
  function BackSubstitute(U: Matrix, i: nat, x: Row): (r: Row)
    requires NonzeroDiagonal(U) && i <= |U| && |x| == |U|
    ensures |r| == |U|
  {
    if i == 0 then x else
    var c := i - 1;
    BackSubstitute(U, c, x[c := (U[c][|U|] - DotFrom(U[c], x, i, |U|)) / U[c][c]])
  }

  function Zeros(n: nat): (z: Row)
    ensures |z| == n
  {
    seq(n, _ => 0.0)
  }

  function Solution(A: Matrix, b: Row): (x: Row)
    requires Square(A) && |b| == |A|
    ensures |x| == |A|
  {
    RunLeavesPivots(Augment(A, b), 0);
    BackSubstitute(Run(Augment(A, b), 0), |A|, Zeros(|A|))
  }

  // ---------------------------------------------------------------- no division by zero

  lemma {:induction false} RunLeavesPivots(M: Matrix, i: nat)
    requires Augmented(M) && i <= |M|
    requires forall c :: 0 <= c < i ==> M[c][c] != 0.0
    ensures NonzeroDiagonal(Run(M, i))
    decreases |M| - i
  {
    if i < |M| {
      StepLeavesPivots(M, i);
      hide Step;
      RunLeavesPivots(Step(M, i), i + 1);
    }
  }

  lemma StepLeavesPivots(M: Matrix, i: nat)
    requires Augmented(M) && i < |M| && forall c :: 0 <= c < i ==> M[c][c] != 0.0
    ensures forall c :: 0 <= c <= i ==> Step(M, i)[c][c] != 0.0
  {
    var p := Prepared(M, i);
    forall c | 0 <= c < i ensures p[c] == M[c] {}
    hide Prepared, ReducedRow;
  }

  // ---------------------------------------------------------------- the method of the source

  method FindPivot(M: Matrix, i: nat) returns (maxRow: nat, maxVal: real)
    requires Augmented(M) && i < |M|
    ensures maxRow == PivotRow(M, i) && maxVal == Abs(M[maxRow][i])
  {
    maxRow, maxVal := i, Abs(M[i][i]);
    for k := i + 1 to |M|
      invariant i <= maxRow < k && maxVal == Abs(M[maxRow][i])
      invariant forall r :: i <= r < k ==> Abs(M[r][i]) <= maxVal
      invariant PivotScan(M, i, k, maxRow) == PivotRow(M, i)
    {
      if Abs(M[k][i]) > maxVal {
        maxVal := Abs(M[k][i]);
        maxRow := k;
      }
    }
  }

  method ReduceRow(row0: Row, pivotRow: Row, i: nat) returns (row: Row)
    requires |row0| == |pivotRow| && i < |row0| && pivotRow[i] != 0.0
    ensures row == ReducedRow(row0, pivotRow, i)
  {
    row := row0;
    var factor := row[i] / pivotRow[i];
    for j := i to |row|
      invariant |row| == |row0|
      invariant forall c :: 0 <= c < |row| ==> row[c] == if i <= c < j then row0[c] - factor * pivotRow[c] else row0[c]
    {
      row := row[j := row[j] - factor * pivotRow[j]];
    }
    forall c | 0 <= c < |row| ensures row[c] == Less(row0, pivotRow, i, factor)[c] {
      if c >= i { assert row[c] == row0[c] - factor * pivotRow[c]; }
    }
    assert row == Less(row0, pivotRow, i, factor);
  }

  method EliminateBelow(M0: Matrix, i: nat) returns (M: Matrix)
    requires Augmented(M0) && i < |M0| && M0[i][i] != 0.0
    ensures M == Eliminated(M0, i)
  {
    hide ReducedRow;
    M := M0;
    for k := i + 1 to |M|
      invariant |M| == |M0|
      invariant forall r :: 0 <= r < |M| ==> M[r] == if i < r < k then ReducedRow(M0[r], M0[i], i) else M0[r]
    {
      var row := ReduceRow(M[k], M[i], i);
      M := M[k := row];
    }
  }

  method PreparePivot(M: Matrix, i: nat) returns (N: Matrix)
    requires Augmented(M) && i < |M|
    ensures N == Prepared(M, i)
  {
    var maxRow, maxVal := FindPivot(M, i);
    N := M;
    if maxVal < TINY {
      N := N[i := N[i][i := N[i][i] + JITTER]];
    }
    if maxRow != i {
      N := N[i := N[maxRow]][maxRow := N[i]];
    }
  }

  method ForwardEliminate(M0: Matrix) returns (M: Matrix)
    requires Augmented(M0)
    ensures M == Run(M0, 0)
  {
    hide Prepared, Eliminated;
    M := M0;
    for i := 0 to |M|
      invariant |M| == |M0| && Augmented(M) && Run(M, i) == Run(M0, 0)
    {
      var N := PreparePivot(M, i);
      M := EliminateBelow(N, i);
    }
  }

  method BackSubstitution(M: Matrix) returns (x: Row)
    requires NonzeroDiagonal(M)
    ensures x == BackSubstitute(M, |M|, Zeros(|M|))
  {
    var n := |M|;
    x := Zeros(n);
    var i := n;
    while i > 0
      invariant 0 <= i <= n && |x| == n
      invariant BackSubstitute(M, i, x) == BackSubstitute(M, n, Zeros(n))
    {
      i := i - 1;
      var s := 0.0;
      for j := i + 1 to n
        invariant s == DotFrom(M[i], x, i + 1, j)
      {
        s := s + M[i][j] * x[j];
      }
      x := x[i := (M[i][n] - s) / M[i][i]];
    }
  }

  method SolveLinearSystem(A: Matrix, b: Row) returns (x: Row)
    requires Square(A) && |b| == |A|
    ensures x == Solution(A, b)
  {
    var M := ForwardEliminate(Augment(A, b));
    RunLeavesPivots(Augment(A, b), 0);
    x := BackSubstitution(M);
  }
}
