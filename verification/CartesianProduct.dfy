/** The gateway's own cartesian product: every choice once, in lexicographic order. */
module CartesianProduct {

  /** Each of `xs` in turn, followed by each of the pool. */
  function Extend<T>(xs: seq<seq<T>>, pool: seq<T>): seq<seq<T>> {
    if xs == [] then []
    else Extend(xs[..|xs|-1], pool) + Endings(xs[|xs|-1], pool)
  }

  function Endings<T>(x: seq<T>, pool: seq<T>): (r: seq<seq<T>>)
    ensures |r| == |pool| && forall j :: 0 <= j < |pool| ==> r[j] == x + [pool[j]]
  {
    seq(|pool|, j requires 0 <= j < |pool| => x + [pool[j]])
  }

  function Product<T>(pools: seq<seq<T>>): seq<seq<T>> {
    if pools == [] then [[]] else Extend(Product(pools[..|pools|-1]), pools[|pools|-1])
  }

  /** No pools give no choices, although the empty product has one. */
  method Compute<T>(pools: seq<seq<T>>) returns (result: seq<seq<T>>)
    ensures result == if pools == [] then [] else Product(pools)
  {
    if pools == [] {
      return [];
    }
    result := [[]];
    for n := 0 to |pools|
      invariant result == Product(pools[..n])
    {
      var pool := pools[n];
      var next: seq<seq<T>> := [];
      for i := 0 to |result|
        invariant next == Extend(result[..i], pool)
      {
        ghost var done := next;
        for j := 0 to |pool|
          invariant next == done + Endings(result[i], pool[..j])
        {
          next := next + [result[i] + [pool[j]]];
          assert Endings(result[i], pool[..j+1]) == Endings(result[i], pool[..j]) + [result[i] + [pool[j]]];
        }
        assert pool[..|pool|] == pool && result[..i+1][..i] == result[..i];
      }
      assert result[..|result|] == result && pools[..n+1][..n] == pools[..n];
      result := next;
    }
    assert pools[..|pools|] == pools;
  }

  // ---------------------------------------------------------------- positions and choices

  /** One index into every pool. */
  predicate Choice<T>(pools: seq<seq<T>>, idx: seq<nat>) {
    |idx| == |pools| && forall i :: 0 <= i < |pools| ==> idx[i] < |pools[i]|
  }

  function Pick<T>(pools: seq<seq<T>>, idx: seq<nat>): seq<T>
    requires Choice(pools, idx)
  {
    seq(|pools|, i requires 0 <= i < |pools| => pools[i][idx[i]])
  }

  function Size<T>(pools: seq<seq<T>>): nat {
    if pools == [] then 1 else Size(pools[..|pools|-1]) * |pools[|pools|-1]|
  }

  /** Where a choice stands: its indices as the digits of a mixed-radix number. */
  function Position<T>(pools: seq<seq<T>>, idx: seq<nat>): nat
    requires Choice(pools, idx)
  {
    if pools == [] then 0
    else Position(pools[..|pools|-1], idx[..|idx|-1]) * |pools[|pools|-1]| + idx[|idx|-1]
  }

  /** The choice that stands at a position. */
  function ChoiceAt<T>(pools: seq<seq<T>>, k: nat): seq<nat>
    requires k < Size(pools)
  {
    if pools == [] then []
    else
      var m := |pools[|pools|-1]|;
      DigitBound(k, Size(pools[..|pools|-1]), m);
      ChoiceAt(pools[..|pools|-1], k / m) + [k % m]
  }

  lemma DigitBound(k: nat, n: nat, m: nat)
    requires k < n * m
    ensures m > 0 && k / m < n && k == k / m * m + k % m
  {
    NothingTimes(n, m);
    assert k == k / m * m + k % m;
    Digits(k / m, k % m, n, 0, m);
  }

  lemma NothingTimes(n: nat, m: nat)
    ensures m == 0 ==> n * m == 0
    ensures n > 0 ==> n * m == (n - 1) * m + m
  {
  }

  lemma DigitSplit(q: nat, r: nat, m: nat)
    requires r < m
    ensures (q * m + r) / m == q && (q * m + r) % m == r
  {
    var k := q * m + r;
    assert k == k / m * m + k % m;
    Digits(q, r, k / m, k % m, m);
    Digits(k / m, k % m, q, r, m);
  }

  lemma Digits(q: nat, r: nat, q': nat, r': nat, m: nat)
    requires r < m && r' < m
    ensures q * m + r < q' * m + r' <==> q < q' || (q == q' && r < r')
  {
    if q < q' { assert (q + 1) * m <= q' * m; }
    if q > q' { assert (q' + 1) * m <= q * m; }
  }

  // ---------------------------------------------------------------- every choice once, in order

  lemma {:induction false} ExtendAt<T>(xs: seq<seq<T>>, pool: seq<T>, i: nat, j: nat)
    requires i < |xs| && j < |pool|
    ensures |Extend(xs, pool)| == |xs| * |pool| && i * |pool| + j < |xs| * |pool|
    ensures Extend(xs, pool)[i * |pool| + j] == xs[i] + [pool[j]]
  {
    var n := |xs| - 1;
    ExtendSize(xs, pool);
    ExtendSize(xs[..n], pool);
    Digits(i, j, |xs|, 0, |pool|);
    if i < n {
      ExtendAt(xs[..n], pool, i, j);
    }
  }

  lemma {:induction false} ExtendSize<T>(xs: seq<seq<T>>, pool: seq<T>)
    ensures |Extend(xs, pool)| == |xs| * |pool|
  {
    if xs != [] {
      ExtendSize(xs[..|xs|-1], pool);
      NothingTimes(|xs|, |pool|);
    }
  }

  lemma {:induction false} ProductSize<T>(pools: seq<seq<T>>)
    ensures |Product(pools)| == Size(pools)
  {
    if pools != [] {
      ProductSize(pools[..|pools|-1]);
      ExtendSize(Product(pools[..|pools|-1]), pools[|pools|-1]);
    }
  }

  /** Every choice stands at its position. */
  lemma {:induction false} ChoiceIsThere<T>(pools: seq<seq<T>>, idx: seq<nat>)
    requires Choice(pools, idx)
    ensures Position(pools, idx) < |Product(pools)| && Product(pools)[Position(pools, idx)] == Pick(pools, idx)
  {
    if pools != [] {
      var n := |pools| - 1;
      ChoiceIsThere(pools[..n], idx[..n]);
      var p := Position(pools[..n], idx[..n]);
      ExtendAt(Product(pools[..n]), pools[n], p, idx[n]);
      assert Pick(pools, idx) == Pick(pools[..n], idx[..n]) + [pools[n][idx[n]]];
    }
  }

  /** Every position holds one choice. */
  lemma {:induction false} PositionIsTaken<T>(pools: seq<seq<T>>, k: nat)
    requires k < Size(pools)
    ensures Choice(pools, ChoiceAt(pools, k)) && Position(pools, ChoiceAt(pools, k)) == k
  {
    if pools != [] {
      var n := |pools| - 1;
      var m := |pools[n]|;
      DigitBound(k, Size(pools[..n]), m);
      PositionIsTaken(pools[..n], k / m);
      var idx := ChoiceAt(pools, k);
      assert idx[..n] == ChoiceAt(pools[..n], k / m);
      forall i | 0 <= i < |pools| ensures idx[i] < |pools[i]| {
        if i < n { assert idx[i] == idx[..n][i] && pools[i] == pools[..n][i]; }
      }
    }
  }

  lemma {:induction false} PositionFindsChoice<T>(pools: seq<seq<T>>, idx: seq<nat>)
    requires Choice(pools, idx)
    ensures Position(pools, idx) < Size(pools) && ChoiceAt(pools, Position(pools, idx)) == idx
  {
    ChoiceIsThere(pools, idx);
    ProductSize(pools);
    if pools != [] {
      var n := |pools| - 1;
      PositionFindsChoice(pools[..n], idx[..n]);
      DigitSplit(Position(pools[..n], idx[..n]), idx[n], |pools[n]|);
      assert idx == idx[..n] + [idx[n]];
    }
  }

  /** `a` comes before `b`: they agree up to some pool, where `a` picks earlier. */
  ghost predicate Precedes(a: seq<nat>, b: seq<nat>) {
    exists n :: 0 <= n < |a| && n < |b| && a[..n] == b[..n] && a[n] < b[n]
  }

  lemma PrecedesByLast(a: seq<nat>, b: seq<nat>)
    requires |a| == |b| > 0
    ensures var n := |a| - 1;
      Precedes(a, b) <==> Precedes(a[..n], b[..n]) || (a[..n] == b[..n] && a[n] < b[n])
  {
    var n := |a| - 1;
    if Precedes(a[..n], b[..n]) {
      var k :| 0 <= k < n && a[..n][..k] == b[..n][..k] && a[..n][k] < b[..n][k];
      assert a[..k] == a[..n][..k] && b[..k] == b[..n][..k];
    }
    if Precedes(a, b) {
      var k :| 0 <= k < |a| && a[..k] == b[..k] && a[k] < b[k];
      if k < n {
        assert a[..n][..k] == a[..k] && b[..n][..k] == b[..k];
      }
    }
  }

  /** Positions follow the lexicographic order of the choices. */
  lemma {:induction false} PositionsFollowOrder<T>(pools: seq<seq<T>>, a: seq<nat>, b: seq<nat>)
    requires Choice(pools, a) && Choice(pools, b)
    ensures Position(pools, a) < Position(pools, b) <==> Precedes(a, b)
  {
    if pools != [] {
      var n := |pools| - 1;
      PositionsFollowOrder(pools[..n], a[..n], b[..n]);
      PositionFindsChoice(pools[..n], a[..n]);
      PositionFindsChoice(pools[..n], b[..n]);
      Digits(Position(pools[..n], a[..n]), a[n], Position(pools[..n], b[..n]), b[n], |pools[n]|);
      PrecedesByLast(a, b);
    }
  }

  ghost predicate PicksFrom<T>(c: seq<T>, pools: seq<seq<T>>) {
    |c| == |pools| && forall i :: 0 <= i < |c| ==> c[i] in pools[i]
  }

  /** What the product holds, as a set: exactly the picks from every pool. */
  lemma ProductHolds<T>(pools: seq<seq<T>>, c: seq<T>)
    ensures c in Product(pools) <==> PicksFrom(c, pools)
  {
    if c in Product(pools) { ProductPicks(pools, c); }
    if PicksFrom(c, pools) { PickIsHeld(pools, c); }
  }

  lemma ProductPicks<T>(pools: seq<seq<T>>, c: seq<T>)
    requires c in Product(pools)
    ensures PicksFrom(c, pools)
  {
    hide Product;
    ProductSize(pools);
    var k :| 0 <= k < |Product(pools)| && Product(pools)[k] == c;
    PositionIsTaken(pools, k);
    ChoiceIsThere(pools, ChoiceAt(pools, k));
  }

  lemma PickIsHeld<T>(pools: seq<seq<T>>, c: seq<T>)
    requires PicksFrom(c, pools)
    ensures c in Product(pools)
  {
    hide Product, Position;
    var idx := seq(|c|, i requires 0 <= i < |c| => FirstIndex(pools[i], c[i]));
    ChoiceIsThere(pools, idx);
    assert Pick(pools, idx) == c;
  }

  function FirstIndex<T(==)>(s: seq<T>, x: T): (i: nat)
    requires x in s
    ensures i < |s| && s[i] == x
  {
    if s[0] == x then 0 else 1 + FirstIndex(s[1..], x)
  }
}
