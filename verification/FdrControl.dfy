/** Localisation of an anomaly: Benjamini-Hochberg step-up control, contribution shares and ranking of segments. */
module FdrControl {
  import opened StableSort

  const ALPHA: real := 0.05

  // ---------------------------------------------------------------- the order-free definition

  function Threshold(k: nat, m: nat): real
    requires m > 0
  {
    k as real / m as real * ALPHA
  }

  /** How many p-values are at most `t`. */
  ghost function CountAtMost(ps: seq<real>, t: real): nat {
    if ps == [] then 0 else CountAtMost(ps[..|ps|-1], t) + if ps[|ps|-1] <= t then 1 else 0
  }

  /** At least `k` p-values pass the threshold of rank `k`. */
  ghost predicate Passes(ps: seq<real>, k: nat)
    requires ps != []
  {
    CountAtMost(ps, Threshold(k, |ps|)) >= k
  }

  /** The largest rank up to `k` that passes; 0 always does. */
  ghost function LargestPassing(ps: seq<real>, k: nat): (r: nat)
    requires ps != []
    ensures r <= k && Passes(ps, r) && forall j :: r < j <= k ==> !Passes(ps, j)
  {
    if k == 0 || Passes(ps, k) then k else LargestPassing(ps, k - 1)
  }

  ghost function KStar(ps: seq<real>): nat
    requires ps != []
  {
    LargestPassing(ps, |ps|)
  }

  ghost predicate Rejected(ps: seq<real>, i: nat)
    requires i < |ps|
  {
    KStar(ps) > 0 && ps[i] <= Threshold(KStar(ps), |ps|)
  }

  // ---------------------------------------------------------------- the step-up scan of the source

  /** A candidate's position in the input with its p-value. */
  datatype Entry = Entry(index: nat, p: real)

  function Entries(ps: seq<real>): (es: seq<Entry>)
    ensures |es| == |ps| && forall i :: 0 <= i < |ps| ==> es[i] == Entry(i, ps[i])
  {
    seq(|ps|, i requires 0 <= i < |ps| => Entry(i, ps[i]))
  }

  function ByP(): (Entry, Entry) -> bool {
    (a: Entry, b: Entry) => a.p <= b.p
  }

  function Ranked(ps: seq<real>): (es: seq<Entry>)
    ensures |es| == |ps|
  {
    Sort(Entries(ps), ByP())
  }

  function Ps(es: seq<Entry>): (ps: seq<real>)
    ensures |ps| == |es| && forall i :: 0 <= i < |es| ==> ps[i] == es[i].p
  {
    seq(|es|, i requires 0 <= i < |es| => es[i].p)
  }

  lemma {:induction false} CountSplits(ps: seq<real>, qs: seq<real>, t: real)
    ensures CountAtMost(ps + qs, t) == CountAtMost(ps, t) + CountAtMost(qs, t)
  {
    if qs == [] {
      assert ps + qs == ps;
    } else {
      CountSplits(ps, qs[..|qs|-1], t);
      assert (ps + qs)[..|ps + qs|-1] == ps + qs[..|qs|-1];
    }
  }

  /** Counting does not depend on the order. */
  lemma {:induction false} CountOfPermutation(ps: seq<real>, qs: seq<real>, t: real)
    requires multiset(ps) == multiset(qs)
    ensures CountAtMost(ps, t) == CountAtMost(qs, t)
  {
    if ps == [] {
      assert |multiset(qs)| == |qs| == 0;
    } else {
      var a, b := TakeOut(ps, qs);
      var x := ps[|ps|-1];
      CountOfPermutation(ps[..|ps|-1], a + b, t);
      CountSplits(a, b, t);
      CountSplits(a + [x], b, t);
      CountSplits(a, [x], t);
      CountOfOne(x, t);
    }
  }

  lemma CountOfOne(x: real, t: real)
    ensures CountAtMost([x], t) == if x <= t then 1 else 0
  {
    assert [x][..0] == [];
  }

  lemma {:induction false} CountAll(ps: seq<real>, t: real)
    ensures CountAtMost(ps, t) <= |ps|
    ensures (forall i :: 0 <= i < |ps| ==> ps[i] <= t) ==> CountAtMost(ps, t) == |ps|
  {
    if ps != [] { CountAll(ps[..|ps|-1], t); }
  }

  lemma {:induction false} CountNone(ps: seq<real>, t: real)
    requires forall i :: 0 <= i < |ps| ==> ps[i] > t
    ensures CountAtMost(ps, t) == 0
  {
    if ps != [] { CountNone(ps[..|ps|-1], t); }
  }

  /** In a sorted list at least `r` values pass exactly when the r-th does. */
  lemma CountInSorted(qs: seq<real>, r: nat, t: real)
    requires (forall i, j :: 0 <= i < j < |qs| ==> qs[i] <= qs[j]) && 1 <= r <= |qs|
    ensures CountAtMost(qs, t) >= r <==> qs[r-1] <= t
  {
    hide CountAtMost;
    if qs[r-1] <= t {
      var low := qs[..r];
      CountSplits(low, qs[r..], t);
      CountAll(low, t);
      assert qs == low + qs[r..];
      forall i | 0 <= i < |low| ensures low[i] <= t { assert i < r - 1 ==> qs[i] <= qs[r-1]; }
    } else {
      var high := qs[r-1..];
      CountSplits(qs[..r-1], high, t);
      CountAll(qs[..r-1], t);
      assert qs == qs[..r-1] + high;
      forall i | 0 <= i < |high| ensures high[i] > t { assert i > 0 ==> qs[r-1] <= qs[r-1+i]; }
      CountNone(high, t);
    }
  }

  lemma ThresholdGrows(j: nat, k: nat, m: nat)
    requires j <= k && m > 0
    ensures Threshold(j, m) <= Threshold(k, m)
  {
    assert j as real / m as real <= k as real / m as real;
  }

  lemma RankedIsSorted(ps: seq<real>)
    ensures var qs := Ps(Ranked(ps)); forall i, j :: 0 <= i < j < |qs| ==> qs[i] <= qs[j]
  {
    SortSorts(Entries(ps), ByP());
  }

  lemma {:induction false} PsOfMultiset(es: seq<Entry>, fs: seq<Entry>)
    requires multiset(es) == multiset(fs)
    ensures multiset(Ps(es)) == multiset(Ps(fs))
  {
    if es == [] {
      assert |multiset(fs)| == |fs| == 0;
    } else {
      var a, b := TakeOut(es, fs);
      var n, x := |es| - 1, es[|es|-1];
      PsOfMultiset(es[..n], a + b);
      assert es == es[..n] + [x];
      PsConcat(es[..n], [x]);
      PsConcat(a, b);
      PsConcat(a + [x], b);
      PsConcat(a, [x]);
    }
  }

  lemma PsConcat(es: seq<Entry>, fs: seq<Entry>)
    ensures Ps(es + fs) == Ps(es) + Ps(fs) && multiset(Ps(es + fs)) == multiset(Ps(es)) + multiset(Ps(fs))
  {
  }

  lemma RankedIsPermutation(ps: seq<real>)
    ensures multiset(Ps(Ranked(ps))) == multiset(ps)
    ensures forall e :: e in Ranked(ps) <==> e.index < |ps| && e.p == ps[e.index]
  {
    SortKeepsElements(Entries(ps), ByP());
    SortMembers(Entries(ps), ByP());
    PsOfMultiset(Ranked(ps), Entries(ps));
    assert Ps(Entries(ps)) == ps;
    forall e ensures e in Entries(ps) <==> e.index < |ps| && e.p == ps[e.index] {
      if e.index < |ps| && e.p == ps[e.index] { assert Entries(ps)[e.index] == e; }
    }
  }

  /** The rank test of the scan is the counting test of the definition. */
  lemma RankPasses(ps: seq<real>, r: nat)
    requires 1 <= r <= |ps|
    ensures Passes(ps, r) <==> Ranked(ps)[r-1].p <= Threshold(r, |ps|)
  {
    RankedIsSorted(ps);
    RankedIsPermutation(ps);
    CountInSorted(Ps(Ranked(ps)), r, Threshold(r, |ps|));
    CountOfPermutation(ps, Ps(Ranked(ps)), Threshold(r, |ps|));
  }

  /** A rank is at most k* exactly when its p-value is at most the threshold of k*. */
  lemma RankWithinKStar(ps: seq<real>, r: nat)
    requires 1 <= r <= |ps|
    ensures r <= KStar(ps) <==> KStar(ps) > 0 && Ranked(ps)[r-1].p <= Threshold(KStar(ps), |ps|)
  {
    hide Passes, Threshold;
    var k, es := KStar(ps), Ranked(ps);
    RankedIsSorted(ps);
    if k > 0 {
      RankPasses(ps, k);
      if r <= k {
        assert Ps(es)[r-1] <= Ps(es)[k-1];
      } else if es[r-1].p <= Threshold(k, |ps|) {
        ThresholdGrows(k, r, |ps|);
        RankPasses(ps, r);
      }
    }
  }

  method MaxFdrRank(ps: seq<real>) returns (es: seq<Entry>, maxRank: int)
    requires ps != []
    ensures es == Ranked(ps)
    ensures maxRank == if KStar(ps) == 0 then -1 else KStar(ps)
  {
    hide Passes;
    es := Ranked(ps);
    maxRank := -1;
    var m := |es|;
    for r := 1 to m + 1
      invariant maxRank == if LargestPassing(ps, r - 1) == 0 then -1 else LargestPassing(ps, r - 1)
    {
      RankPasses(ps, r);
      var limit := Threshold(r, m);
      if es[r-1].p <= limit {
        maxRank := r;
      }
    }
  }

  /** The flags `fdr_rejected` of all candidates, in input order. */
  method StepUp(ps: seq<real>) returns (rejected: seq<bool>)
    requires ps != []
    ensures |rejected| == |ps| && forall i :: 0 <= i < |ps| ==> (rejected[i] <==> Rejected(ps, i))
  {
    hide KStar, Threshold, Ranked;
    var es, maxRank := MaxFdrRank(ps);
    RankedIsPermutation(ps);
    rejected := seq(|ps|, _ => false);
    for r := 1 to |es| + 1
      invariant |rejected| == |ps|
      invariant forall k :: 0 <= k < r - 1 ==>
        es[k].index < |ps| && (rejected[es[k].index] <==> Rejected(ps, es[k].index))
    {
      assert es[r-1] in Ranked(ps);
      RankWithinKStar(ps, r);
      rejected := rejected[es[r-1].index := r <= maxRank];
    }
    forall i | 0 <= i < |ps| ensures rejected[i] <==> Rejected(ps, i) {
      assert Entry(i, ps[i]) in Ranked(ps);
      var k :| 0 <= k < |es| && es[k] == Entry(i, ps[i]);
    }
  }

  // ---------------------------------------------------------------- consequences

  lemma {:induction false} LargestOfSamePassing(ps: seq<real>, qs: seq<real>, k: nat)
    requires ps != [] && qs != [] && forall j :: 0 <= j <= k ==> (Passes(ps, j) <==> Passes(qs, j))
    ensures LargestPassing(ps, k) == LargestPassing(qs, k)
  {
    if k > 0 && !Passes(ps, k) { LargestOfSamePassing(ps, qs, k - 1); }
  }

  /** The decision on a p-value does not depend on the order of the candidates or on how ties are broken. */
  lemma OrderDoesNotMatter(ps: seq<real>, qs: seq<real>, i: nat, j: nat)
    requires multiset(ps) == multiset(qs) && i < |ps| && j < |qs| && ps[i] == qs[j]
    ensures Rejected(ps, i) <==> Rejected(qs, j)
  {
    assert |ps| == |multiset(ps)| == |qs|;
    forall k: nat ensures Passes(ps, k) <==> Passes(qs, k) {
      CountOfPermutation(ps, qs, Threshold(k, |ps|));
    }
    LargestOfSamePassing(ps, qs, |ps|);
  }

  lemma {:induction false} CountOfLower(ps: seq<real>, qs: seq<real>, t: real, u: real)
    requires |qs| == |ps| && t <= u && forall i :: 0 <= i < |ps| ==> qs[i] <= ps[i]
    ensures CountAtMost(ps, t) <= CountAtMost(qs, u)
  {
    if ps != [] { CountOfLower(ps[..|ps|-1], qs[..|qs|-1], t, u); }
  }

  /** Lowering p-values never takes back a rejection. */
  lemma LoweringKeepsRejections(ps: seq<real>, qs: seq<real>, i: nat)
    requires |qs| == |ps| && i < |ps| && (forall k :: 0 <= k < |ps| ==> qs[k] <= ps[k]) && Rejected(ps, i)
    ensures Rejected(qs, i)
  {
    var k := KStar(ps);
    CountOfLower(ps, qs, Threshold(k, |ps|), Threshold(k, |ps|));
    assert Passes(qs, k);
    assert KStar(qs) >= k;
    ThresholdGrows(k, KStar(qs), |ps|);
  }

  /** Exactly k* candidates are rejected. */
  lemma RejectionCount(ps: seq<real>)
    requires ps != []
    ensures KStar(ps) > 0 ==> CountAtMost(ps, Threshold(KStar(ps), |ps|)) == KStar(ps)
  {
    var k := KStar(ps);
    var c := CountAtMost(ps, Threshold(k, |ps|));
    CountAll(ps, Threshold(k, |ps|));
    if c > k {
      ThresholdGrows(k, c, |ps|);
      CountOfLower(ps, ps, Threshold(k, |ps|), Threshold(c, |ps|));
      assert Passes(ps, c);
    }
  }

  /** A candidate passes at rank `k`: its p-value, times 20 and the number of candidates, is at most `k`. */
  predicate PassesAt(ps: seq<real>, k: nat, i: nat)
    requires i < |ps|
  {
    ps[i] * 20.0 * |ps| as real <= k as real
  }

  function PassingAt(ps: seq<real>, k: nat): set<nat> {
    set i | 0 <= i < |ps| && PassesAt(ps, k, i)
  }

  /** The whole procedure in numbers: some rank that at least as many candidates pass is passed by this one. */
  lemma RejectedIff(ps: seq<real>, i: nat)
    requires i < |ps|
    ensures Rejected(ps, i) <==> exists k: nat :: 1 <= k <= |PassingAt(ps, k)| && PassesAt(ps, k, i)
  {
    hide KStar, Threshold, PassesAt;
    if Rejected(ps, i) {
      var k := KStar(ps);
      KStarPasses(ps);
      PassingIsCount(ps, k);
      ThresholdInNumbers(ps, k, i);
    }
    if k: nat :| 1 <= k <= |PassingAt(ps, k)| && PassesAt(ps, k, i) {
      PassingIsCount(ps, k);
      CountAll(ps, Threshold(k, |ps|));
      LargestIsLargest(ps, k);
      ThresholdGrows(k, KStar(ps), |ps|);
      ThresholdInNumbers(ps, k, i);
    }
  }

  lemma KStarPasses(ps: seq<real>)
    requires ps != []
    ensures Passes(ps, KStar(ps))
  {
  }

  lemma LargestIsLargest(ps: seq<real>, k: nat)
    requires ps != [] && k <= |ps| && Passes(ps, k)
    ensures KStar(ps) >= k
  {
  }

  lemma ThresholdInNumbers(ps: seq<real>, k: nat, i: nat)
    requires i < |ps|
    ensures PassesAt(ps, k, i) <==> ps[i] <= Threshold(k, |ps|)
  {
    var p, m := ps[i], |ps| as real;
    assert Threshold(k, |ps|) * 20.0 * m == k as real;
    assert (Threshold(k, |ps|) - p) * (20.0 * m) == k as real - p * 20.0 * m;
  }

  lemma PassingIsCount(ps: seq<real>, k: nat)
    requires ps != []
    ensures |PassingAt(ps, k)| == CountAtMost(ps, Threshold(k, |ps|))
  {
    hide Threshold, PassesAt;
    var t := Threshold(k, |ps|);
    forall i: nat | i < |ps| ensures PassesAt(ps, k, i) <==> ps[i] <= t { ThresholdInNumbers(ps, k, i); }
    assert PassingAt(ps, k) == IndicesAtMost(ps, t);
    CountIsCardinality(ps, t);
  }

  function IndicesAtMost(ps: seq<real>, t: real): set<nat> {
    set i | 0 <= i < |ps| && ps[i] <= t
  }

  lemma {:induction false} CountIsCardinality(ps: seq<real>, t: real)
    ensures |IndicesAtMost(ps, t)| == CountAtMost(ps, t)
  {
    if ps != [] {
      var n := |ps| - 1;
      CountIsCardinality(ps[..n], t);
      assert IndicesAtMost(ps, t) == IndicesAtMost(ps[..n], t) + (if ps[n] <= t then {n} else {});
    }
  }

  // ---------------------------------------------------------------- contribution shares and ranking

  datatype Segment = Segment(name: string, excess: real, lift: real, p: real)

  datatype Contribution = Contribution(segment: Segment, share: real, rejected: bool)

  function TotalExcess(cs: seq<Segment>): real {
    if cs == [] then 0.0 else TotalExcess(cs[..|cs|-1]) + cs[|cs|-1].excess
  }

  /** The share of one segment in percent, before rounding. */
  function Share(excess: real, total: real): real {
    if total > 0.0 then excess / total * 100.0 else 0.0
  }

  function PValues(cs: seq<Segment>): (ps: seq<real>)
    ensures |ps| == |cs| && forall i :: 0 <= i < |cs| ==> ps[i] == cs[i].p
  {
    seq(|cs|, i requires 0 <= i < |cs| => cs[i].p)
  }

  /** The larger pair of excess and lift comes first. */
  function Leads(): (Contribution, Contribution) -> bool {
    (a: Contribution, b: Contribution) =>
      a.segment.excess > b.segment.excess || (a.segment.excess == b.segment.excess && a.segment.lift >= b.segment.lift)
  }

  /** Every segment with its share and its decision, in input order. */
  ghost function Contributions(cs: seq<Segment>): (out: seq<Contribution>)
    ensures |out| == |cs|
    ensures forall i :: 0 <= i < |cs| ==>
      out[i] == Contribution(cs[i], Share(cs[i].excess, TotalExcess(cs)), Rejected(PValues(cs), i))
  {
    seq(|cs|, i requires 0 <= i < |cs| =>
      Contribution(cs[i], Share(cs[i].excess, TotalExcess(cs)), Rejected(PValues(cs), i)))
  }

  method RankSegments(cs: seq<Segment>) returns (top: seq<Contribution>)
    requires cs != []
    ensures SortedBy(top, Leads()) && multiset(top) == multiset(Contributions(cs))
  {
    hide KStar, Threshold;
    var flags := StepUp(PValues(cs));
    var total := 0.0;
    for i := 0 to |cs|
      invariant total == TotalExcess(cs[..i])
    {
      assert cs[..i+1][..i] == cs[..i];
      total := total + cs[i].excess;
    }
    assert cs[..|cs|] == cs;
    var all := [];
    for i := 0 to |cs|
      invariant |all| == i
      invariant forall k :: 0 <= k < i ==> all[k] == Contribution(cs[k], Share(cs[k].excess, total), flags[k])
    {
      all := all + [Contribution(cs[i], Share(cs[i].excess, total), flags[i])];
    }
    top := Sort(all, Leads());
    SortSorts(all, Leads());
    SortKeepsElements(all, Leads());
    assert all == Contributions(cs);
  }

  /** The ranked list, in numbers: the larger excess first, and the larger lift on ties. */
  lemma RankedByExcess(top: seq<Contribution>, i: nat, j: nat)
    requires SortedBy(top, Leads()) && i < j < |top|
    ensures var (a, b) := (top[i].segment, top[j].segment);
      b.excess <= a.excess && (b.excess == a.excess ==> b.lift <= a.lift)
  {
    assert Leads()(top[i], top[j]);
  }

  /** Every entry is one of the segments, with its percentage of the total excess. */
  lemma SharesInNumbers(cs: seq<Segment>, top: seq<Contribution>, c: Contribution)
    requires multiset(top) == multiset(Contributions(cs)) && c in top
    ensures c.segment in cs
    ensures if TotalExcess(cs) > 0.0 then c.share * TotalExcess(cs) == 100.0 * c.segment.excess else c.share == 0.0
  {
    hide TotalExcess, Rejected;
    assert c in multiset(Contributions(cs));
    var i :| 0 <= i < |cs| && Contributions(cs)[i] == c;
  }

  ghost function ShareSum(cs: seq<Segment>, total: real): real {
    if cs == [] then 0.0 else ShareSum(cs[..|cs|-1], total) + Share(cs[|cs|-1].excess, total)
  }

  lemma {:induction false} SharesAddUp(cs: seq<Segment>, total: real)
    requires total > 0.0
    ensures ShareSum(cs, total) == TotalExcess(cs) / total * 100.0
  {
    if cs != [] {
      SharesAddUp(cs[..|cs|-1], total);
      AddQuotients(TotalExcess(cs[..|cs|-1]), cs[|cs|-1].excess, total);
    }
  }

  lemma AddQuotients(a: real, b: real, c: real)
    requires c != 0.0
    ensures (a + b) / c == a / c + b / c
  {
  }

  /** With any excess at all the shares add up to 100 percent; without, every share is zero. */
  lemma SharesAreComplete(cs: seq<Segment>)
    ensures ShareSum(cs, TotalExcess(cs)) == if TotalExcess(cs) > 0.0 then 100.0 else 0.0
  {
    if TotalExcess(cs) > 0.0 {
      SharesAddUp(cs, TotalExcess(cs));
      assert TotalExcess(cs) / TotalExcess(cs) == 1.0;
    } else {
      NoShares(cs, TotalExcess(cs));
    }
  }

  lemma {:induction false} NoShares(cs: seq<Segment>, total: real)
    requires total <= 0.0
    ensures ShareSum(cs, total) == 0.0
  {
    if cs != [] { NoShares(cs[..|cs|-1], total); }
  }
}
