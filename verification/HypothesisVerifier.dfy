/** Checking hypotheses against a sealed evidence bundle: counting, ranking and the verdict. */
module HypothesisVerifier {
  import opened Wrappers
  import opened StableSort

  datatype Supersession = Active | Superseded | Revoked | Expired

  datatype Evidence = Evidence(id: string, tenant: string, status: Supersession)

  datatype Bundle = Bundle(tenant: string, items: seq<Evidence>)

  datatype Hypothesis = Hypothesis(id: string, likelihood: real, supporting: seq<string>, contradicting: seq<string>,
                                   unverified: seq<string>)

  datatype Verdict = Verified | Refuted | NeedMoreEvidence

  datatype Gap =
    | NoHypotheses
    | EmptyBundle
    | NoCitations(h: string)
    | Phantom(h: string, key: string)
    | CrossTenant(h: string, key: string)
    | NotActive(h: string, key: string, status: Supersession)
    | Unverified(h: string, claim: string)
    | Contradicted(h: string, key: string)

  datatype Verification = Verification(verdict: Verdict, ranked: seq<Hypothesis>, top: Option<string>, coverage: real,
                                       unsupported: nat, contradictions: nat, gaps: seq<Gap>)

  const MIN_COVERAGE: real := 0.70
  const MIN_LIKELIHOOD: real := 0.80

  type Index = map<string, Evidence>

  // ---------------------------------------------------------------- what a hypothesis is worth

  /** The bundle by identifier; the last record of an identifier counts. */
  function IndexOf(items: seq<Evidence>): Index {
    if items == [] then map[] else IndexOf(items[..|items|-1])[items[|items|-1].id := items[|items|-1]]
  }

  predicate Supports(ix: Index, tenant: string, key: string) {
    key in ix && ix[key].tenant == tenant && ix[key].status == Active
  }

  ghost function CountSupported(ix: Index, tenant: string, keys: seq<string>): (n: nat)
    ensures n <= |keys|
  {
    if keys == [] then 0 else
    CountSupported(ix, tenant, keys[..|keys|-1]) + if Supports(ix, tenant, keys[|keys|-1]) then 1 else 0
  }

  ghost function CountPresent(ix: Index, keys: seq<string>): nat {
    if keys == [] then 0 else CountPresent(ix, keys[..|keys|-1]) + if keys[|keys|-1] in ix then 1 else 0
  }

  ghost function Unsupported(ix: Index, tenant: string, h: Hypothesis): nat {
    (if h.supporting == [] then 1 else |h.supporting| - CountSupported(ix, tenant, h.supporting)) + |h.unverified|
  }

  function Ratio(valid: nat, total: nat): real {
    if total == 0 then 0.0 else
    var q := valid as real / total as real;
    var capped := if q < 1.0 then q else 1.0;
    if capped > 0.0 then capped else 0.0
  }

  ghost function Coverage(ix: Index, tenant: string, h: Hypothesis): real {
    Ratio(CountSupported(ix, tenant, h.supporting), |h.supporting| + |h.unverified|)
  }

  ghost predicate IsContradicted(ix: Index, h: Hypothesis) {
    exists key :: key in h.contradicting && key in ix
  }

  /** A hypothesis that nothing speaks against, fully backed by citations, and likely enough. */
  ghost predicate Grounded(ix: Index, tenant: string, h: Hypothesis) {
    && !IsContradicted(ix, h)
    && h.supporting != [] && (forall key :: key in h.supporting ==> Supports(ix, tenant, key))
    && h.unverified == []
    && h.likelihood >= MIN_LIKELIHOOD
  }

  // ---------------------------------------------------------------- evaluations and their order

  datatype Evaluation = Evaluation(h: Hypothesis, coverage: real, unsupported: nat, contradictions: nat)

  ghost function Evaluate(ix: Index, tenant: string, h: Hypothesis): Evaluation {
    Evaluation(h, Coverage(ix, tenant, h), Unsupported(ix, tenant, h), CountPresent(ix, h.contradicting))
  }

  /** The ranking key is compared component by component, larger first. */
  predicate RanksBefore(a: Evaluation, b: Evaluation) {
    if (a.contradictions > 0) != (b.contradictions > 0) then a.contradictions == 0
    else if a.coverage != b.coverage then a.coverage > b.coverage
    else if a.unsupported != b.unsupported then a.unsupported < b.unsupported
    else a.h.likelihood >= b.h.likelihood
  }

  function Ranking(): (Evaluation, Evaluation) -> bool {
    (a, b) => RanksBefore(a, b)
  }

  // ---------------------------------------------------------------- lemmas about the counts

  lemma {:induction false} AllSupported(ix: Index, tenant: string, keys: seq<string>)
    ensures CountSupported(ix, tenant, keys) == |keys| <==> forall key :: key in keys ==> Supports(ix, tenant, key)
  {
    if keys != [] {
      var init, last := keys[..|keys|-1], keys[|keys|-1];
      AllSupported(ix, tenant, init);
      assert keys == init + [last];
      assert last in keys;
    }
  }

  lemma {:induction false} SomePresent(ix: Index, keys: seq<string>)
    ensures CountPresent(ix, keys) > 0 <==> exists key :: key in keys && key in ix
  {
    if keys != [] {
      var init, last := keys[..|keys|-1], keys[|keys|-1];
      SomePresent(ix, init);
      assert keys == init + [last];
      if last in ix { assert last in keys; }
    }
  }

  lemma RatioBounds(valid: nat, total: nat)
    requires valid <= total
    ensures 0.0 <= Ratio(valid, total) <= 1.0
    ensures Ratio(valid, total) == 1.0 <==> total > 0 && valid == total
    ensures Ratio(valid, total) == 0.0 <==> valid == 0
  {
    if total > 0 {
      var q := valid as real / total as real;
      assert q * total as real == valid as real;
      if valid == total { assert q == 1.0; }
    }
  }

  /** Full support, seen through the evaluation. */
  lemma GroundedEvaluation(ix: Index, tenant: string, h: Hypothesis)
    ensures var e := Evaluate(ix, tenant, h);
      Grounded(ix, tenant, h) <==>
        e.contradictions == 0 && e.coverage == 1.0 && e.unsupported == 0 && h.likelihood >= MIN_LIKELIHOOD
    ensures 0.0 <= Evaluate(ix, tenant, h).coverage <= 1.0
    ensures Evaluate(ix, tenant, h).contradictions > 0 <==> IsContradicted(ix, h)
    ensures Evaluate(ix, tenant, h).unsupported == 0 ==> Evaluate(ix, tenant, h).coverage == 1.0
  {
    hide Ratio;
    AllSupported(ix, tenant, h.supporting);
    SomePresent(ix, h.contradicting);
    RatioBounds(CountSupported(ix, tenant, h.supporting), |h.supporting| + |h.unverified|);
  }

  lemma RankingIsTotal()
    ensures TotalPreorder(Ranking())
  {
  }

  // ---------------------------------------------------------------- the loops of the source

  method CheckCitations(ix: Index, tenant: string, h: Hypothesis) returns (valid: nat, unsupported: nat, gaps: seq<Gap>)
    ensures valid == CountSupported(ix, tenant, h.supporting)
    ensures unsupported == if h.supporting == [] then 1 else |h.supporting| - valid
    ensures |gaps| == unsupported
  {
    valid, unsupported, gaps := 0, 0, [];
    if h.supporting == [] {
      return 0, 1, [NoCitations(h.id)];
    }
    for i := 0 to |h.supporting|
      invariant valid == CountSupported(ix, tenant, h.supporting[..i])
      invariant unsupported == i - valid && |gaps| == unsupported
    {
      var key := h.supporting[i];
      assert h.supporting[..i+1][..i] == h.supporting[..i];
      if key !in ix {
        unsupported, gaps := unsupported + 1, gaps + [Phantom(h.id, key)];
      } else if ix[key].tenant != tenant {
        unsupported, gaps := unsupported + 1, gaps + [CrossTenant(h.id, key)];
      } else if ix[key].status != Active {
        unsupported, gaps := unsupported + 1, gaps + [NotActive(h.id, key, ix[key].status)];
      } else {
        valid := valid + 1;
      }
    }
    assert h.supporting[..|h.supporting|] == h.supporting;
  }

  method CheckContradictions(ix: Index, h: Hypothesis) returns (found: nat, gaps: seq<Gap>)
    ensures found == CountPresent(ix, h.contradicting) && |gaps| == found
  {
    found, gaps := 0, [];
    for i := 0 to |h.contradicting|
      invariant found == CountPresent(ix, h.contradicting[..i]) && |gaps| == found
    {
      assert h.contradicting[..i+1][..i] == h.contradicting[..i];
      if h.contradicting[i] in ix {
        found, gaps := found + 1, gaps + [Contradicted(h.id, h.contradicting[i])];
      }
    }
    assert h.contradicting[..|h.contradicting|] == h.contradicting;
  }

  method EvaluateOne(ix: Index, tenant: string, h: Hypothesis) returns (e: Evaluation, gaps: seq<Gap>)
    ensures e == Evaluate(ix, tenant, h) && |gaps| == e.unsupported + e.contradictions
  {
    var valid, bad, citationGaps := CheckCitations(ix, tenant, h);
    var claimGaps := seq(|h.unverified|, i requires 0 <= i < |h.unverified| => Unverified(h.id, h.unverified[i]));
    var found, contraGaps := CheckContradictions(ix, h);
    gaps := citationGaps + claimGaps + contraGaps;
    e := Evaluation(h, Ratio(valid, |h.supporting| + |h.unverified|), bad + |h.unverified|, found);
  }

  ghost function TotalUnsupported(es: seq<Evaluation>): nat {
    if es == [] then 0 else TotalUnsupported(es[..|es|-1]) + es[|es|-1].unsupported
  }

  ghost function TotalContradictions(es: seq<Evaluation>): nat {
    if es == [] then 0 else TotalContradictions(es[..|es|-1]) + es[|es|-1].contradictions
  }

  ghost function Evaluations(ix: Index, tenant: string, hs: seq<Hypothesis>): (es: seq<Evaluation>)
    ensures |es| == |hs| && forall i :: 0 <= i < |hs| ==> es[i] == Evaluate(ix, tenant, hs[i])
  {
    seq(|hs|, i requires 0 <= i < |hs| => Evaluate(ix, tenant, hs[i]))
  }

  method EvaluateAll(ix: Index, tenant: string, hs: seq<Hypothesis>)
    returns (es: seq<Evaluation>, unsupported: nat, contradictions: nat, gaps: seq<Gap>)
    ensures es == Evaluations(ix, tenant, hs)
    ensures unsupported == TotalUnsupported(es) && contradictions == TotalContradictions(es)
    ensures |gaps| == unsupported + contradictions
  {
    hide Evaluate;
    es, unsupported, contradictions, gaps := [], 0, 0, [];
    for i := 0 to |hs|
      invariant |es| == i && forall k :: 0 <= k < i ==> es[k] == Evaluate(ix, tenant, hs[k])
      invariant unsupported == TotalUnsupported(es) && contradictions == TotalContradictions(es)
      invariant |gaps| == unsupported + contradictions
    {
      var e, more := EvaluateOne(ix, tenant, hs[i]);
      assert (es + [e])[..|es|] == es;
      es := es + [e];
      unsupported := unsupported + e.unsupported;
      contradictions := contradictions + e.contradictions;
      gaps := gaps + more;
    }
  }

  /** The final branch of the source, on the ranked evaluations. */
  function Decide(es: seq<Evaluation>): Verdict
    requires es != []
  {
    var top := es[0];
    if top.contradictions > 0
      && !(exists i :: 0 <= i < |es| && es[i].contradictions == 0 && es[i].coverage >= MIN_COVERAGE) then
      Refuted
    else if top.unsupported > 0 || top.coverage < MIN_COVERAGE || top.h.likelihood < MIN_LIKELIHOOD
      || top.h.supporting == [] then
      NeedMoreEvidence
    else Verified
  }

  /** The verdict in terms of the hypotheses alone: ranking and branching leave nothing else behind. */
  lemma DecisionMeaning(ix: Index, tenant: string, hs: seq<Hypothesis>, es: seq<Evaluation>)
    requires hs != [] && SortedBy(es, Ranking()) && multiset(es) == multiset(Evaluations(ix, tenant, hs))
    ensures es != []
    ensures Decide(es) == Verified <==> exists h :: h in hs && Grounded(ix, tenant, h)
    ensures Decide(es) == Refuted <==> forall h :: h in hs ==> IsContradicted(ix, h)
  {
    hide Evaluate, Grounded, IsContradicted;
    assert |multiset(es)| == |multiset(Evaluations(ix, tenant, hs))|;
    RankedMembers(ix, tenant, hs, es);
    var top := es[0];
    GroundedEvaluation(ix, tenant, top.h);
    if h :| h in hs && Grounded(ix, tenant, h) {
      GroundedEvaluation(ix, tenant, h);
      var k :| 0 <= k < |es| && es[k] == Evaluate(ix, tenant, h);
      EvaluateKeepsHypothesis(ix, tenant, h);
      assert k > 0 ==> Ranking()(es[0], es[k]);
      assert Decide(es) == Verified by { EvaluateTop(ix, tenant, top); }
    }
    if Decide(es) == Verified {
      EvaluateTop(ix, tenant, top);
      assert top.h in hs && Grounded(ix, tenant, top.h);
    }
    if top.contradictions > 0 {
      forall h | h in hs ensures IsContradicted(ix, h) {
        GroundedEvaluation(ix, tenant, h);
        var k :| 0 <= k < |es| && es[k] == Evaluate(ix, tenant, h);
        assert k > 0 ==> Ranking()(es[0], es[k]);
      }
      forall i | 0 <= i < |es| ensures es[i].contradictions > 0 {
        assert i > 0 ==> Ranking()(es[0], es[i]);
      }
    } else {
      assert !IsContradicted(ix, top.h);
    }
  }

  lemma EvaluateKeepsHypothesis(ix: Index, tenant: string, h: Hypothesis)
    ensures Evaluate(ix, tenant, h).h == h
  {
  }

  /** With no unsupported claim, the other thresholds on coverage and citations are met as well. */
  lemma EvaluateTop(ix: Index, tenant: string, e: Evaluation)
    requires e == Evaluate(ix, tenant, e.h)
    ensures e.unsupported == 0 ==> e.coverage == 1.0 && e.h.supporting != []
  {
    GroundedEvaluation(ix, tenant, e.h);
  }

  lemma RankedMembers(ix: Index, tenant: string, hs: seq<Hypothesis>, es: seq<Evaluation>)
    requires multiset(es) == multiset(Evaluations(ix, tenant, hs))
    ensures forall e :: e in es ==> e.h in hs && e == Evaluate(ix, tenant, e.h)
    ensures forall h :: h in hs ==> Evaluate(ix, tenant, h) in es
  {
    var all := Evaluations(ix, tenant, hs);
    forall e | e in es ensures e.h in hs && e == Evaluate(ix, tenant, e.h) {
      assert e in multiset(all);
      var i :| 0 <= i < |hs| && all[i] == e;
    }
    forall h | h in hs ensures Evaluate(ix, tenant, h) in es {
      var i :| 0 <= i < |hs| && hs[i] == h;
      assert all[i] in multiset(es);
    }
  }

  ghost function EmptyBundleUnsupported(hs: seq<Hypothesis>): nat {
    if hs == [] then 0 else
    var h := hs[|hs|-1];
    EmptyBundleUnsupported(hs[..|hs|-1]) + (if |h.supporting| > 1 then |h.supporting| else 1) + |h.unverified|
  }

  /** Exactly the identifiers of the records are there, each with the latest record that carries it. */
  ghost predicate HoldsLatest(ix: Index, items: seq<Evidence>) {
    && (forall key :: key in ix <==> exists i :: 0 <= i < |items| && items[i].id == key)
    && (forall i :: 0 <= i < |items| && (forall k :: i < k < |items| ==> items[k].id != items[i].id) ==>
      items[i].id in ix && ix[items[i].id] == items[i])
  }

  lemma OneMoreRecord(ix: Index, items: seq<Evidence>, e: Evidence)
    requires HoldsLatest(ix, items)
    ensures HoldsLatest(ix[e.id := e], items + [e])
  {
    var all, new' := items + [e], ix[e.id := e];
    forall key ensures key in new' <==> exists i :: 0 <= i < |all| && all[i].id == key {
      if key in ix {
        var i :| 0 <= i < |items| && items[i].id == key;
        assert all[i].id == key;
      }
      assert all[|items|].id == e.id;
    }
    forall i | 0 <= i < |all| && (forall k :: i < k < |all| ==> all[k].id != all[i].id)
      ensures all[i].id in new' && new'[all[i].id] == all[i]
    {
      if i < |items| {
        assert all[i] == items[i] && all[|items|].id == e.id;
        forall k | i < k < |items| ensures items[k].id != items[i].id { assert all[k] == items[k]; }
      }
    }
  }

  lemma {:induction false} LatestRecord(items: seq<Evidence>, key: string) returns (i: nat)
    requires exists k :: 0 <= k < |items| && items[k].id == key
    ensures i < |items| && items[i].id == key && forall k :: i < k < |items| ==> items[k].id != key
  {
    var last := |items| - 1;
    if items[last].id == key {
      i := last;
    } else {
      var k :| 0 <= k < |items| && items[k].id == key;
      assert items[..last][k].id == key;
      i := LatestRecord(items[..last], key);
      assert forall k :: i < k < last ==> items[k] == items[..last][k];
    }
  }

  /** The index is the one table in which the later of two records with one identifier counts. */
  lemma {:induction false} LaterRecordCounts(ix: Index, items: seq<Evidence>)
    ensures HoldsLatest(ix, items) <==> ix == IndexOf(items)
  {
    IndexHoldsLatest(items);
    if HoldsLatest(ix, items) {
      assert ix.Keys == IndexOf(items).Keys;
      forall key | key in ix ensures ix[key] == IndexOf(items)[key] {
        var i := LatestRecord(items, key);
        assert items[i].id == key;
      }
    }
  }

  lemma NoRecordYet()
    ensures HoldsLatest(map[], [])
  {
  }

  lemma {:induction false} IndexHoldsLatest(items: seq<Evidence>)
    ensures HoldsLatest(IndexOf(items), items)
  {
    hide HoldsLatest;
    if items == [] {
      NoRecordYet();
    } else {
      var init, e := items[..|items|-1], items[|items|-1];
      assert IndexOf(items) == IndexOf(init)[e.id := e];
      hide IndexOf;
      IndexHoldsLatest(init);
      OneMoreRecord(IndexOf(init), init, e);
      assert items == init + [e];
    }
  }

  method BuildIndex(items: seq<Evidence>) returns (ix: Index)
    ensures ix == IndexOf(items)
  {
    ix := map[];
    for i := 0 to |items|
      invariant ix == IndexOf(items[..i])
    {
      assert items[..i+1][..i] == items[..i];
      ix := ix[items[i].id := items[i]];
    }
    assert items[..|items|] == items;
  }

  /** The promise for a bundle with evidence: verdict, ranking and counts, each in terms of the inputs. */
  ghost predicate Faithful(ix: Index, tenant: string, hs: seq<Hypothesis>, v: Verification) {
    && (v.verdict == Verified <==> exists h :: h in hs && Grounded(ix, tenant, h))
    && (v.verdict == Refuted <==> forall h :: h in hs ==> IsContradicted(ix, h))
    && multiset(v.ranked) == multiset(hs) && v.ranked != []
    && v.top == Some(v.ranked[0].id) && v.coverage == Coverage(ix, tenant, v.ranked[0])
    && (forall i, j :: 0 <= i < j < |v.ranked| ==>
      RanksBefore(Evaluate(ix, tenant, v.ranked[i]), Evaluate(ix, tenant, v.ranked[j])))
    && v.unsupported == TotalUnsupported(Evaluations(ix, tenant, hs))
    && v.contradictions == TotalContradictions(Evaluations(ix, tenant, hs))
    && |v.gaps| == v.unsupported + v.contradictions
  }

  method VerifyHypotheses(hs: seq<Hypothesis>, bundle: Bundle) returns (v: Verification)
    ensures hs == [] || bundle.items == [] ==>
      v.verdict == NeedMoreEvidence && v.coverage == 0.0 && v.contradictions == 0
    ensures hs == [] ==> v.ranked == [] && v.top == None && v.unsupported == 0 && v.gaps == [NoHypotheses]
    ensures hs != [] && bundle.items == [] ==>
      v.ranked == hs && v.top == Some(hs[0].id) && v.unsupported == EmptyBundleUnsupported(hs)
        && v.gaps == [EmptyBundle]
    ensures hs != [] && bundle.items != [] ==> Faithful(IndexOf(bundle.items), bundle.tenant, hs, v)
  {
    if hs == [] {
      return Verification(NeedMoreEvidence, [], None, 0.0, 0, 0, [NoHypotheses]);
    }
    var ix := BuildIndex(bundle.items);
    assert bundle.items != [] ==> bundle.items[|bundle.items|-1].id in ix;
    if ix == map[] {
      var total := 0;
      for i := 0 to |hs|
        invariant total == EmptyBundleUnsupported(hs[..i])
      {
        assert hs[..i+1][..i] == hs[..i];
        total := total + (if |hs[i].supporting| > 1 then |hs[i].supporting| else 1) + |hs[i].unverified|;
      }
      assert hs[..|hs|] == hs;
      return Verification(NeedMoreEvidence, hs, Some(hs[0].id), 0.0, total, 0, [EmptyBundle]);
    }
    v := RankAndDecide(ix, bundle.tenant, hs);
  }

  method RankAndDecide(ix: Index, tenant: string, hs: seq<Hypothesis>) returns (v: Verification)
    requires hs != []
    ensures Faithful(ix, tenant, hs, v)
  {
    hide *;
    var es, unsupported, contradictions, gaps := EvaluateAll(ix, tenant, hs);
    var ranked := Sort(es, Ranking());
    var top := ranked[0];
    v := Verification(Decide(ranked), HypothesesOf(ranked), Some(top.h.id), top.coverage, unsupported, contradictions,
                      gaps);
    RankedIsFaithful(ix, tenant, hs, ranked, v);
  }

  lemma RankedIsFaithful(ix: Index, tenant: string, hs: seq<Hypothesis>, ranked: seq<Evaluation>, v: Verification)
    requires hs != [] && ranked == Sort(Evaluations(ix, tenant, hs), Ranking())
    requires v.verdict == Decide(ranked) && v.ranked == HypothesesOf(ranked)
    requires v.top == Some(ranked[0].h.id) && v.coverage == ranked[0].coverage
    requires v.unsupported == TotalUnsupported(Evaluations(ix, tenant, hs))
    requires v.contradictions == TotalContradictions(Evaluations(ix, tenant, hs))
    requires |v.gaps| == v.unsupported + v.contradictions
    ensures Faithful(ix, tenant, hs, v)
  {
    hide Grounded, IsContradicted, Decide, RanksBefore, TotalUnsupported, TotalContradictions, Sort, Coverage;
    var es := Evaluations(ix, tenant, hs);
    RankingIsTotal();
    SortSorts(es, Ranking());
    SortKeepsElements(es, Ranking());
    DecisionMeaning(ix, tenant, hs, ranked);
    HypothesesOfPermutation(ranked, es);
    assert HypothesesOf(es) == hs;
    RankedMembers(ix, tenant, hs, ranked);
    assert ranked[0] in ranked;
    RankedInOrder(ix, tenant, ranked);
  }

  lemma RankedInOrder(ix: Index, tenant: string, ranked: seq<Evaluation>)
    requires SortedBy(ranked, Ranking()) && forall e :: e in ranked ==> e == Evaluate(ix, tenant, e.h)
    ensures var hs := HypothesesOf(ranked); forall i, j :: 0 <= i < j < |hs| ==>
      RanksBefore(Evaluate(ix, tenant, hs[i]), Evaluate(ix, tenant, hs[j]))
  {
    hide RanksBefore, Evaluate;
    var hs := HypothesesOf(ranked);
    forall i, j | 0 <= i < j < |hs| ensures RanksBefore(Evaluate(ix, tenant, hs[i]), Evaluate(ix, tenant, hs[j])) {
      assert Ranking()(ranked[i], ranked[j]);
      assert ranked[i] in ranked && ranked[j] in ranked;
    }
  }

  function HypothesesOf(es: seq<Evaluation>): (hs: seq<Hypothesis>)
    ensures |hs| == |es| && forall i :: 0 <= i < |es| ==> hs[i] == es[i].h
  {
    seq(|es|, i requires 0 <= i < |es| => es[i].h)
  }

  lemma {:induction false} HypothesesOfPermutation(es: seq<Evaluation>, fs: seq<Evaluation>)
    requires multiset(es) == multiset(fs)
    ensures multiset(HypothesesOf(es)) == multiset(HypothesesOf(fs))
  {
    if es == [] {
      assert |multiset(fs)| == |fs| == 0;
    } else {
      var a, b := TakeOut(es, fs);
      var n, x := |es| - 1, es[|es|-1];
      HypothesesOfPermutation(es[..n], a + b);
      assert es == es[..n] + [x];
      HypothesesConcat(es[..n], [x]);
      HypothesesConcat(a, b);
      HypothesesConcat(a + [x], b);
      HypothesesConcat(a, [x]);
    }
  }

  lemma HypothesesConcat(es: seq<Evaluation>, fs: seq<Evaluation>)
    ensures multiset(HypothesesOf(es + fs)) == multiset(HypothesesOf(es)) + multiset(HypothesesOf(fs))
  {
    assert HypothesesOf(es + fs) == HypothesesOf(es) + HypothesesOf(fs);
  }
}
