/** The verdict and the ranking of hypotheses read off the evidence bundle itself, in numbers and without its index. */
module VerdictMeaning {
  import opened HypothesisVerifier

  /** The record at `i` is the latest with its identifier. */
  predicate IsLatest(items: seq<Evidence>, i: nat, key: string) {
    i < |items| && items[i].id == key && forall k :: i < k < |items| ==> items[k].id != key
  }

  /** A citation counts when the latest record with its identifier is the tenant's own and still active. */
  predicate Backs(items: seq<Evidence>, tenant: string, key: string) {
    exists i :: 0 <= i < |items| && IsLatest(items, i, key) && items[i].tenant == tenant && items[i].status == Active
  }

  predicate Occurs(items: seq<Evidence>, key: string) {
    exists i :: 0 <= i < |items| && items[i].id == key
  }

  lemma SupportsIffBacks(items: seq<Evidence>, tenant: string, key: string)
    ensures Supports(IndexOf(items), tenant, key) <==> Backs(items, tenant, key)
    ensures key in IndexOf(items) <==> Occurs(items, key)
  {
    IndexHoldsLatest(items);
    hide IndexOf;
    if Occurs(items, key) {
      var i := LatestRecord(items, key);
      assert IsLatest(items, i, key);
    }
  }

  /** Citations that all count, nothing left unverified, nothing against it in the bundle, and likely enough. */
  predicate Convincing(bundle: Bundle, h: Hypothesis) {
    && h.supporting != [] && (forall key :: key in h.supporting ==> Backs(bundle.items, bundle.tenant, key))
    && h.unverified == [] && (forall key :: key in h.contradicting ==> !Occurs(bundle.items, key))
    && h.likelihood >= 0.80
  }

  /** VERIFIED means that some hypothesis is convincing, REFUTED that the bundle holds something against each. */
  lemma VerdictInPlainTerms(hs: seq<Hypothesis>, bundle: Bundle, v: Verification)
    requires Faithful(IndexOf(bundle.items), bundle.tenant, hs, v)
    ensures v.verdict == Verified <==> exists h :: h in hs && Convincing(bundle, h)
    ensures v.verdict == Refuted <==>
      forall h :: h in hs ==> exists key :: key in h.contradicting && Occurs(bundle.items, key)
  {
    forall key
      ensures Supports(IndexOf(bundle.items), bundle.tenant, key) <==> Backs(bundle.items, bundle.tenant, key)
      ensures key in IndexOf(bundle.items) <==> Occurs(bundle.items, key)
    {
      SupportsIffBacks(bundle.items, bundle.tenant, key);
    }
    hide IndexOf, Supports, Backs, Occurs;
    if v.verdict == Verified {
      var h :| h in hs && Grounded(IndexOf(bundle.items), bundle.tenant, h);
    }
  }

  // ---------------------------------------------------------------- the numbers behind the ranking

  function Backed(items: seq<Evidence>, tenant: string, keys: seq<string>): set<nat> {
    set i | 0 <= i < |keys| && Backs(items, tenant, keys[i])
  }

  function Found(items: seq<Evidence>, keys: seq<string>): set<nat> {
    set i | 0 <= i < |keys| && Occurs(items, keys[i])
  }

  lemma {:induction false} SupportedIsCardinality(items: seq<Evidence>, tenant: string, keys: seq<string>)
    ensures CountSupported(IndexOf(items), tenant, keys) == |Backed(items, tenant, keys)|
  {
    hide Supports, Backs, IndexOf;
    if keys != [] {
      var n := |keys| - 1;
      SupportedIsCardinality(items, tenant, keys[..n]);
      SupportsIffBacks(items, tenant, keys[n]);
      assert Backed(items, tenant, keys)
        == Backed(items, tenant, keys[..n]) + (if Backs(items, tenant, keys[n]) then {n} else {});
    }
  }

  lemma {:induction false} PresentIsCardinality(items: seq<Evidence>, keys: seq<string>)
    ensures CountPresent(IndexOf(items), keys) == |Found(items, keys)|
  {
    hide Occurs, IndexOf;
    if keys != [] {
      var n := |keys| - 1;
      PresentIsCardinality(items, keys[..n]);
      SupportsIffBacks(items, "", keys[n]);
      assert Found(items, keys) == Found(items, keys[..n]) + (if Occurs(items, keys[n]) then {n} else {});
    }
  }

  /**
   * Coverage is the share of counting citations among all citations and unverified claims; unsupported are the other
   * citations, or one for having none, and the unverified claims.
   */
  lemma EvaluationInNumbers(items: seq<Evidence>, tenant: string, h: Hypothesis)
    ensures var e := Evaluate(IndexOf(items), tenant, h);
      var backed, claims := |Backed(items, tenant, h.supporting)|, |h.supporting| + |h.unverified|;
      && e.coverage * claims as real == backed as real && (claims == 0 ==> e.coverage == 0.0)
      && (h.supporting != [] ==> e.unsupported == claims - backed)
      && (h.supporting == [] ==> e.unsupported == 1 + |h.unverified|)
      && e.contradictions == |Found(items, h.contradicting)|
  {
    hide IndexOf, Backs, Occurs, Supports;
    SupportedIsCardinality(items, tenant, h.supporting);
    PresentIsCardinality(items, h.contradicting);
    RatioTimes(|Backed(items, tenant, h.supporting)|, |h.supporting| + |h.unverified|);
    hide Ratio;
  }

  lemma RatioTimes(valid: nat, total: nat)
    requires valid <= total
    ensures Ratio(valid, total) * total as real == valid as real && (total == 0 ==> Ratio(valid, total) == 0.0)
  {
    if total > 0 {
      var q := valid as real / total as real;
      assert q * total as real == valid as real;
    }
  }

  /** The four criteria of the ranking, one after the other. */
  predicate Outranks(a: Evaluation, b: Evaluation) {
    && (a.contradictions > 0 ==> b.contradictions > 0)
    && ((a.contradictions > 0 <==> b.contradictions > 0) ==>
          && b.coverage <= a.coverage
          && (a.coverage == b.coverage ==> a.unsupported <= b.unsupported)
          && (a.coverage == b.coverage && a.unsupported == b.unsupported ==> b.h.likelihood <= a.h.likelihood))
  }

  /** Of two ranked hypotheses the first is at least as good by these criteria. */
  lemma RankedInNumbers(hs: seq<Hypothesis>, bundle: Bundle, v: Verification, i: nat, j: nat)
    requires Faithful(IndexOf(bundle.items), bundle.tenant, hs, v) && i < j < |v.ranked|
    ensures Outranks(Evaluate(IndexOf(bundle.items), bundle.tenant, v.ranked[i]),
                     Evaluate(IndexOf(bundle.items), bundle.tenant, v.ranked[j]))
  {
    hide Evaluate, IndexOf;
    var ix := IndexOf(bundle.items);
    assert RanksBefore(Evaluate(ix, bundle.tenant, v.ranked[i]), Evaluate(ix, bundle.tenant, v.ranked[j]));
  }

  /** What is held against the hypotheses altogether, and what they claim without support. */
  function AllFound(items: seq<Evidence>, hs: seq<Hypothesis>): nat {
    if hs == [] then 0 else AllFound(items, hs[..|hs|-1]) + |Found(items, hs[|hs|-1].contradicting)|
  }

  function AllUnbacked(items: seq<Evidence>, tenant: string, hs: seq<Hypothesis>): int {
    if hs == [] then 0
    else
      var h := hs[|hs|-1];
      AllUnbacked(items, tenant, hs[..|hs|-1]) + |h.unverified|
      + (if h.supporting == [] then 1 else |h.supporting| - |Backed(items, tenant, h.supporting)|)
  }

  lemma {:induction false} TotalsInNumbers(items: seq<Evidence>, tenant: string, hs: seq<Hypothesis>)
    ensures var es := Evaluations(IndexOf(items), tenant, hs);
      TotalContradictions(es) == AllFound(items, hs) && TotalUnsupported(es) == AllUnbacked(items, tenant, hs)
  {
    hide Evaluate, IndexOf, Backed, Found;
    if hs != [] {
      var n := |hs| - 1;
      var init, last := hs[..n], hs[n];
      TotalsInNumbers(items, tenant, init);
      EvaluationInNumbers(items, tenant, last);
      var es, e := Evaluations(IndexOf(items), tenant, init), Evaluate(IndexOf(items), tenant, last);
      assert Evaluations(IndexOf(items), tenant, hs) == es + [e];
      LastCounts(es, e);
      hide Evaluations, TotalContradictions, TotalUnsupported;
    }
  }

  lemma LastCounts(es: seq<Evaluation>, e: Evaluation)
    ensures TotalContradictions(es + [e]) == TotalContradictions(es) + e.contradictions
    ensures TotalUnsupported(es + [e]) == TotalUnsupported(es) + e.unsupported
  {
    assert (es + [e])[..|es|] == es;
  }

  /** The count for an empty bundle is what evaluating every hypothesis against it would have given. */
  lemma {:induction false} EmptyBundleCounts(tenant: string, hs: seq<Hypothesis>)
    ensures EmptyBundleUnsupported(hs) == TotalUnsupported(Evaluations(map[], tenant, hs))
  {
    if hs != [] {
      var n := |hs| - 1;
      EmptyBundleCounts(tenant, hs[..n]);
      NothingSupports(tenant, hs[n].supporting);
      assert Evaluations(map[], tenant, hs)[..n] == Evaluations(map[], tenant, hs[..n]);
    }
  }

  lemma {:induction false} NothingSupports(tenant: string, keys: seq<string>)
    ensures CountSupported(map[], tenant, keys) == 0
  {
    if keys != [] { NothingSupports(tenant, keys[..|keys|-1]); }
  }
}
