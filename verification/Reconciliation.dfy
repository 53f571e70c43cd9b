/** Reconciling the stored anomalies of a window after late data has arrived. */
module Reconciliation {
  import opened Sequences
  import opened Wrappers
  import opened AnomalyLifecycle

  datatype QueryRequest = QueryRequest(metric: string, version: string, start: int, end: int,
                                       scope: map<string, string>, asOf: int)

  /** The metric gateway fails, raises, or answers with a series whose first value counts, if there is one. */
  datatype Answer = Failed | Raised | Series(first: Option<real>)

  type Query = QueryRequest -> Answer

  const REASON := "SUPERSEDED_BY_RECOMPUTATION"

  function SystemActor(tenant: string): Principal {
    Principal("usr_sys_reconciliation_worker", tenant, true)
  }

  datatype Window = Window(tenant: string, metric: string, start: int, end: int, asOf: int, actor: Principal)

  // ---------------------------------------------------------------- one anomaly

  predicate Overlaps(s: int, e: int, ws: int, we: int) {
    (if s >= ws then s else ws) <= (if e <= we then e else we)
  }

  predicate Candidate(a: Anomaly, w: Window) {
    a.tenant == w.tenant && a.metric == w.metric && a.state != Suppressed
      && Overlaps(a.windowStart, a.windowEnd, w.start, w.end)
  }

  function RequestFor(a: Anomaly, asOf: int): QueryRequest {
    QueryRequest(a.metric, a.metricVersion, a.windowStart, a.windowEnd, a.scope, asOf)
  }

  /** A request must name a metric and a version, and its window must not end before it starts. */
  predicate Buildable(r: QueryRequest) {
    !Blank(r.metric) && !Blank(r.version) && r.start <= r.end
  }

  /** What comes of asking for a recomputation; building the request may already raise. */
  function Asked(a: Anomaly, asOf: int, q: Query): Answer {
    if Buildable(RequestFor(a, asOf)) then q(RequestFor(a, asOf)) else Raised
  }

  function Recalculated(answer: Answer): real
    requires answer.Series?
  {
    match answer.first case Some(v) => v case None => 0.0
  }

  predicate StillAnomalous(v: real, lower: real, upper: real) {
    v > upper || (lower > 0.0 && v < lower)
  }

  predicate Supersedable(s: AnomalyState) {
    s.Detected? || s.Validated? || s.Localized? || s.Acknowledged? || s.Reopened?
  }

  /** What the recomputation does to one candidate; what raises leaves it marked. */
  function Recompute(a: Anomaly, w: Window, q: Query): Anomaly {
    var marked := a.(freshness := Recalculating);
    var answer := Asked(a, w.asOf, q);
    if answer.Raised? then marked
    else if answer.Failed? then a.(freshness := Degraded)
    else if StillAnomalous(Recalculated(answer), a.lower, a.upper) then
      a.(actual := Recalculated(answer), freshness := Fresh)
    else if Supersedable(a.state) then
      match Apply(marked, Suppressed, Some(w.actor), REASON, w.asOf)
      case Success(b) => b.(freshness := Fresh)
      case Failure(_) => a.(freshness := Fresh)
    else a.(freshness := Fresh)
  }

  function Reconciled(a: Anomaly, w: Window, q: Query): Anomaly {
    if Candidate(a, w) then Recompute(a, w, q) else a
  }

  // ---------------------------------------------------------------- one pass over a store

  type Values = map<string, Anomaly>

  ghost predicate Stored(v: Values, ids: seq<string>) {
    Distinct(ids) && forall id :: id in ids ==> id in v
  }

  function Elements(ids: seq<string>): set<string> {
    set id | id in ids
  }

  function CandidateIds(v: Values, ids: seq<string>, w: Window): (r: seq<string>)
    requires forall id :: id in ids ==> id in v
    ensures forall id :: id in r ==> id in ids
  {
    if ids == [] then []
    else (if Candidate(v[ids[0]], w) then [ids[0]] else []) + CandidateIds(v, ids[1..], w)
  }

  /** Recomputes one after the other, up to the first that raises; tells whether none did. */
  function Pass(v: Values, ids: seq<string>, w: Window, q: Query): (r: (Values, bool))
    requires forall id :: id in ids ==> id in v
    ensures r.0.Keys == v.Keys
  {
    if ids == [] then (v, true)
    else
      var a := v[ids[0]];
      var next := v[ids[0] := Recompute(a, w, q)];
      if Asked(a, w.asOf, q).Raised? then (next, false) else Pass(next, ids[1..], w, q)
  }

  lemma CandidateIdsAreIds(v: Values, ids: seq<string>, w: Window)
    requires forall id :: id in ids ==> id in v
    ensures forall id :: id in CandidateIds(v, ids, w) <==> id in ids && Candidate(v[id], w)
    ensures Distinct(ids) ==> Distinct(CandidateIds(v, ids, w))
  {
    if ids != [] {
      CandidateIdsAreIds(v, ids[1..], w);
      assert ids == [ids[0]] + ids[1..];
    }
  }

  lemma {:induction false} CandidateIdsAppend(v: Values, ids: seq<string>, id: string, w: Window)
    requires (forall k :: k in ids ==> k in v) && id in v
    ensures CandidateIds(v, ids + [id], w) == CandidateIds(v, ids, w) + if Candidate(v[id], w) then [id] else []
  {
    if ids == [] {
      assert [id][1..] == [];
    } else {
      CandidateIdsAppend(v, ids[1..], id, w);
      assert (ids + [id])[1..] == ids[1..] + [id];
    }
  }

  // ---------------------------------------------------------------- the engine

  /** An exception while a candidate is recomputed. */
  datatype Interrupted = Interrupted

  function WindowOf(tenant: string, metric: string, start: int, end: int, asOf: int, actor: Option<Principal>): Window {
    Window(tenant, metric, start, end, asOf, if actor.Some? then actor.value else SystemActor(tenant))
  }

  class ReconciliationEngine {
    var store: map<string, AnomalyAggregate>
    var order: seq<string>

    /** The store is keyed by the aggregates' own ids; `order` is its insertion order. */
    ghost predicate Valid()
      reads this
    {
      && (forall k :: k in order <==> k in store)
      && Distinct(order)
      && (forall k :: k in store ==> store[k].id == k)
    }

    ghost function View(): (v: Values)
      reads this, store.Values
      ensures v.Keys == store.Keys
    {
      map k | k in store :: store[k].Value()
    }

    constructor ()
      ensures Valid() && store == map[]
    {
      store, order := map[], [];
    }

    method RegisterAnomaly(anomaly: AnomalyAggregate)
      requires Valid()
      modifies this
      ensures Valid()
      ensures store == old(store)[anomaly.id := anomaly]
      ensures order == if anomaly.id in old(store) then old(order) else old(order) + [anomaly.id]
    {
      if anomaly.id !in store {
        order := order + [anomaly.id];
      }
      store := store[anomaly.id := anomaly];
    }

    /** The candidates of a window, in store order. */
    method FindCandidates(w: Window) returns (found: seq<AnomalyAggregate>)
      requires Valid()
      ensures var ids := CandidateIds(View(), order, w);
        |found| == |ids| && forall k :: 0 <= k < |found| ==> ids[k] in store && found[k] == store[ids[k]]
      ensures forall k :: k in store ==> (store[k] in found <==> Candidate(store[k].Value(), w))
      ensures forall i, j :: 0 <= i < j < |found| ==> found[i] != found[j]
    {
      hide Candidate, CandidateIds;
      found := [];
      ghost var ids: seq<string> := [];
      assert CandidateIds(View(), [], w) == [] by { NoCandidateYet(View(), w); }
      assert order[..0] == [];
      for n := 0 to |order|
        invariant ids == CandidateIds(View(), order[..n], w) && |found| == |ids|
        invariant forall k :: 0 <= k < |found| ==> ids[k] in store && found[k] == store[ids[k]]
      {
        assert order[n] in store;
        var a := store[order[n]];
        assert order[..n+1] == order[..n] + [order[n]];
        CandidateIdsAppend(View(), order[..n], order[n], w);
        CandidateIs(a.Value(), w);
        if a.tenant == w.tenant && a.metric == w.metric && a.state != Suppressed
          && Overlaps(a.windowStart, a.windowEnd, w.start, w.end) {
          found := found + [a];
          ids := ids + [order[n]];
        }
      }
      assert order[..|order|] == order;
      CandidateIdsAreIds(View(), order, w);
      forall k | k in store ensures store[k] in found <==> Candidate(store[k].Value(), w) {
        if store[k] in found {
          var n :| 0 <= n < |found| && found[n] == store[k];
          assert ids[n] == store[ids[n]].id == store[k].id == k;
        }
        if k in ids {
          var n :| 0 <= n < |ids| && ids[n] == k;
          assert found[n] == store[k];
        }
      }
    }

    /** An exception leaves the anomaly marked and reaches the caller. */
    method RecomputeOne(a: AnomalyAggregate, w: Window, q: Query) returns (ok: bool)
      modifies a
      ensures a.Value() == Recompute(old(a.Value()), w, q)
      ensures ok <==> !Asked(old(a.Value()), w.asOf, q).Raised?
    {
      a.freshness := Recalculating;
      var request := QueryRequest(a.metric, a.metricVersion, a.windowStart, a.windowEnd, a.scope, w.asOf);
      if !Buildable(request) {
        return false;
      }
      var answer := q(request);
      if answer.Raised? {
        return false;
      }
      ok := true;
      if answer.Failed? {
        a.freshness := Degraded;
        return;
      }
      var v := Recalculated(answer);
      if !StillAnomalous(v, a.lower, a.upper) {
        if a.state in {Detected, Validated, Localized, Acknowledged, Reopened} {
          var _ := a.TransitionTo(Suppressed, Some(w.actor), REASON, w.asOf);
        }
        a.freshness := Fresh;
      } else {
        a.actual := v;
        a.freshness := Fresh;
      }
    }

    /** The same for a stored anomaly, seen in the store. */
    method RecomputeStored(a: AnomalyAggregate, ghost id: string, w: Window, q: Query) returns (ok: bool)
      requires Valid() && id in store && store[id] == a
      modifies a
      ensures Valid() && store == old(store) && order == old(order)
      ensures View() == old(View())[id := Recompute(old(View())[id], w, q)]
      ensures ok <==> !Asked(old(View())[id], w.asOf, q).Raised?
    {
      hide Recompute, Asked;
      ghost var before := View();
      ok := RecomputeOne(a, w, q);
      assert forall k :: k in store && k != id ==> store[k].id != a.id;
      assert View() == before[id := Recompute(before[id], w, q)];
    }

    method RecomputeAll(affected: seq<AnomalyAggregate>, ghost ids: seq<string>, w: Window, q: Query) returns (ok: bool)
      requires Valid() && |ids| == |affected|
      requires forall k :: 0 <= k < |ids| ==> ids[k] in store && store[ids[k]] == affected[k]
      modifies affected
      ensures Valid() && store == old(store) && order == old(order)
      ensures (View(), ok) == Pass(old(View()), ids, w, q)
    {
      hide Recompute, Asked, Valid, View;
      assert ids[0..] == ids;
      for n := 0 to |affected|
        invariant Valid() && store == old(store) && order == old(order)
        invariant forall k :: 0 <= k < |ids| ==> ids[k] in View() && ids[k] in old(View())
        invariant Pass(View(), ids[n..], w, q) == Pass(old(View()), ids, w, q)
      {
        ghost var before := View();
        ok := RecomputeStored(affected[n], ids[n], w, q);
        assert ids[n..][0] == ids[n] && ids[n..][1..] == ids[n+1..];
        if !ok {
          return;
        }
      }
      ok := true;
    }

    /** The affected anomalies, all recomputed, or an interruption by the first that raises. */
    method ReconcileWindow(tenant: string, metric: string, start: int, end: int, asOf: int, actor: Option<Principal>,
                           q: Query)
      returns (r: Result<seq<AnomalyAggregate>, Interrupted>)
      requires Valid()
      modifies store.Values
      ensures Valid() && store == old(store) && order == old(order)
      ensures var w := WindowOf(tenant, metric, start, end, asOf, actor);
        && (View(), r.Success?) == Pass(old(View()), CandidateIds(old(View()), order, w), w, q)
        && (r.Success? ==> forall k :: k in store ==>
              && store[k].Value() == Reconciled(old(store[k].Value()), w, q)
              && (store[k] in r.value <==> Candidate(old(store[k].Value()), w)))
    {
      hide Recompute, Candidate, Pass, CandidateIds;
      var w := WindowOf(tenant, metric, start, end, asOf, actor);
      ghost var before := View();
      var affected := FindCandidates(w);
      ghost var ids := CandidateIds(before, order, w);
      assert forall n :: 0 <= n < |affected| ==> affected[n] in store.Values;
      var ok := RecomputeAll(affected, ids, w, q);
      if !ok {
        return Failure(Interrupted);
      }
      r := Success(affected);
      CandidateIdsAreIds(before, order, w);
      PassWithoutRaises(before, order, w, q);
      forall k | k in store ensures store[k].Value() == Reconciled(old(store[k].Value()), w, q) {
        assert View()[k] == store[k].Value() && before[k] == old(store[k].Value());
      }
    }

    /** The same window reconciled twice: store and outcome are what one pass alone would give. */
    method ReconcileAgain(tenant: string, metric: string, start: int, end: int, asOf: int, actor: Option<Principal>,
                          q: Query)
      returns (first: Result<seq<AnomalyAggregate>, Interrupted>, second: Result<seq<AnomalyAggregate>, Interrupted>)
      requires Valid()
      modifies store.Values
      ensures Valid() && store == old(store) && order == old(order)
      ensures var w := WindowOf(tenant, metric, start, end, asOf, actor);
        && (View(), first.Success?) == Pass(old(View()), CandidateIds(old(View()), order, w), w, q)
        && (second.Success? <==> first.Success?)
        && (first.Success? && second.Success? ==> forall k :: k in store ==>
              && store[k].Value() == Reconciled(old(store[k].Value()), w, q)
              && (store[k] in first.value <==> Candidate(old(store[k].Value()), w))
              && (store[k] in second.value <==> Candidate(Reconciled(old(store[k].Value()), w, q), w)))
    {
      hide Reconciled, Candidate, Pass, CandidateIds;
      ghost var w := WindowOf(tenant, metric, start, end, asOf, actor);
      first := ReconcileWindow(tenant, metric, start, end, asOf, actor, q);
      PassTwiceIsOnce(old(View()), order, w, q);
      label Once:
      second := ReconcileWindow(tenant, metric, start, end, asOf, actor, q);
      forall k | k in store ensures store[k].Value() == old@Once(store[k].Value()) {
        assert View()[k] == store[k].Value() && old@Once(View())[k] == old@Once(store[k].Value());
      }
    }
  }

  lemma CandidateIs(a: Anomaly, w: Window)
    ensures Candidate(a, w) <==>
      a.tenant == w.tenant && a.metric == w.metric && a.state != Suppressed
        && Overlaps(a.windowStart, a.windowEnd, w.start, w.end)
  {
  }

  lemma NoCandidateYet(v: Values, w: Window)
    ensures CandidateIds(v, [], w) == []
  {
  }

  // ---------------------------------------------------------------- what a pass does to the store

  lemma {:induction false} PassFrame(v: Values, ids: seq<string>, w: Window, q: Query, id: string, x: Anomaly)
    requires (forall k :: k in ids ==> k in v) && id in v && id !in ids
    ensures Pass(v, ids, w, q).0[id] == v[id]
    ensures Pass(v[id := x], ids, w, q) == (Pass(v, ids, w, q).0[id := x], Pass(v, ids, w, q).1)
    decreases |ids|
  {
    if ids != [] {
      hide Recompute, Asked;
      var a := v[ids[0]];
      var y := Recompute(a, w, q);
      assert v[id := x][ids[0]] == a && v[id := x][ids[0] := y] == v[ids[0] := y][id := x];
      PassFrame(v[ids[0] := y], ids[1..], w, q, id, x);
    }
  }

  lemma {:induction false} CandidateIdsFrame(v: Values, ids: seq<string>, w: Window, id: string, x: Anomaly)
    requires (forall k :: k in ids ==> k in v) && id !in ids
    ensures CandidateIds(v[id := x], ids, w) == CandidateIds(v, ids, w)
  {
    if ids != [] {
      hide Candidate;
      CandidateIdsFrame(v, ids[1..], w, id, x);
    }
  }

  /** Where a pass stops, and what every anomaly is afterwards. */
  lemma {:induction false} PassOutcome(v: Values, ids: seq<string>, w: Window, q: Query) returns (n: nat)
    requires Stored(v, ids)
    ensures n <= |ids| && (Pass(v, ids, w, q).1 <==> n == |ids|)
    ensures forall k :: 0 <= k < n ==> !Asked(v[ids[k]], w.asOf, q).Raised?
    ensures n < |ids| ==> Asked(v[ids[n]], w.asOf, q).Raised?
    ensures forall k :: 0 <= k < |ids| ==>
      Pass(v, ids, w, q).0[ids[k]] == if k <= n then Recompute(v[ids[k]], w, q) else v[ids[k]]
    ensures forall id :: id in v && id !in ids ==> Pass(v, ids, w, q).0[id] == v[id]
    decreases |ids|
  {
    hide Recompute, Asked;
    n := 0;
    if ids != [] {
      var x := Recompute(v[ids[0]], w, q);
      if !Asked(v[ids[0]], w.asOf, q).Raised? {
        var next, rest := v[ids[0] := x], ids[1..];
        var m := PassOutcome(next, rest, w, q);
        n := m + 1;
        PassFrame(next, rest, w, q, ids[0], x);
        forall k | 1 <= k < |ids| ensures rest[k-1] == ids[k] && next[ids[k]] == v[ids[k]] {
        }
      }
    }
  }

  /** The outcome without an exception: every candidate recomputed, everything else as before. */
  lemma PassWithoutRaises(v: Values, order: seq<string>, w: Window, q: Query)
    requires Stored(v, order) && v.Keys == Elements(order)
    ensures var (after, done) := Pass(v, CandidateIds(v, order, w), w, q);
      done ==> forall id :: id in v ==> after[id] == Reconciled(v[id], w, q)
  {
    hide Recompute, Asked, Candidate, Pass, CandidateIds;
    var ids := CandidateIds(v, order, w);
    CandidateIdsAreIds(v, order, w);
    var n := PassOutcome(v, ids, w, q);
    if Pass(v, ids, w, q).1 {
      forall id | id in v ensures Pass(v, ids, w, q).0[id] == Reconciled(v[id], w, q) {
        assert id in order;
        if id in ids {
          var k :| 0 <= k < |ids| && ids[k] == id;
        }
      }
    }
  }

  /**
   * A pass comes to its end exactly when no candidate raises, and exactly then no candidate is left RECALCULATING; the
   * first candidate that raises is left so, and everything behind it stays as it was.
   */
  lemma NothingLeftRecalculatingIff(v: Values, order: seq<string>, w: Window, q: Query)
    requires Stored(v, order)
    ensures var (after, done) := Pass(v, CandidateIds(v, order, w), w, q);
      && (done <==> forall id :: id in order && Candidate(v[id], w) ==> !Asked(v[id], w.asOf, q).Raised?)
      && (done <==> forall id :: id in order && Candidate(v[id], w) ==> after[id].freshness != Recalculating)
  {
    var ids := CandidateIds(v, order, w);
    CandidateIdsAreIds(v, order, w);
    var n := PassOutcome(v, ids, w, q);
    forall id | id in v ensures Recompute(v[id], w, q).freshness == Recalculating <==> Asked(v[id], w.asOf, q).Raised? {
      MarkedIffRaised(v[id], w, q);
    }
    hide Recompute, Asked, Candidate, Pass, CandidateIds;
    if n < |ids| {
      assert ids[n] in ids;
    } else {
      forall id | id in ids
        ensures !Asked(v[id], w.asOf, q).Raised? && Pass(v, ids, w, q).0[id] == Recompute(v[id], w, q)
      {
        var k :| 0 <= k < |ids| && ids[k] == id;
      }
    }
  }

  lemma MarkedIffRaised(a: Anomaly, w: Window, q: Query)
    ensures Recompute(a, w, q).freshness == Recalculating <==> Asked(a, w.asOf, q).Raised?
  {
    hide Legal, TransitionKey, EventType;
  }

  /** Passing over the candidates is sweeping over all, skipping the others. */
  function Sweep(v: Values, order: seq<string>, w: Window, q: Query): (r: (Values, bool))
    requires forall id :: id in order ==> id in v
    ensures r.0.Keys == v.Keys
  {
    if order == [] then (v, true)
    else
      var a := v[order[0]];
      var next := v[order[0] := Reconciled(a, w, q)];
      if Candidate(a, w) && Asked(a, w.asOf, q).Raised? then (next, false) else Sweep(next, order[1..], w, q)
  }

  lemma {:induction false} PassIsSweep(v: Values, order: seq<string>, w: Window, q: Query)
    requires Stored(v, order)
    ensures Pass(v, CandidateIds(v, order, w), w, q) == Sweep(v, order, w, q)
    decreases |order|
  {
    CandidateIdsAreIds(v, order, w);
    if order != [] {
      var a := v[order[0]];
      var x := Reconciled(a, w, q);
      var next := v[order[0] := x];
      PassIsSweep(next, order[1..], w, q);
      CandidateIdsFrame(v, order[1..], w, order[0], x);
      hide Recompute, Asked, Candidate;
      assert CandidateIds(v, order, w) ==
        (if Candidate(a, w) then [order[0]] else []) + CandidateIds(next, order[1..], w);
      if Candidate(a, w) {
        assert CandidateIds(v, order, w)[1..] == CandidateIds(next, order[1..], w);
      } else {
        assert next == v && CandidateIds(v, order, w) == CandidateIds(v, order[1..], w);
      }
    }
  }

  lemma {:induction false} SweepFrame(v: Values, order: seq<string>, w: Window, q: Query, id: string)
    requires (forall k :: k in order ==> k in v) && id in v && id !in order
    ensures Sweep(v, order, w, q).0[id] == v[id]
    decreases |order|
  {
    if order != [] {
      hide Reconciled, Asked, Candidate;
      SweepFrame(v[order[0] := Reconciled(v[order[0]], w, q)], order[1..], w, q, id);
    }
  }

  lemma {:induction false} SweepTwice(v: Values, order: seq<string>, w: Window, q: Query)
    requires Stored(v, order)
    ensures Sweep(Sweep(v, order, w, q).0, order, w, q) == Sweep(v, order, w, q)
    decreases |order|
  {
    if order != [] {
      var a := v[order[0]];
      var x := Reconciled(a, w, q);
      var next := v[order[0] := x];
      ReconcilingTwiceIsOnce(a, w, q);
      hide Reconciled, Asked, Candidate;
      var u := Sweep(v, order, w, q).0;
      if Candidate(a, w) && Asked(a, w.asOf, q).Raised? {
        assert u == next && u[order[0] := x] == u;
      } else {
        SweepTwice(next, order[1..], w, q);
        SweepFrame(next, order[1..], w, q, order[0]);
        assert u[order[0]] == x && u[order[0] := x] == u;
      }
    }
  }

  /** A second pass over the candidates that are left changes nothing and ends as the first. */
  lemma PassTwiceIsOnce(v: Values, order: seq<string>, w: Window, q: Query)
    requires Stored(v, order)
    ensures var after := Pass(v, CandidateIds(v, order, w), w, q).0;
      Pass(after, CandidateIds(after, order, w), w, q) == Pass(v, CandidateIds(v, order, w), w, q)
  {
    hide Pass, CandidateIds, Sweep;
    PassIsSweep(v, order, w, q);
    SweepTwice(v, order, w, q);
    PassIsSweep(Sweep(v, order, w, q).0, order, w, q);
  }

  /** A candidate without a version stops the pass: it stays marked, and the candidates behind it are not reached. */
  lemma BlankVersionStops(v: Values, first: string, others: seq<string>, w: Window, q: Query)
    requires Stored(v, [first] + others) && Candidate(v[first], w) && Blank(v[first].metricVersion)
    ensures Pass(v, CandidateIds(v, [first] + others, w), w, q) ==
      (v[first := v[first].(freshness := Recalculating)], false)
  {
    assert ([first] + others)[1..] == others;
  }

  // ---------------------------------------------------------------- what reconciliation achieves

  /** A second pass with the same query changes nothing. */
  lemma ReconcilingTwiceIsOnce(a: Anomaly, w: Window, q: Query)
    ensures var b := Reconciled(a, w, q);
      && Reconciled(b, w, q) == b
      && (Candidate(b, w) ==> Candidate(a, w) && Asked(b, w.asOf, q) == Asked(a, w.asOf, q))
      && (Candidate(a, w) && Asked(a, w.asOf, q).Raised? ==> Candidate(b, w))
  {
    if Candidate(a, w) {
      RecomputingTwice(a, w, q);
      hide Recompute, Candidate;
    }
  }

  lemma ClosingIs(a: Anomaly, w: Window, t: int)
    ensures var r := Apply(a.(freshness := Recalculating), Suppressed, Some(w.actor), REASON, w.asOf);
      && (r.Success? ==> r.value.state == Suppressed && RequestFor(r.value, t) == RequestFor(a, t))
      && (r.Success? <==> Apply(a.(freshness := Fresh).(freshness := Recalculating), Suppressed, Some(w.actor), REASON,
                                w.asOf).Success?)
  {
    hide TransitionKey, EventType;
  }

  lemma RecomputingTwice(a: Anomaly, w: Window, q: Query)
    requires Candidate(a, w)
    ensures var b := Recompute(a, w, q);
      && Asked(b, w.asOf, q) == Asked(a, w.asOf, q)
      && (!Candidate(b, w) || Recompute(b, w, q) == b)
      && (Asked(a, w.asOf, q).Raised? ==> Candidate(b, w))
  {
    ClosingIs(a, w, w.asOf);
    hide Apply, Blank, Overlaps;
    var b := Recompute(a, w, q);
    assert RequestFor(b, w.asOf) == RequestFor(a, w.asOf);
  }

  predicate Accepted(w: Window) {
    w.actor.isSystem || w.actor.tenant == w.tenant
  }

  /** A candidate is closed, or its stored value is a recomputed one outside the expected interval. */
  predicate Settled(a: Anomaly, w: Window, q: Query) {
    var answer := Asked(a, w.asOf, q);
    a.state.Suppressed? || a.state.Resolved? ||
    (answer.Series? && a.actual == Recalculated(answer) && StillAnomalous(a.actual, a.lower, a.upper))
  }

  /**
   * Candidates whose query succeeded are settled afterwards, exactly when the actor may transition them, or there was
   * nothing to transition. The default actor always may.
   */
  lemma CandidatesSettle(a: Anomaly, w: Window, q: Query)
    requires Candidate(a, w) && Asked(a, w.asOf, q).Series?
    ensures Settled(Reconciled(a, w, q), w, q) <==>
      Accepted(w) || a.state == Resolved || StillAnomalous(Recalculated(Asked(a, w.asOf, q)), a.lower, a.upper)
    ensures w.actor == SystemActor(w.tenant) ==> Settled(Reconciled(a, w, q), w, q)
    ensures Reconciled(a, w, q).freshness == Fresh
  {
    var v := Recalculated(Asked(a, w.asOf, q));
    var b := Reconciled(a, w, q);
    assert RequestFor(b, w.asOf) == RequestFor(a, w.asOf);
    if !StillAnomalous(v, a.lower, a.upper) && Supersedable(a.state) && !Accepted(w) {
      assert b == a.(freshness := Fresh);
    }
  }

  /** Windows overlap exactly when they share a moment; this one is in both. */
  lemma OverlapIsShared(s: int, e: int, ws: int, we: int) returns (t: int)
    requires Overlaps(s, e, ws, we)
    ensures s <= t <= e && ws <= t <= we
  {
    t := if s >= ws then s else ws;
  }

  lemma SharedMomentOverlaps(s: int, e: int, ws: int, we: int, t: int)
    requires s <= t <= e && ws <= t <= we
    ensures Overlaps(s, e, ws, we)
  {
  }

  /** The anomaly closed by one more step of the actor, for the fixed reason, at the time of the pass. */
  ghost predicate ClosedBy(a: Anomaly, b: Anomaly, actor: Principal, now: int) {
    && b.state == Suppressed && b.freshness == Fresh && b.actual == a.actual && b.version == a.version + 1
    && b.updatedAt == now && b.effectiveTo == Some(now)
    && b.suppressionReason == Some("SUPERSEDED_BY_RECOMPUTATION")
    && b.transitions == a.transitions
                        + [Audit(a.state, Suppressed, actor.id, actor.isSystem, "SUPERSEDED_BY_RECOMPUTATION", now)]
    && |b.outbox| == |a.outbox| + 1 && a.outbox <= b.outbox
    && b.outbox[|a.outbox|].kind == "anomaly.suppressed.v1" && b.outbox[|a.outbox|].at == now
    && b.outbox[|a.outbox|].version == b.version
  }

  /**
   * A candidate shares the moment `t` with the window, and the gateway answers the query for its own metric, version,
   * window and scope at the time of the pass with a series. Its first value, or 0.0 without one, is stored when it lies
   * above the interval, or below a positive lower bound. Otherwise the stored value stays, and an anomaly that is not
   * resolved is suppressed if the actor is the system or of the tenant.
   */
  lemma RecomputedIs(a: Anomaly, w: Window, q: Query, t: int, first: Option<real>)
    requires a.tenant == w.tenant && a.metric == w.metric && a.state != Suppressed
    requires a.windowStart <= t <= a.windowEnd && w.start <= t <= w.end
    requires !Blank(a.metric) && !Blank(a.metricVersion)
    requires q(QueryRequest(a.metric, a.metricVersion, a.windowStart, a.windowEnd, a.scope, w.asOf)) == Series(first)
    ensures var b, v := Reconciled(a, w, q), if first.Some? then first.value else 0.0;
      && (v > a.upper || (a.lower > 0.0 && v < a.lower) ==> b == a.(actual := v, freshness := Fresh))
      && (v <= a.upper && (a.lower <= 0.0 || v >= a.lower) ==>
            b.actual == a.actual
            && if a.state != Resolved && (w.actor.isSystem || w.actor.tenant == a.tenant)
               then ClosedBy(a, b, w.actor, w.asOf) else b == a.(freshness := Fresh))
  {
    SharedMomentOverlaps(a.windowStart, a.windowEnd, w.start, w.end, t);
    hide Blank, Overlaps, TransitionKey;
  }

  /** What counts is the answer to that one query: no other answer of the gateway matters, and no other time. */
  lemma OnlyItsQueryMatters(a: Anomaly, w: Window, q: Query, p: Query)
    requires var r := QueryRequest(a.metric, a.metricVersion, a.windowStart, a.windowEnd, a.scope, w.asOf); q(r) == p(r)
    ensures Reconciled(a, w, q) == Reconciled(a, w, p)
  {
    hide Blank, Overlaps, Apply;
  }

  /** A candidate is suppressed exactly when it is open, its new value is in the interval and the actor is accepted. */
  lemma SuppressedIff(a: Anomaly, w: Window, q: Query, t: int, first: Option<real>)
    requires a.tenant == w.tenant && a.metric == w.metric && a.state != Suppressed
    requires a.windowStart <= t <= a.windowEnd && w.start <= t <= w.end
    requires !Blank(a.metric) && !Blank(a.metricVersion)
    requires q(QueryRequest(a.metric, a.metricVersion, a.windowStart, a.windowEnd, a.scope, w.asOf)) == Series(first)
    ensures var v := if first.Some? then first.value else 0.0;
      Reconciled(a, w, q).state == Suppressed <==>
        a.state != Resolved && (w.actor.isSystem || w.actor.tenant == a.tenant)
        && v <= a.upper && (a.lower > 0.0 ==> a.lower <= v)
  {
    hide Reconciled, Blank;
    RecomputedIs(a, w, q, t, first);
  }

  /** Asking raises when the query cannot be built, and when the gateway raises. */
  lemma RaisesIff(a: Anomaly, asOf: int, q: Query)
    ensures Asked(a, asOf, q).Raised? <==>
      Blank(a.metric) || Blank(a.metricVersion) || a.windowEnd < a.windowStart
      || q(QueryRequest(a.metric, a.metricVersion, a.windowStart, a.windowEnd, a.scope, asOf)).Raised?
  {
    hide Blank;
  }

  /** The given actor reconciles; without one it is the system itself, which every tenant accepts. */
  lemma ActorIs(tenant: string, metric: string, start: int, end: int, asOf: int, p: Principal)
    ensures WindowOf(tenant, metric, start, end, asOf, Some(p)) == Window(tenant, metric, start, end, asOf, p)
    ensures WindowOf(tenant, metric, start, end, asOf, None)
      == Window(tenant, metric, start, end, asOf, Principal("usr_sys_reconciliation_worker", tenant, true))
  {
  }

  /** A candidate is left RECALCULATING only by an exception, a failed query degrades it and changes nothing else. */
  lemma NothingLeftRecalculating(a: Anomaly, w: Window, q: Query)
    ensures Candidate(a, w) ==> (Reconciled(a, w, q).freshness == Recalculating <==> Asked(a, w.asOf, q).Raised?)
    ensures Candidate(a, w) && Asked(a, w.asOf, q).Failed? ==> Reconciled(a, w, q) == a.(freshness := Degraded)
    ensures !Candidate(a, w) ==> Reconciled(a, w, q) == a
  {
  }

  /** Reconciliation keeps audit trail, version and outbox of every anomaly in lockstep. */
  lemma ReconcilingKeepsConsistent(a: Anomaly, w: Window, q: Query)
    requires Consistent(a)
    ensures Consistent(Reconciled(a, w, q))
  {
    hide Apply, EventType, TransitionKey, FirstKey, Legal;
    var marked := a.(freshness := Recalculating);
    FreshnessAndValueAreFree(a, marked);
    var answer := Asked(a, w.asOf, q);
    var applied := Apply(marked, Suppressed, Some(w.actor), REASON, w.asOf);
    if applied.Success? {
      ApplyKeepsConsistent(marked, Suppressed, Some(w.actor), REASON, w.asOf);
      FreshnessAndValueAreFree(applied.value, applied.value.(freshness := Fresh));
    }
    FreshnessAndValueAreFree(a, a.(freshness := Fresh));
    FreshnessAndValueAreFree(a, a.(freshness := Degraded));
    if answer.Series? { FreshnessAndValueAreFree(a, a.(actual := Recalculated(answer), freshness := Fresh)); }
  }

  lemma FreshnessAndValueAreFree(a: Anomaly, b: Anomaly)
    requires Consistent(a) && b == a.(freshness := b.freshness, actual := b.actual)
    ensures Consistent(b)
  {
    hide EventType, TransitionKey, FirstKey, Legal;
    assert forall i :: 0 <= i < |a.transitions| ==> KeyAt(b, i) == KeyAt(a, i);
  }
}
