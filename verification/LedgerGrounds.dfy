/** What the stored intents and attempts owe to the calls: each field is one that some call asked for or reported. */
module LedgerGrounds {
  import opened Wrappers
  import opened TenantStore
  import opened ActionLedger
  import opened LedgerHistory
  import opened LedgerTheorems

  // ---------------------------------------------------------------- one call

  /** The intent that a request asks for, but for its status. */
  predicate AsAsked(i: Intent, q: IntentRequest, id: string, now: int) {
    && i.id == id && i.tenant == q.tenant && q.approval.tenant == q.tenant && i.approval == q.approval.id
    && i.key == q.key && i.key != "" && i.action == q.approval.action && i.classification == q.classification
    && i.targetCount == |q.approval.targets| && i.digest == q.approval.digest && i.dryRun == q.dryRun
    && (i.dryRun || q.approval.status.Approved?) && i.createdAt == now
  }

  /** A create under a free key stores what was asked for; under a taken one, or when it fails, nothing changes. */
  lemma CreateStoresIt(s: State, q: IntentRequest, id: string, now: int)
    requires Inv(s)
    ensures var (t, r) := CreateStep(s, q, id, now);
      if r.Success? && Slot(q.tenant, q.key) !in s.index then
        AsAsked(r.value, q, id, now) && r.value.status == Initialized
        && t == s.(intents := s.intents[Slot(q.tenant, id) := r.value], index := s.index[Slot(q.tenant, q.key) := id])
      else t == s
  {
    KeyFinds(s, Slot(q.tenant, q.key));
    hide Inv, FindByKey;
  }

  /** Why a create fails; a taken key is answered before approval and key are looked at. */
  lemma CreateRefusals(s: State, q: IntentRequest, id: string, now: int)
    requires Inv(s)
    ensures var r := CreateStep(s, q, id, now).1;
      var free := q.tenant == q.approval.tenant && Slot(q.tenant, q.key) !in s.index;
      && (r == Failure(TenantMismatch) <==> q.tenant != q.approval.tenant)
      && (r == Failure(ApprovalNotGranted) <==> free && !q.dryRun && !q.approval.status.Approved?)
      && (r == Failure(InvalidKey) <==> free && (q.dryRun || q.approval.status.Approved?) && q.key == "")
  {
    KeyFinds(s, Slot(q.tenant, q.key));
    hide Inv, FindByKey;
  }

  /** The attempt that a start asks for: one more than there are, nothing reported yet. */
  predicate AsStarted(a: Attempt, q: StartRequest, id: string, now: int) {
    && a.id == id && a.tenant == q.intent.tenant && a.intent == q.intent.id && a.key == q.key
    && a.provider == q.provider && a.requestDigest == q.requestDigest && a.startedAt == now
  }

  predicate Unreported(a: Attempt) {
    a.status == Started && a.report == Report(None, None, None, None) && a.completedAt == None
  }

  /** A start goes through exactly for a stored intent; it numbers the attempt and moves an untried intent on. */
  lemma StartSucceedsIff(s: State, q: StartRequest, id: string, now: int)
    requires Inv(s)
    ensures StartStep(s, q, id, now).1.Success? <==> q.intent in s.intents
    ensures q.intent !in s.intents ==> StartStep(s, q, id, now).1 == Failure(IntentNotFound)
    ensures var (t, r) := StartStep(s, q, id, now);
      if r.Success? then
        && AsStarted(r.value, q, id, now) && Unreported(r.value)
        && r.value.number == |AttemptsOf(s.attempts, q.intent)| + 1
        && t == s.(attempts := s.attempts[Slot(q.intent.tenant, id) := r.value],
                   intents := if s.intents[q.intent].status == Initialized
                              then s.intents[q.intent := s.intents[q.intent].(status := Dispatched)] else s.intents)
      else t == s
  {
    if q.intent in s.intents {
      StartShape(s, q, id, now);
      hide Inv, AttemptsOf;
    }
  }

  /**
   * A completion goes through exactly for a stored attempt; it notes the report, and moves the intent on success to
   * COMPLETED, on a provider error to FAILED, on an unknown timeout to RECONCILING, whatever its status was.
   */
  lemma CompletionSucceedsIff(s: State, n: Slot, status: AttemptStatus, report: Report, now: int)
    requires Inv(s)
    ensures CompleteStep(s, n, status, report, now).1.Success? <==> n in s.attempts
    ensures n !in s.attempts ==> CompleteStep(s, n, status, report, now).1 == Failure(LedgerNotFound)
    ensures var (t, r) := CompleteStep(s, n, status, report, now);
      if r.Success? then
        var a := s.attempts[n];
        var k := Slot(n.tenant, a.intent);
        && k in s.intents && r.value == a.(status := status, report := report, completedAt := Some(now))
        && t.index == s.index && t.attempts == s.attempts[n := r.value]
        && t.outcomes == s.outcomes + [Outcome(k, status)]
        && t.intents == (match status
            case Succeeded => s.intents[k := s.intents[k].(status := Completed)]
            case ProviderError => s.intents[k := s.intents[k].(status := Failed)]
            case TimeoutUnknown => s.intents[k := s.intents[k].(status := Reconciling)]
            case _ => s.intents)
      else t == s
  {
    if n in s.attempts {
      CompleteShape(s, n, status, report, now);
      hide Inv;
    }
  }

  // ---------------------------------------------------------------- over all runs

  ghost predicate IntentAsked(s: State, k: Slot, c: Call)
    requires k in s.intents
  {
    c.Create? && k == Slot(c.create.tenant, c.id) && AsAsked(s.intents[k], c.create, c.id, c.now)
  }

  ghost predicate AttemptStarted(s: State, n: Slot, c: Call)
    requires n in s.attempts
  {
    c.Start? && n == Slot(c.start.intent.tenant, c.id) && AsStarted(s.attempts[n], c.start, c.id, c.now)
  }

  /** The call that reported what the attempt shows. */
  predicate Reports(a: Attempt, n: Slot, c: Call) {
    c.Complete? && c.slot == n && a.status == c.status && a.report == c.report && a.completedAt == Some(c.now)
  }

  ghost predicate AttemptReported(s: State, n: Slot, past: seq<Call>)
    requires n in s.attempts
  {
    Unreported(s.attempts[n]) || exists c :: c in past && Reports(s.attempts[n], n, c)
  }

  ghost predicate Traced(s: State, past: seq<Call>) {
    && (forall k :: k in s.intents ==> exists c :: c in past && IntentAsked(s, k, c))
    && (forall n :: n in s.attempts ==> exists c :: c in past && AttemptStarted(s, n, c))
    && (forall n :: n in s.attempts ==> AttemptReported(s, n, past))
  }

  lemma FixedAsAsked(i: Intent, j: Intent, q: IntentRequest, id: string, now: int)
    requires Fixed(i) == Fixed(j) && AsAsked(i, q, id, now)
    ensures AsAsked(j, q, id, now)
  {
    assert AsAsked(Fixed(i), q, id, now);
  }

  /** An intent after a call is the one just asked for, or the one there was, up to its status. */
  lemma IntentAfter(s: State, c: Call, k: Slot)
    requires Inv(s) && Enabled(s, c) && k in Step(s, c).intents
    ensures if k in s.intents then Fixed(Step(s, c).intents[k]) == Fixed(s.intents[k])
            else IntentAsked(Step(s, c), k, c)
  {
    if c.Create? {
      IntentAfterCreate(s, c.create, c.id, c.now, k);
    } else {
      IntentAfterOther(s, c, k);
    }
    hide Inv, CreateStep, StartStep, CompleteStep, Fixed, IntentAsked;
  }

  lemma IntentAfterCreate(s: State, q: IntentRequest, id: string, now: int, k: Slot)
    requires Inv(s) && Slot(q.tenant, id) !in s.intents && k in CreateStep(s, q, id, now).0.intents
    ensures var t := CreateStep(s, q, id, now).0;
      if k in s.intents then Fixed(t.intents[k]) == Fixed(s.intents[k]) else IntentAsked(t, k, Create(q, id, now))
  {
    CreateStoresIt(s, q, id, now);
    hide Inv, CreateStep, AsAsked;
  }

  lemma IntentAfterOther(s: State, c: Call, k: Slot)
    requires Inv(s) && !c.Create? && k in Step(s, c).intents
    ensures k in s.intents && Fixed(Step(s, c).intents[k]) == Fixed(s.intents[k])
  {
    if c.Start? {
      StartSucceedsIff(s, c.start, c.id, c.now);
    } else {
      CompletionSucceedsIff(s, c.slot, c.status, c.report, c.now);
    }
    hide Inv, StartStep, CompleteStep;
  }

  /** An attempt after a call is the one just started, the one just completed, or the one there was. */
  lemma AttemptAfter(s: State, c: Call, n: Slot)
    requires Inv(s) && Enabled(s, c) && n in Step(s, c).attempts
    ensures var a := Step(s, c).attempts[n];
      if n !in s.attempts then AttemptStarted(Step(s, c), n, c) && Unreported(a)
      else if c.Complete? && c.slot == n then
        Reports(a, n, c) && a == s.attempts[n].(status := a.status, report := a.report, completedAt := a.completedAt)
      else a == s.attempts[n]
  {
    match c {
      case Create(q, id, now) =>
        CreateStoresIt(s, q, id, now);
        hide AsAsked;
      case Start(q, id, now) =>
        StartSucceedsIff(s, q, id, now);
        hide AsStarted, Unreported;
      case Complete(n, status, report, now) =>
        CompletionSucceedsIff(s, n, status, report, now);
    }
    hide Inv, CreateStep, StartStep, CompleteStep;
  }

  lemma StepKeepsTraced(s: State, c: Call, past: seq<Call>)
    requires Inv(s) && Enabled(s, c) && Traced(s, past)
    ensures Traced(Step(s, c), past + [c])
  {
    var t := Step(s, c);
    hide Inv, Step, Enabled, AsAsked, AsStarted, Fixed;
    forall k | k in t.intents ensures exists b :: b in past + [c] && IntentAsked(t, k, b) {
      IntentAfter(s, c, k);
      if k in s.intents {
        var b :| b in past && IntentAsked(s, k, b);
        FixedAsAsked(s.intents[k], t.intents[k], b.create, b.id, b.now);
        assert b in past + [c];
      } else {
        assert c in past + [c];
      }
    }
    forall n | n in t.attempts
      ensures (exists b :: b in past + [c] && AttemptStarted(t, n, b)) && AttemptReported(t, n, past + [c])
    {
      AttemptAfter(s, c, n);
      AttemptTraced(s, t, c, n, past);
    }
  }

  lemma AttemptTraced(s: State, t: State, c: Call, n: Slot, past: seq<Call>)
    requires Traced(s, past) && n in t.attempts
    requires var a := t.attempts[n];
      if n !in s.attempts then AttemptStarted(t, n, c) && Unreported(a)
      else if c.Complete? && c.slot == n then
        Reports(a, n, c) && a == s.attempts[n].(status := a.status, report := a.report, completedAt := a.completedAt)
      else a == s.attempts[n]
    ensures (exists b :: b in past + [c] && AttemptStarted(t, n, b)) && AttemptReported(t, n, past + [c])
  {
    hide Reports, Unreported;
    assert c in past + [c];
    if n in s.attempts {
      var b :| b in past && AttemptStarted(s, n, b);
      assert b in past + [c] && AttemptStarted(t, n, b);
      assert AttemptReported(s, n, past);
      if !(c.Complete? && c.slot == n) && !Unreported(s.attempts[n]) {
        var d :| d in past && Reports(s.attempts[n], n, d);
        assert d in past + [c];
      }
    }
  }

  lemma {:induction false} RunKeepsTraced(s: State, cs: seq<Call>, past: seq<Call>)
    requires Inv(s) && Possible(s, cs) && Traced(s, past)
    ensures Traced(Run(s, cs), past + cs)
    decreases |cs|
  {
    hide Inv, Traced, Step, Enabled;
    if cs == [] {
      assert past + cs == past;
    } else {
      StepKeepsInv(s, cs[0]);
      StepKeepsTraced(s, cs[0], past);
      RunKeepsTraced(Step(s, cs[0]), cs[1..], past + [cs[0]]);
      assert past + [cs[0]] + cs[1..] == past + cs;
    }
  }

  lemma NothingTraced()
    ensures Inv(INITIAL) && Traced(INITIAL, [])
  {
    ReachableInv([]);
  }

  /** Every stored intent is the one that some create asked for, field by field, dry runs included. */
  lemma IntentIsAsAsked(cs: seq<Call>, k: Slot) returns (c: Call)
    requires Possible(INITIAL, cs) && k in Run(INITIAL, cs).intents
    ensures c in cs && c.Create? && k == Slot(c.create.tenant, c.id)
    ensures AsAsked(Run(INITIAL, cs).intents[k], c.create, c.id, c.now)
  {
    hide Run, Possible, AsAsked, Inv;
    NothingTraced();
    RunKeepsTraced(INITIAL, cs, []);
    assert [] + cs == cs;
    c :| c in cs && IntentAsked(Run(INITIAL, cs), k, c);
  }

  /** Every stored attempt is what some start asked for, and shows what some completion of it reported, if any. */
  lemma AttemptIsAsReported(cs: seq<Call>, n: Slot) returns (c: Call)
    requires Possible(INITIAL, cs) && n in Run(INITIAL, cs).attempts
    ensures c in cs && c.Start? && n == Slot(c.start.intent.tenant, c.id)
    ensures var a := Run(INITIAL, cs).attempts[n];
      AsStarted(a, c.start, c.id, c.now) && (Unreported(a) || exists d :: d in cs && Reports(a, n, d))
  {
    hide Run, Possible, AsStarted, Inv, Reports;
    NothingTraced();
    RunKeepsTraced(INITIAL, cs, []);
    assert [] + cs == cs;
    c :| c in cs && AttemptStarted(Run(INITIAL, cs), n, c);
    assert AttemptReported(Run(INITIAL, cs), n, cs);
  }
}
