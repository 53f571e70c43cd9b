/** The action ledger over all runs: keys bind for good, attempts list as 1 to n, real intents rest on approvals. */
module LedgerTheorems {
  import opened TenantStore
  import opened ActionLedger
  import opened LedgerHistory
  import ApprovalHistory
  import ApprovalTheorems

  // ---------------------------------------------------------------- attempt numbers

  /** Listing an intent's attempts gives the numbers 1 to n in order. */
  lemma AttemptsListInOrder(s: State, k: Slot, found: seq<Attempt>)
    requires Inv(s) && Lists(s.attempts, k, found)
    ensures forall n :: 0 <= n < |found| ==> found[n].number == n + 1
  {
    assert Numbered(s.attempts, k);
    var own := AttemptsOf(s.attempts, k);
    assert forall n :: 0 <= n < |found| ==> found[n] in found && AttemptSlot(found[n]) in own;
    forall m, n | 0 <= m < n < |found| ensures found[m].number < found[n].number {
      assert ByNumber(found[m], found[n]) && found[m] != found[n];
      assert s.attempts[AttemptSlot(found[m])] == found[m] && s.attempts[AttemptSlot(found[n])] == found[n];
    }
    forall n | 0 <= n < |found| ensures found[n].number == n + 1 {
      assert s.attempts[AttemptSlot(found[0])] == found[0]
        && s.attempts[AttemptSlot(found[|found|-1])] == found[|found|-1];
      Climb(found, 0, n);
      Climb(found, n, |found| - 1);
    }
  }

  lemma {:induction false} Climb(found: seq<Attempt>, m: nat, n: nat)
    requires m <= n < |found| && forall i, j :: 0 <= i < j < |found| ==> found[i].number < found[j].number
    ensures found[n].number - found[m].number >= n - m
  {
    if m < n { Climb(found, m, n - 1); }
  }

  // ---------------------------------------------------------------- statuses

  predicate Decisive(status: AttemptStatus) {
    status.Succeeded? || status.ProviderError? || status.TimeoutUnknown?
  }

  /** The last completion of an attempt of `k` that decides anything reported `status`. */
  ghost predicate LastWord(outcomes: seq<Outcome>, k: Slot, status: AttemptStatus) {
    exists n :: 0 <= n < |outcomes| && IsLastWord(outcomes, k, status, n)
  }

  ghost predicate IsLastWord(outcomes: seq<Outcome>, k: Slot, status: AttemptStatus, n: nat)
    requires n < |outcomes|
  {
    && outcomes[n] == Outcome(k, status)
    && forall m :: n < m < |outcomes| && outcomes[m].intent == k ==> !Decisive(outcomes[m].status)
  }

  lemma LastWordGrows(outcomes: seq<Outcome>, k: Slot, status: AttemptStatus)
    requires outcomes != [] && Decisive(status)
    ensures var (init, last) := (outcomes[..|outcomes|-1], outcomes[|outcomes|-1]);
      LastWord(outcomes, k, status) <==>
        if last.intent == k && Decisive(last.status) then last.status == status else LastWord(init, k, status)
  {
    var e := |outcomes| - 1;
    if LastWord(outcomes[..e], k, status) {
      var n :| 0 <= n < e && IsLastWord(outcomes[..e], k, status, n);
      if !(outcomes[e].intent == k && Decisive(outcomes[e].status)) { assert IsLastWord(outcomes, k, status, n); }
    }
    if LastWord(outcomes, k, status) {
      var n :| 0 <= n < |outcomes| && IsLastWord(outcomes, k, status, n);
      if n < e { assert IsLastWord(outcomes[..e], k, status, n); }
    }
    if outcomes[e] == Outcome(k, status) { assert IsLastWord(outcomes, k, status, e); }
  }

  lemma {:induction false} StatusFromLastWord(outcomes: seq<Outcome>, k: Slot, attempted: bool)
    ensures StatusFrom(outcomes, k, attempted) == Completed <==> LastWord(outcomes, k, Succeeded)
    ensures StatusFrom(outcomes, k, attempted) == Failed <==> LastWord(outcomes, k, ProviderError)
    ensures StatusFrom(outcomes, k, attempted) == Reconciling <==> LastWord(outcomes, k, TimeoutUnknown)
  {
    if outcomes != [] {
      hide LastWord;
      StatusFromLastWord(outcomes[..|outcomes|-1], k, attempted);
      LastWordGrows(outcomes, k, Succeeded);
      LastWordGrows(outcomes, k, ProviderError);
      LastWordGrows(outcomes, k, TimeoutUnknown);
    }
  }

  /** An intent's status is the last decisive word on any of its attempts; COMPLETED is not final. */
  lemma StatusIsLastWord(s: State, k: Slot)
    requires Inv(s) && k in s.intents
    ensures s.intents[k].status == Completed <==> LastWord(s.outcomes, k, Succeeded)
    ensures s.intents[k].status == Failed <==> LastWord(s.outcomes, k, ProviderError)
    ensures s.intents[k].status == Reconciling <==> LastWord(s.outcomes, k, TimeoutUnknown)
  {
    assert StatusOk(s, k);
    hide LastWord;
    StatusFromLastWord(s.outcomes, k, AttemptsOf(s.attempts, k) != {});
  }

  // ---------------------------------------------------------------- keys

  lemma OneIntentPerKey(s: State, j: Slot, k: Slot)
    requires Inv(s) && j in s.intents && k in s.intents && KeySlot(s.intents[j]) == KeySlot(s.intents[k])
    ensures j == k
  {
    assert IntentSlot(s.intents[j]) == j && IntentSlot(s.intents[k]) == k;
  }

  /**
   * A create succeeds on a taken key whatever the approval's status, and on a free one only for a dry run or an
   * approved request.
   */
  lemma CreateSucceedsIff(s: State, q: IntentRequest, id: string, now: int)
    requires Inv(s)
    ensures CreateStep(s, q, id, now).1.Success? <==>
      q.tenant == q.approval.tenant
      && (Slot(q.tenant, q.key) in s.index || (q.key != "" && (q.dryRun || q.approval.status.Approved?)))
  {
    KeyFinds(s, Slot(q.tenant, q.key));
  }

  /** An intent but for its status. */
  function Fixed(i: Intent): Intent {
    i.(status := Initialized)
  }

  ghost predicate IntentsKept(a: map<Slot, Intent>, b: map<Slot, Intent>) {
    forall k :: k in a ==> k in b && Fixed(b[k]) == Fixed(a[k])
  }

  ghost predicate IndexKept(a: map<Slot, string>, b: map<Slot, string>) {
    forall j :: j in a ==> j in b && b[j] == a[j]
  }

  ghost predicate AttemptsKept(a: map<Slot, Attempt>, b: map<Slot, Attempt>) {
    forall n :: n in a ==> n in b && b[n].intent == a[n].intent && b[n].number == a[n].number
  }

  /** What later states keep of earlier ones. */
  ghost predicate Extends(s: State, t: State) {
    IntentsKept(s.intents, t.intents) && IndexKept(s.index, t.index) && AttemptsKept(s.attempts, t.attempts)
  }

  lemma StepExtends(s: State, c: Call)
    requires Inv(s) && Enabled(s, c)
    ensures Extends(s, Step(s, c))
  {
    hide Indexed, CreateStep, StartStep, CompleteStep, Extends, Numbered, StatusOk, OutcomesOk;
    match c
    case Create(q, id, now) =>
      CreateExtends(s, q, id, now);
    case Start(q, id, now) =>
      if q.intent in s.intents { StartExtends(s, q, id, now); } else { NothingStarted(s, q, id, now); }
    case Complete(n, status, report, now) =>
      if n in s.attempts {
        assert AttemptSlot(s.attempts[n]) == n && Parent(s, n) in s.intents;
        CompleteExtends(s, n, status, report, now);
      } else {
        NothingCompleted(s, n, status, report, now);
      }
  }

  lemma NothingStarted(s: State, q: StartRequest, id: string, now: int)
    requires q.intent !in s.intents
    ensures Extends(s, StartStep(s, q, id, now).0)
  {
  }

  lemma NothingCompleted(s: State, n: Slot, status: AttemptStatus, report: Report, now: int)
    requires n !in s.attempts
    ensures Extends(s, CompleteStep(s, n, status, report, now).0)
  {
  }

  lemma CreateExtends(s: State, q: IntentRequest, id: string, now: int)
    requires Indexed(s) && Slot(q.tenant, id) !in s.intents
    ensures Extends(s, CreateStep(s, q, id, now).0)
  {
    KeyFinds(s, Slot(q.tenant, q.key));
    hide Indexed, IntentsKept, IndexKept, FindByKey;
    var n := NewIntent(q, id, now);
    NewIntentKept(s.intents, s.index, n);
  }

  lemma NewIntentKept(intents: map<Slot, Intent>, index: map<Slot, string>, i: Intent)
    ensures IntentsKept(intents, intents) && IndexKept(index, index)
    ensures IntentSlot(i) !in intents ==> IntentsKept(intents, intents[IntentSlot(i) := i])
    ensures KeySlot(i) !in index ==> IndexKept(index, index[KeySlot(i) := i.id])
  {
  }

  lemma StartExtends(s: State, q: StartRequest, id: string, now: int)
    requires Indexed(s) && q.intent in s.intents && Slot(q.intent.tenant, id) !in s.attempts
    ensures Extends(s, StartStep(s, q, id, now).0)
  {
    StartShape(s, q, id, now);
    var a := NewAttempt(s, q, id, now);
    assert AttemptSlot(a) !in s.attempts;
    hide Indexed, StartStep, NewAttempt, IntentsKept, AttemptsKept;
    RestatusKept(s.intents, q.intent, Dispatched);
    NewAttemptKept(s.attempts, a);
  }

  lemma NewAttemptKept(attempts: map<Slot, Attempt>, a: Attempt)
    requires AttemptSlot(a) !in attempts
    ensures AttemptsKept(attempts, attempts[AttemptSlot(a) := a])
  {
  }

  lemma CompleteExtends(s: State, n: Slot, status: AttemptStatus, report: Report, now: int)
    requires Indexed(s) && Attached(s) && n in s.attempts
    ensures Extends(s, CompleteStep(s, n, status, report, now).0)
  {
    CompleteShape(s, n, status, report, now);
    hide Indexed, CompleteStep, IntentsKept, AttemptsKept;
    RestatusKept(s.intents, Parent(s, n), s.intents[Parent(s, n)].status);
    if Effect(status).Some? { RestatusKept(s.intents, Parent(s, n), Effect(status).value); }
    CompletionKept(s.attempts, n, Finished(s.attempts[n], status, report, now));
  }

  lemma RestatusKept(intents: map<Slot, Intent>, k: Slot, status: IntentStatus)
    requires k in intents
    ensures IntentsKept(intents, intents) && IntentsKept(intents, intents[k := intents[k].(status := status)])
  {
  }

  lemma CompletionKept(attempts: map<Slot, Attempt>, n: Slot, a: Attempt)
    requires n in attempts && a.intent == attempts[n].intent && a.number == attempts[n].number
    ensures AttemptsKept(attempts, attempts[n := a])
  {
  }

  lemma {:induction false} RunExtends(s: State, cs: seq<Call>)
    requires Inv(s) && Possible(s, cs)
    ensures Extends(s, Run(s, cs))
    decreases |cs|
  {
    if cs != [] {
      var t := Step(s, cs[0]);
      StepExtends(s, cs[0]);
      StepKeepsInv(s, cs[0]);
      RunExtends(t, cs[1..]);
      hide Inv, Step, Enabled, Extends, Possible;
      ExtendsTrans(s, t, Run(t, cs[1..]));
    } else {
      hide Inv;
    }
  }

  lemma ExtendsTrans(s: State, t: State, u: State)
    requires Extends(s, t) && Extends(t, u)
    ensures Extends(s, u)
  {
    hide Fixed;
  }

  /**
   * A key binds for good: whoever repeats a create under it, at any later time, gets the first intent back and changes
   * nothing.
   */
  lemma RepeatingCreateReturnsIt(s: State, q: IntentRequest, id: string, now: int, cs: seq<Call>, again: IntentRequest,
                                 id': string, now': int)
    requires Inv(s) && Enabled(s, Create(q, id, now)) && CreateStep(s, q, id, now).1.Success?
    requires Possible(CreateStep(s, q, id, now).0, cs)
    requires again.tenant == q.tenant && again.key == q.key && again.approval.tenant == again.tenant
    ensures var first := CreateStep(s, q, id, now).1.value;
      var u := Run(CreateStep(s, q, id, now).0, cs);
      && CreateStep(u, again, id', now').0 == u
      && CreateStep(u, again, id', now').1.Success?
      && Fixed(CreateStep(u, again, id', now').1.value) == Fixed(first)
      && IntentSlot(first) in u.intents && CreateStep(u, again, id', now').1.value == u.intents[IntentSlot(first)]
  {
    var (t, first) := (CreateStep(s, q, id, now).0, CreateStep(s, q, id, now).1.value);
    CreateStores(s, q, id, now);
    CreateKeepsInv(s, q, id, now);
    RunExtends(t, cs);
    RunKeepsInv(t, cs);
    var u := Run(t, cs);
    assert Fixed(u.intents[IntentSlot(first)]).key == u.intents[IntentSlot(first)].key;
    assert KeySlot(Fixed(first)) == KeySlot(first);
    FixedKey(u, IntentSlot(first), first);
    KeyFinds(u, KeySlot(first));
  }

  lemma FixedKey(u: State, k: Slot, first: Intent)
    requires Indexed(u) && k in u.intents && Fixed(u.intents[k]) == Fixed(first) && IntentSlot(first) == k
    ensures KeySlot(u.intents[k]) == KeySlot(first) && KeySlot(first) in u.index
  {
    assert KeySlot(u.intents[k]) == KeySlot(Fixed(u.intents[k]));
  }

  lemma CreateStores(s: State, q: IntentRequest, id: string, now: int)
    requires Inv(s) && CreateStep(s, q, id, now).1.Success?
    ensures var (t, i) := (CreateStep(s, q, id, now).0, CreateStep(s, q, id, now).1.value);
      IntentSlot(i) in t.intents && t.intents[IntentSlot(i)] == i && KeySlot(i) == Slot(q.tenant, q.key)
  {
    KeyFinds(s, Slot(q.tenant, q.key));
  }

  // ---------------------------------------------------------------- approvals behind intents

  /** The call that made the intent, with an approval that was APPROVED when presented. */
  predicate Grounds(c: Call, i: Intent) {
    && c.Create? && c.create.tenant == i.tenant == c.create.approval.tenant && c.create.key == i.key
    && c.create.approval.status.Approved? && c.create.approval.id == i.approval && c.create.approval.digest == i.digest
  }

  lemma StepGrounds(s: State, c: Call, k: Slot)
    requires Inv(s) && Enabled(s, c) && k in Step(s, c).intents && k !in s.intents && !Step(s, c).intents[k].dryRun
    ensures Grounds(c, Step(s, c).intents[k])
  {
    match c
    case Create(q, id, now) =>
      KeyFinds(s, Slot(q.tenant, q.key));
    case Start(q, id, now) =>
      if q.intent in s.intents { StartShape(s, q, id, now); }
      assert false;
    case Complete(n, status, report, now) =>
      if n in s.attempts { CompleteShape(s, n, status, report, now); }
      assert false;
  }

  lemma {:induction false} RunGrounds(s: State, cs: seq<Call>, k: Slot)
    requires Inv(s) && Possible(s, cs) && k in Run(s, cs).intents && !Run(s, cs).intents[k].dryRun
    ensures k in s.intents || exists n :: 0 <= n < |cs| && Grounds(cs[n], Run(s, cs).intents[k])
    decreases |cs|
  {
    if cs != [] && k !in s.intents {
      var t := Step(s, cs[0]);
      StepKeepsInv(s, cs[0]);
      RunGrounds(t, cs[1..], k);
      RunExtends(t, cs[1..]);
      if k in t.intents {
        assert Fixed(t.intents[k]).dryRun == t.intents[k].dryRun;
        assert Fixed(Run(t, cs[1..]).intents[k]).dryRun == Run(t, cs[1..]).intents[k].dryRun;
        StepGrounds(s, cs[0], k);
        FixedGrounds(cs[0], t.intents[k], Run(t, cs[1..]).intents[k]);
        assert Grounds(cs[0], Run(s, cs).intents[k]);
      } else {
        var n :| 0 <= n < |cs[1..]| && Grounds(cs[1..][n], Run(t, cs[1..]).intents[k]);
        assert Grounds(cs[n+1], Run(s, cs).intents[k]);
      }
    }
  }

  lemma FixedGrounds(c: Call, i: Intent, j: Intent)
    requires Grounds(c, i) && Fixed(i) == Fixed(j)
    ensures Grounds(c, j)
  {
    assert Fixed(i).tenant == i.tenant && Fixed(j).tenant == j.tenant && Fixed(i).key == i.key && Fixed(j).key == j.key;
    assert Fixed(i).approval == i.approval && Fixed(j).approval == j.approval && Fixed(i).digest == i.digest
      && Fixed(j).digest == j.digest;
  }

  /** Every stored intent that is not a dry run was created for an approval that was APPROVED when it was presented. */
  lemma IntentsAreGrounded(cs: seq<Call>, k: Slot)
    requires Possible(INITIAL, cs) && k in Run(INITIAL, cs).intents && !Run(INITIAL, cs).intents[k].dryRun
    ensures exists n :: 0 <= n < |cs| && Grounds(cs[n], Run(INITIAL, cs).intents[k])
  {
    ReachableInv([]);
    RunGrounds(INITIAL, cs, k);
  }

  /**
   * Both services together: an intent made from a record the approval service holds rests on a logged, timely grant of
   * that payload.
   */
  lemma IntentRestsOnGrant(cfg: Approval.Config, approvals: seq<ApprovalHistory.Call>, a: Slot, c: Call, i: Intent)
    requires ApprovalHistory.Possible(cfg, Approval.INITIAL, approvals)
    requires a in ApprovalHistory.Run(cfg, Approval.INITIAL, approvals).store
    requires Grounds(c, i) && c.create.approval == ApprovalHistory.Run(cfg, Approval.INITIAL, approvals).store[a]
    ensures var s := ApprovalHistory.Run(cfg, Approval.INITIAL, approvals);
      exists n :: 0 <= n < |s.grants| && s.grants[n].slot == a && s.grants[n].expected == i.digest
        && i.digest == cfg.hash(Approval.PayloadOf(s.store[a])) && s.grants[n].at < s.store[a].expiry
  {
    var s := ApprovalHistory.Run(cfg, Approval.INITIAL, approvals);
    ApprovalHistory.ReachableInv(cfg, approvals);
    ApprovalTheorems.ApprovedWasGranted(cfg, approvals, a);
    var n :| 0 <= n < |s.grants| && s.grants[n].slot == a;
    ApprovalTheorems.GrantsAreProper(cfg, approvals, n);
    assert ApprovalHistory.Sound(cfg, s.store[a]);
  }
}
