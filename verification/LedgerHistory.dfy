/** What every sequential run of action ledger calls keeps: one intent per key, attempts numbered 1 to n. */
module LedgerHistory {
  import opened Wrappers
  import opened TenantStore
  import opened ActionLedger

  // ---------------------------------------------------------------- runs

  datatype Call =
    | Create(create: IntentRequest, id: string, now: int)
    | Start(start: StartRequest, id: string, now: int)
    | Complete(slot: Slot, status: AttemptStatus, report: Report, now: int)

  /** Generated ids are not empty and not in use by the tenant. */
  predicate Enabled(s: State, c: Call) {
    match c
    case Create(q, id, _) => id != "" && Slot(q.tenant, id) !in s.intents
    case Start(q, id, _) => id != "" && Slot(q.intent.tenant, id) !in s.attempts
    case Complete(_, _, _, _) => true
  }

  function Step(s: State, c: Call): State {
    match c
    case Create(q, id, now) => CreateStep(s, q, id, now).0
    case Start(q, id, now) => StartStep(s, q, id, now).0
    case Complete(k, status, report, now) => CompleteStep(s, k, status, report, now).0
  }

  predicate Possible(s: State, cs: seq<Call>)
    decreases |cs|
  {
    cs == [] || (Enabled(s, cs[0]) && Possible(Step(s, cs[0]), cs[1..]))
  }

  function Run(s: State, cs: seq<Call>): State
    decreases |cs|
  {
    if cs == [] then s else Run(Step(s, cs[0]), cs[1..])
  }

  // ---------------------------------------------------------------- the invariant

  /** Stored intents and index entries correspond one to one. */
  ghost predicate Indexed(s: State) {
    && (forall k {:trigger s.intents[k]} :: k in s.intents ==>
          var i := s.intents[k];
          IntentSlot(i) == k && i.id != "" && i.key != "" && KeySlot(i) in s.index && s.index[KeySlot(i)] == i.id)
    && (forall j {:trigger s.index[j]} :: j in s.index ==>
          Slot(j.tenant, s.index[j]) in s.intents && s.intents[Slot(j.tenant, s.index[j])].key == j.id)
  }

  /** Where an attempt belongs. */
  function Parent(s: State, a: Slot): Slot
    requires a in s.attempts
  {
    Slot(a.tenant, s.attempts[a].intent)
  }

  ghost predicate Attached(s: State) {
    AttemptsKeyed(s.attempts) && forall a {:trigger s.attempts[a]} :: a in s.attempts ==> Parent(s, a) in s.intents
  }

  /** The attempts of an intent carry the numbers 1 to n, each exactly once. */
  ghost predicate Numbered(attempts: map<Slot, Attempt>, k: Slot) {
    OneToN(AttemptsOf(attempts, k), attempts)
  }

  ghost predicate OneToN(own: set<Slot>, attempts: map<Slot, Attempt>)
    requires own <= attempts.Keys
  {
    && (forall a :: a in own ==> 1 <= attempts[a].number <= |own|)
    && (forall a, b {:trigger attempts[a], attempts[b]} ::
        a in own && b in own && attempts[a].number == attempts[b].number ==> a == b)
  }

  /** The last completion that moved the intent decides; without one, any attempt makes it DISPATCHED. */
  function StatusFrom(outcomes: seq<Outcome>, k: Slot, attempted: bool): IntentStatus {
    if outcomes == [] then (if attempted then Dispatched else Initialized)
    else
      var last := outcomes[|outcomes|-1];
      if last.intent == k && Effect(last.status).Some? then Effect(last.status).value
      else StatusFrom(outcomes[..|outcomes|-1], k, attempted)
  }

  ghost predicate StatusOk(s: State, k: Slot) {
    k in s.intents ==> s.intents[k].status == StatusFrom(s.outcomes, k, AttemptsOf(s.attempts, k) != {})
  }

  /** Only intents with attempts have outcomes. */
  ghost predicate OutcomesOk(s: State) {
    forall n :: 0 <= n < |s.outcomes| ==>
      s.outcomes[n].intent in s.intents && AttemptsOf(s.attempts, s.outcomes[n].intent) != {}
  }

  ghost predicate Inv(s: State) {
    && Indexed(s) && Attached(s) && OutcomesOk(s)
    && (forall k :: Numbered(s.attempts, k))
    && (forall k :: StatusOk(s, k))
  }

  // ---------------------------------------------------------------- creating

  lemma {:induction false} NoOutcome(outcomes: seq<Outcome>, k: Slot, attempted: bool)
    requires forall n :: 0 <= n < |outcomes| ==> outcomes[n].intent != k
    ensures StatusFrom(outcomes, k, attempted) == if attempted then Dispatched else Initialized
  {
    if outcomes != [] {
      NoOutcome(outcomes[..|outcomes|-1], k, attempted);
    }
  }

  lemma FreshIntent(s: State, k: Slot)
    requires Inv(s) && k !in s.intents
    ensures AttemptsOf(s.attempts, k) == {} && StatusFrom(s.outcomes, k, false) == Initialized
  {
    forall a | a in s.attempts ensures a !in AttemptsOf(s.attempts, k) {
      assert Parent(s, a) in s.intents;
    }
    NoOutcome(s.outcomes, k, false);
  }

  /** A stored intent is found again under its key, and only it. */
  lemma KeyFinds(s: State, j: Slot)
    requires Indexed(s)
    ensures FindByKey(s.intents, s.index, j).Some? <==> j in s.index
    ensures j in s.index ==> var i := FindByKey(s.intents, s.index, j).value;
      IntentSlot(i) in s.intents && s.intents[IntentSlot(i)] == i && KeySlot(i) == j
    ensures forall k :: k in s.intents && KeySlot(s.intents[k]) == j ==>
      FindByKey(s.intents, s.index, j) == Some(s.intents[k])
  {
    if j in s.index {
      var i := s.intents[Slot(j.tenant, s.index[j])];
      assert IntentSlot(i) == Slot(j.tenant, s.index[j]);
    }
    forall k | k in s.intents && KeySlot(s.intents[k]) == j
      ensures FindByKey(s.intents, s.index, j) == Some(s.intents[k])
    {
      assert IntentSlot(s.intents[k]) == k;
    }
  }

  lemma NewKeepsIndexed(s: State, i: Intent)
    requires Indexed(s) && IntentSlot(i) !in s.intents && KeySlot(i) !in s.index && i.id != "" && i.key != ""
    ensures Indexed(WriteIntent(s, i))
  {
  }

  lemma NewKeepsStatuses(s: State, i: Intent)
    requires Inv(s) && IntentSlot(i) !in s.intents && i.status == Initialized
    ensures forall k :: StatusOk(WriteIntent(s, i), k)
  {
    hide Indexed, StatusFrom, AttemptsOf, Numbered;
    FreshIntent(s, IntentSlot(i));
    var t := WriteIntent(s, i);
    forall k ensures StatusOk(t, k) { assert StatusOk(s, k); }
  }

  lemma CreateKeepsInv(s: State, q: IntentRequest, id: string, now: int)
    requires Inv(s) && Enabled(s, Create(q, id, now))
    ensures Inv(CreateStep(s, q, id, now).0)
  {
    var i := NewIntent(q, id, now);
    KeyFinds(s, KeySlot(i));
    if CreateStep(s, q, id, now).0 != s {
      hide Indexed, StatusOk, FindByKey, Numbered, AttemptsOf;
      NewKeepsIndexed(s, i);
      NewKeepsStatuses(s, i);
    }
  }

  // ---------------------------------------------------------------- starting an attempt

  lemma {:induction false} AttemptedIsPast(outcomes: seq<Outcome>, k: Slot)
    ensures StatusFrom(outcomes, k, true) != Initialized
  {
    if outcomes != [] {
      AttemptedIsPast(outcomes[..|outcomes|-1], k);
    }
  }

  /** An intent is INITIALIZED exactly while it has no attempts. */
  lemma InitializedIffUntried(s: State, k: Slot)
    requires Inv(s) && k in s.intents
    ensures s.intents[k].status == Initialized <==> AttemptsOf(s.attempts, k) == {}
  {
    assert StatusOk(s, k);
    AttemptedIsPast(s.outcomes, k);
    if AttemptsOf(s.attempts, k) == {} {
      NoOutcome(s.outcomes, k, false);
    }
  }

  lemma AttemptAdded(attempts: map<Slot, Attempt>, a: Attempt, k: Slot)
    requires AttemptSlot(a) !in attempts
    ensures AttemptsOf(attempts[AttemptSlot(a) := a], k)
         == AttemptsOf(attempts, k) + (if k == Slot(a.tenant, a.intent) then {AttemptSlot(a)} else {})
    ensures AttemptSlot(a) !in AttemptsOf(attempts, k)
  {
    assert k == Slot(k.tenant, k.id);
  }

  lemma OneToNGrows(own: set<Slot>, attempts: map<Slot, Attempt>, n: Slot, a: Attempt)
    requires own <= attempts.Keys && OneToN(own, attempts) && n !in attempts
    ensures OneToN(own, attempts[n := a])
    ensures a.number == |own| + 1 ==> OneToN(own + {n}, attempts[n := a])
  {
    var more := attempts[n := a];
    assert forall x :: x in own ==> x != n && more[x] == attempts[x];
    assert |own + {n}| == |own| + 1;
  }

  lemma AttemptNumbered(attempts: map<Slot, Attempt>, a: Attempt, k: Slot)
    requires Numbered(attempts, k) && AttemptSlot(a) !in attempts
    requires k == Slot(a.tenant, a.intent) ==> a.number == |AttemptsOf(attempts, k)| + 1
    ensures Numbered(attempts[AttemptSlot(a) := a], k)
  {
    hide OneToN;
    AttemptAdded(attempts, a, k);
    OneToNGrows(AttemptsOf(attempts, k), attempts, AttemptSlot(a), a);
    assert AttemptsOf(attempts, k) + {} == AttemptsOf(attempts, k);
  }

  /** An intent's status changes; its key and its index entry stay. */
  lemma RestatusKeepsIndexed(s: State, k: Slot, status: IntentStatus)
    requires Indexed(s) && k in s.intents
    ensures var t := WriteIntent(s, s.intents[k].(status := status));
      Indexed(t) && t == s.(intents := s.intents[k := s.intents[k].(status := status)])
  {
    assert IntentSlot(s.intents[k]) == k;
    assert WriteIntent(s, s.intents[k].(status := status)).index == s.index;
  }

  function StartedIntents(intents: map<Slot, Intent>, k: Slot): map<Slot, Intent>
    requires k in intents
  {
    if intents[k].status.Initialized? then intents[k := intents[k].(status := Dispatched)] else intents
  }

  lemma DispatchShape(s: State, k: Slot)
    requires Indexed(s) && k in s.intents
    ensures Dispatch(s, k) == s.(intents := StartedIntents(s.intents, k)) && Indexed(Dispatch(s, k))
  {
    hide Indexed, WriteIntent;
    RestatusKeepsIndexed(s, k, Dispatched);
  }

  /** What a successful start changes. */
  lemma StartShape(s: State, q: StartRequest, id: string, now: int)
    requires Indexed(s) && q.intent in s.intents
    ensures var a := NewAttempt(s, q, id, now);
      var t := StartStep(s, q, id, now).0;
      Indexed(t) && t == s.(attempts := s.attempts[AttemptSlot(a) := a], intents := StartedIntents(s.intents, q.intent))
  {
    hide Indexed, NewAttempt, Dispatch, StartedIntents;
    var a := NewAttempt(s, q, id, now);
    var t := s.(attempts := s.attempts[AttemptSlot(a) := a]);
    SameIndexed(s, t);
    DispatchShape(t, q.intent);
  }

  lemma SameIndexed(s: State, t: State)
    requires Indexed(s) && t.intents == s.intents && t.index == s.index
    ensures Indexed(t)
  {
  }

  lemma StartKeepsInv(s: State, q: StartRequest, id: string, now: int)
    requires Inv(s) && Enabled(s, Start(q, id, now))
    ensures Inv(StartStep(s, q, id, now).0)
  {
    if q.intent in s.intents {
      var a, t := NewAttempt(s, q, id, now), StartStep(s, q, id, now).0;
      assert Slot(a.tenant, a.intent) == q.intent;
      StartShape(s, q, id, now);
      StartAttaches(s, t, a);
      hide StartStep, NewAttempt, Indexed, Attached, OutcomesOk, Numbered, StatusOk, AttemptsOf;
      forall k ensures Numbered(t.attempts, k) {
        AttemptNumbered(s.attempts, a, k);
      }
      forall k ensures StatusOk(t, k) {
        StartStatusOk(s, t, a, k);
      }
    }
  }

  lemma StartStatusOk(s: State, t: State, a: Attempt, k: Slot)
    requires Inv(s) && AttemptSlot(a) !in s.attempts
    requires Slot(a.tenant, a.intent) in s.intents
    requires t == s.(attempts := s.attempts[AttemptSlot(a) := a],
      intents := StartedIntents(s.intents, Slot(a.tenant, a.intent)))
    ensures StatusOk(t, k)
  {
    if k in s.intents {
      assert StatusOk(s, k);
      AttemptAdded(s.attempts, a, k);
      StartStatus(s, k);
    }
  }

  lemma StartStatus(s: State, k: Slot)
    requires Inv(s) && k in s.intents
    ensures StatusFrom(s.outcomes, k, true)
      == if s.intents[k].status == Initialized then Dispatched else s.intents[k].status
  {
    assert StatusOk(s, k);
    AttemptedIsPast(s.outcomes, k);
    if AttemptsOf(s.attempts, k) == {} {
      NoOutcome(s.outcomes, k, false);
      NoOutcome(s.outcomes, k, true);
    }
  }

  lemma StartAttaches(s: State, t: State, a: Attempt)
    requires Attached(s) && OutcomesOk(s) && AttemptSlot(a) !in s.attempts && Slot(a.tenant, a.intent) in s.intents
    requires t.attempts == s.attempts[AttemptSlot(a) := a] && t.outcomes == s.outcomes
      && t.intents.Keys == s.intents.Keys
    ensures Attached(t) && OutcomesOk(t)
  {
    forall x | x in t.attempts ensures Parent(t, x) in t.intents {
      if x != AttemptSlot(a) { assert Parent(s, x) in s.intents; }
    }
    forall n | 0 <= n < |t.outcomes| ensures AttemptsOf(t.attempts, t.outcomes[n].intent) != {} {
      AttemptAdded(s.attempts, a, t.outcomes[n].intent);
    }
  }

  // ---------------------------------------------------------------- completing an attempt

  /** A completion leaves an attempt's intent and number alone. */
  lemma CompletionKeepsNumbers(attempts: map<Slot, Attempt>, n: Slot, a: Attempt, k: Slot)
    requires n in attempts && a.intent == attempts[n].intent && a.number == attempts[n].number
    ensures AttemptsOf(attempts[n := a], k) == AttemptsOf(attempts, k)
    ensures Numbered(attempts, k) ==> Numbered(attempts[n := a], k)
  {
    assert AttemptsOf(attempts[n := a], k) == AttemptsOf(attempts, k);
  }

  lemma OutcomeAdded(outcomes: seq<Outcome>, o: Outcome, k: Slot, attempted: bool)
    ensures StatusFrom(outcomes + [o], k, attempted)
      == if o.intent == k && Effect(o.status).Some? then Effect(o.status).value
         else StatusFrom(outcomes, k, attempted)
  {
    assert (outcomes + [o])[..|outcomes|] == outcomes;
  }

  function SettledIntents(intents: map<Slot, Intent>, k: Slot, status: AttemptStatus): map<Slot, Intent>
    requires k in intents
  {
    if Effect(status).Some? then intents[k := intents[k].(status := Effect(status).value)] else intents
  }

  lemma SettleShape(s: State, k: Slot, status: AttemptStatus)
    requires Indexed(s) && k in s.intents
    ensures Settle(s, k, status) == s.(intents := SettledIntents(s.intents, k, status)) && Indexed(Settle(s, k, status))
  {
    hide Indexed, WriteIntent, Effect;
    if Effect(status).Some? { RestatusKeepsIndexed(s, k, Effect(status).value); }
  }

  function Finished(a: Attempt, status: AttemptStatus, report: Report, now: int): Attempt {
    a.(status := status, report := report, completedAt := Some(now))
  }

  /** What a successful completion changes. */
  lemma CompleteShape(s: State, n: Slot, status: AttemptStatus, report: Report, now: int)
    requires Indexed(s) && Attached(s) && n in s.attempts
    ensures Parent(s, n) in s.intents && AttemptSlot(s.attempts[n]) == n
    ensures var t := CompleteStep(s, n, status, report, now).0;
      Indexed(t) && t == s.(attempts := s.attempts[n := Finished(s.attempts[n], status, report, now)],
                            outcomes := s.outcomes + [Outcome(Parent(s, n), status)],
                            intents := SettledIntents(s.intents, Parent(s, n), status))
  {
    assert AttemptSlot(s.attempts[n]) == n && Parent(s, n) in s.intents;
    hide Indexed, Attached, Settle, SettledIntents;
    var t := s.(attempts := s.attempts[n := Finished(s.attempts[n], status, report, now)],
                outcomes := s.outcomes + [Outcome(Parent(s, n), status)]);
    SameIndexed(s, t);
    SettleShape(t, Parent(s, n), status);
  }

  lemma CompleteKeepsInv(s: State, n: Slot, status: AttemptStatus, report: Report, now: int)
    requires Inv(s)
    ensures Inv(CompleteStep(s, n, status, report, now).0)
  {
    if n in s.attempts {
      var a, o := Finished(s.attempts[n], status, report, now), Outcome(Parent(s, n), status);
      var t := CompleteStep(s, n, status, report, now).0;
      CompleteShape(s, n, status, report, now);
      CompleteAttaches(s, t, n, a, o);
      hide CompleteStep, Indexed, Attached, OutcomesOk, Numbered, StatusOk, AttemptsOf;
      forall k ensures Numbered(t.attempts, k) {
        CompletionKeepsNumbers(s.attempts, n, a, k);
      }
      forall k ensures StatusOk(t, k) {
        CompleteStatusOk(s, t, n, a, status, k);
      }
    }
  }

  lemma CompleteStatusOk(s: State, t: State, n: Slot, a: Attempt, status: AttemptStatus, k: Slot)
    requires StatusOk(s, k) && n in s.attempts && Parent(s, n) in s.intents
    requires a.intent == s.attempts[n].intent && a.number == s.attempts[n].number
    requires t == s.(attempts := s.attempts[n := a], outcomes := s.outcomes + [Outcome(Parent(s, n), status)],
                     intents := SettledIntents(s.intents, Parent(s, n), status))
    ensures StatusOk(t, k)
  {
    CompletionKeepsNumbers(s.attempts, n, a, k);
    OutcomeAdded(s.outcomes, Outcome(Parent(s, n), status), k, AttemptsOf(s.attempts, k) != {});
    hide StatusFrom, Effect, Numbered;
  }

  lemma CompleteAttaches(s: State, t: State, n: Slot, a: Attempt, o: Outcome)
    requires Attached(s) && OutcomesOk(s) && n in s.attempts && AttemptSlot(a) == n
    requires a.intent == s.attempts[n].intent && a.number == s.attempts[n].number && o.intent == Parent(s, n)
    requires t.attempts == s.attempts[n := a] && t.outcomes == s.outcomes + [o] && t.intents.Keys == s.intents.Keys
    ensures Attached(t) && OutcomesOk(t)
  {
    assert Parent(s, n) in s.intents;
    forall x | x in t.attempts ensures Parent(t, x) in t.intents {
      assert Parent(s, x) in s.intents;
    }
    forall m | 0 <= m < |t.outcomes|
      ensures t.outcomes[m].intent in t.intents && AttemptsOf(t.attempts, t.outcomes[m].intent) != {}
    {
      CompletionKeepsNumbers(s.attempts, n, a, t.outcomes[m].intent);
      assert n in AttemptsOf(s.attempts, o.intent);
      if m < |s.outcomes| { assert t.outcomes[m] == s.outcomes[m]; }
    }
  }

  // ---------------------------------------------------------------- runs keep the invariant

  lemma StepKeepsInv(s: State, c: Call)
    requires Inv(s) && Enabled(s, c)
    ensures Inv(Step(s, c))
  {
    hide Inv, CreateStep, StartStep, CompleteStep;
    match c
    case Create(q, id, now) => CreateKeepsInv(s, q, id, now);
    case Start(q, id, now) => StartKeepsInv(s, q, id, now);
    case Complete(k, status, report, now) => CompleteKeepsInv(s, k, status, report, now);
  }

  lemma {:induction false} RunKeepsInv(s: State, cs: seq<Call>)
    requires Inv(s) && Possible(s, cs)
    ensures Inv(Run(s, cs))
    decreases |cs|
  {
    if cs != [] {
      hide Inv, Step, Enabled;
      StepKeepsInv(s, cs[0]);
      RunKeepsInv(Step(s, cs[0]), cs[1..]);
    }
  }

  lemma ReachableInv(cs: seq<Call>)
    requires Possible(INITIAL, cs)
    ensures Inv(Run(INITIAL, cs))
  {
    assert Inv(INITIAL) by {
      forall k ensures Numbered(INITIAL.attempts, k) && StatusOk(INITIAL, k) {
        assert AttemptsOf(INITIAL.attempts, k) == {};
      }
    }
    RunKeepsInv(INITIAL, cs);
  }
}
