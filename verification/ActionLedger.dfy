/**
 * The action ledger service over its two in-memory repositories: intents under idempotency keys, and dispatch attempts.
 */
module ActionLedger {
  import opened Wrappers
  import opened TenantStore
  import opened Sequences
  import opened StableSort
  import Approval = ApprovalService

  datatype Classification = Reversible | Compensatable | PartiallyCompensatable | Irreversible | ManualReconciliation

  datatype IntentStatus = Initialized | Dispatched | Completed | Failed | Reconciling

  datatype AttemptStatus = Started | Succeeded | ProviderError | TimeoutUnknown | Reconciled | Compensated

  datatype Intent = Intent(
    id: string, tenant: string, approval: string, key: string, action: string, classification: Classification,
    targetCount: nat, digest: string, dryRun: bool, status: IntentStatus, createdAt: int)

  datatype Report = Report(responseDigest: Option<string>, httpStatus: Option<int>, transaction: Option<string>,
                           error: Option<string>)

  datatype Attempt = Attempt(
    id: string, tenant: string, intent: string, number: int, key: string, provider: string, requestDigest: string,
    report: Report, status: AttemptStatus, startedAt: int, completedAt: Option<int>)

  datatype ActionError = TenantMismatch | ApprovalNotGranted | InvalidKey | IntentNotFound | LedgerNotFound

  const NO_REPORT := Report(None, None, None, None)

  function IntentSlot(i: Intent): Slot {
    Slot(i.tenant, i.id)
  }

  function KeySlot(i: Intent): Slot {
    Slot(i.tenant, i.key)
  }

  function AttemptSlot(a: Attempt): Slot {
    Slot(a.tenant, a.id)
  }

  // ---------------------------------------------------------------- state and steps

  datatype Outcome = Outcome(intent: Slot, status: AttemptStatus)

  /** `index` is the idempotency index; `outcomes` logs the completions, and no call reads it. */
  datatype State = State(intents: map<Slot, Intent>, index: map<Slot, string>, attempts: map<Slot, Attempt>,
                         outcomes: seq<Outcome>)

  const INITIAL := State(map[], map[], map[], [])

  /** Saving and updating are the same write: the record and its index entry. */
  function WriteIntent(s: State, i: Intent): State {
    s.(intents := s.intents[IntentSlot(i) := i], index := s.index[KeySlot(i) := i.id])
  }

  function FindByKey(intents: map<Slot, Intent>, index: map<Slot, string>, k: Slot): Option<Intent> {
    if k in index && index[k] != "" && Slot(k.tenant, index[k]) in intents then
      Some(intents[Slot(k.tenant, index[k])])
    else None
  }

  function AttemptsOf(attempts: map<Slot, Attempt>, k: Slot): set<Slot> {
    set a | a in attempts && a.tenant == k.tenant && attempts[a].intent == k.id
  }

  datatype IntentRequest = IntentRequest(
    tenant: string, approval: Approval.Record, key: string, classification: Classification, dryRun: bool)

  function NewIntent(q: IntentRequest, id: string, now: int): Intent {
    Intent(id, q.tenant, q.approval.id, q.key, q.approval.action, q.classification, |q.approval.targets|,
           q.approval.digest, q.dryRun, Initialized, now)
  }

  function CreateStep(s: State, q: IntentRequest, id: string, now: int): (State, Result<Intent, ActionError>) {
    if q.tenant != q.approval.tenant then (s, Failure(TenantMismatch))
    else if FindByKey(s.intents, s.index, Slot(q.tenant, q.key)).Some? then
      (s, Success(FindByKey(s.intents, s.index, Slot(q.tenant, q.key)).value))
    else if !q.dryRun && !q.approval.status.Approved? then (s, Failure(ApprovalNotGranted))
    else if q.key == "" then (s, Failure(InvalidKey))
    else (WriteIntent(s, NewIntent(q, id, now)), Success(NewIntent(q, id, now)))
  }

  datatype StartRequest = StartRequest(intent: Slot, key: string, provider: string, requestDigest: string)

  function NewAttempt(s: State, q: StartRequest, id: string, now: int): Attempt {
    Attempt(id, q.intent.tenant, q.intent.id, |AttemptsOf(s.attempts, q.intent)| + 1, q.key, q.provider,
            q.requestDigest, NO_REPORT, Started, now, None)
  }

  function StartStep(s: State, q: StartRequest, id: string, now: int): (State, Result<Attempt, ActionError>) {
    if q.intent !in s.intents then (s, Failure(IntentNotFound))
    else
      var a := NewAttempt(s, q, id, now);
      (Dispatch(s.(attempts := s.attempts[AttemptSlot(a) := a]), q.intent), Success(a))
  }

  /** The first attempt moves an intent on. */
  function Dispatch(s: State, k: Slot): State
    requires k in s.intents
  {
    if s.intents[k].status.Initialized? then WriteIntent(s, s.intents[k].(status := Dispatched)) else s
  }

  /** The outcomes that move an intent, and where to. */
  function Effect(status: AttemptStatus): Option<IntentStatus> {
    match status
    case Succeeded => Some(Completed)
    case ProviderError => Some(Failed)
    case TimeoutUnknown => Some(Reconciling)
    case _ => None
  }

  function CompleteStep(s: State, k: Slot, status: AttemptStatus, report: Report,
                        now: int): (State, Result<Attempt, ActionError>)
  {
    if k !in s.attempts then (s, Failure(LedgerNotFound))
    else
      var a := s.attempts[k].(status := status, report := report, completedAt := Some(now));
      var parent := Slot(k.tenant, a.intent);
      var t := s.(attempts := s.attempts[AttemptSlot(a) := a], outcomes := s.outcomes + [Outcome(parent, status)]);
      (Settle(t, parent, status), Success(a))
  }

  /** A decisive outcome moves the parent intent, if it is stored. */
  function Settle(s: State, parent: Slot, status: AttemptStatus): State {
    if parent in s.intents && Effect(status).Some? then
      WriteIntent(s, s.intents[parent].(status := Effect(status).value))
    else s
  }

  // ---------------------------------------------------------------- the repositories

  class IntentRepository {
    var storage: Nested<Intent>
    var index: Nested<string>

    /** Storage and index open a tenant together; a write relies on it. */
    ghost predicate Valid()
      reads this
    {
      storage.Keys == index.Keys
    }

    ghost function Table(): map<Slot, Intent>
      reads this
    {
      Flat(storage)
    }

    ghost function Index(): map<Slot, string>
      reads this
    {
      Flat(index)
    }

    constructor ()
      ensures Valid() && Table() == map[] && Index() == map[]
    {
      storage, index := map[], map[];
    }

    method Save(i: Intent)
      requires Valid()
      modifies this
      ensures Valid()
      ensures Table() == old(Table())[IntentSlot(i) := i] && Index() == old(Index())[KeySlot(i) := i.id]
    {
      hide Flat, Opened, Stored;
      PutIsUpdate(storage, i.tenant, i.id, i);
      PutIsUpdate(index, i.tenant, i.key, i.id);
      if i.tenant !in storage {
        storage := Opened(storage, i.tenant);
        index := Opened(index, i.tenant);
      }
      storage := Stored(storage, i.tenant, i.id, i);
      index := Stored(index, i.tenant, i.key, i.id);
    }

    method Find(tenant: string, id: string) returns (i: Option<Intent>)
      ensures i == if Slot(tenant, id) in Table() then Some(Table()[Slot(tenant, id)]) else None
    {
      i := Get(storage, tenant, id);
    }

    method FindByIdempotencyKey(tenant: string, key: string) returns (i: Option<Intent>)
      ensures i == FindByKey(Table(), Index(), Slot(tenant, key))
    {
      var id := Get(index, tenant, key);
      if id.None? || id.value == "" {
        return None;
      }
      i := Get(storage, tenant, id.value);
    }

    method Update(i: Intent)
      requires Valid()
      modifies this
      ensures Valid()
      ensures Table() == old(Table())[IntentSlot(i) := i] && Index() == old(Index())[KeySlot(i) := i.id]
    {
      Save(i);
    }
  }

  predicate ByNumber(a: Attempt, b: Attempt) {
    a.number <= b.number
  }

  ghost predicate AttemptsKeyed(attempts: map<Slot, Attempt>) {
    forall k {:trigger attempts[k]} :: k in attempts ==> AttemptSlot(attempts[k]) == k
  }

  lemma TenantSlots(storage: Nested<Attempt>, tenant: string)
    ensures forall k :: k in Flat(storage) && k.tenant == tenant ==> tenant in storage && k.id in storage[tenant]
  {
    forall k | k in Flat(storage) && k.tenant == tenant ensures tenant in storage && k.id in storage[tenant] {
      FlatAt(storage, k);
    }
  }

  class LedgerRepository {
    var storage: Nested<Attempt>

    ghost function Table(): map<Slot, Attempt>
      reads this
    {
      Flat(storage)
    }

    constructor ()
      ensures Table() == map[]
    {
      storage := map[];
    }

    method Save(a: Attempt)
      modifies this
      ensures Table() == old(Table())[AttemptSlot(a) := a]
    {
      PutIsUpdate(storage, a.tenant, a.id, a);
      storage := Put(storage, a.tenant, a.id, a);
    }

    method Find(tenant: string, id: string) returns (a: Option<Attempt>)
      ensures a == if Slot(tenant, id) in Table() then Some(Table()[Slot(tenant, id)]) else None
    {
      a := Get(storage, tenant, id);
    }

    /** All attempts of an intent, each once, in the order of their numbers. */
    method ListByIntent(tenant: string, intent: string) returns (found: seq<Attempt>)
      requires AttemptsKeyed(Table())
      ensures Lists(Table(), Slot(tenant, intent), found)
    {
      hide Flat, SortedBy;
      found := [];
      var ids := if tenant in storage then storage[tenant].Keys else {};
      ghost var all := AttemptsOf(Table(), Slot(tenant, intent));
      ghost var seen: set<Slot> := {};
      TenantSlots(storage, tenant);
      while ids != {}
        invariant tenant !in storage ==> ids == {}
        invariant tenant in storage ==> ids <= storage[tenant].Keys
        invariant seen <= all && forall k :: k in all ==> (k in seen <==> k.id !in ids)
        invariant forall a :: a in found <==> AttemptSlot(a) in seen && Table()[AttemptSlot(a)] == a
        invariant |found| == |seen| && Distinct(found)
      {
        var id :| id in ids;
        var a := storage[tenant][id];
        assert a == Table()[Slot(tenant, id)] && AttemptSlot(a) == Slot(tenant, id) by {
          FlatAt(storage, Slot(tenant, id));
        }
        if a.intent == intent {
          found := found + [a];
          seen := seen + {Slot(tenant, id)};
        }
        ids := ids - {id};
      }
      assert seen == all;
      SortMembers(found, ByNumber);
      SortSorts(found, ByNumber);
      SortKeepsDistinct(found, ByNumber);
      found := Sort(found, ByNumber);
    }

    method Update(a: Attempt)
      modifies this
      ensures Table() == old(Table())[AttemptSlot(a) := a]
    {
      Save(a);
    }
  }

  /** `found` holds the intent's attempts and nothing else, one entry for each, sorted by number. */
  ghost predicate Lists(attempts: map<Slot, Attempt>, k: Slot, found: seq<Attempt>) {
    && (forall a :: a in found <==> AttemptSlot(a) in AttemptsOf(attempts, k) && attempts[AttemptSlot(a)] == a)
    && |found| == |AttemptsOf(attempts, k)| && Distinct(found)
    && SortedBy(found, ByNumber)
  }

  lemma ListLength(attempts: map<Slot, Attempt>, k: Slot, found: seq<Attempt>)
    requires Lists(attempts, k, found)
    ensures |found| == |AttemptsOf(attempts, k)|
  {
  }

  // ---------------------------------------------------------------- the service

  class Service {
    const intents: IntentRepository
    const ledger: LedgerRepository
    ghost var outcomes: seq<Outcome>

    ghost function View(): State
      reads this, intents, ledger
    {
      State(intents.Table(), intents.Index(), ledger.Table(), outcomes)
    }

    ghost predicate Valid()
      reads intents, ledger
    {
      intents.Valid() && AttemptsKeyed(ledger.Table())
    }

    constructor (intents: IntentRepository, ledger: LedgerRepository)
      requires intents.Valid() && intents.Table() == map[] && intents.Index() == map[] && ledger.Table() == map[]
      ensures this.intents == intents && this.ledger == ledger && Valid() && View() == INITIAL
    {
      this.intents, this.ledger := intents, ledger;
      outcomes := [];
    }

    method CreateIntent(q: IntentRequest, id: string, now: int) returns (r: Result<Intent, ActionError>)
      requires Valid()
      modifies intents
      ensures Valid() && (View(), r) == CreateStep(old(View()), q, id, now)
    {
      hide Flat, FindByKey;
      if q.tenant != q.approval.tenant { return Failure(TenantMismatch); }
      var existing := intents.FindByIdempotencyKey(q.tenant, q.key);
      if existing.Some? { return Success(existing.value); }
      if !q.dryRun && q.approval.status != Approval.Approved { return Failure(ApprovalNotGranted); }
      if q.key == "" { return Failure(InvalidKey); }
      var intent := Intent(id, q.tenant, q.approval.id, q.key, q.approval.action, q.classification,
                           |q.approval.targets|, q.approval.digest, q.dryRun, Initialized, now);
      intents.Save(intent);
      r := Success(intent);
    }

    method RecordAttemptStart(q: StartRequest, id: string, now: int) returns (r: Result<Attempt, ActionError>)
      requires Valid()
      modifies intents, ledger
      ensures Valid() && (View(), r) == StartStep(old(View()), q, id, now)
    {
      hide Flat, AttemptsOf, Lists;
      assert q.intent == Slot(q.intent.tenant, q.intent.id);
      var intent := intents.Find(q.intent.tenant, q.intent.id);
      if intent.None? { return Failure(IntentNotFound); }
      var existing := ledger.ListByIntent(q.intent.tenant, q.intent.id);
      ListLength(ledger.Table(), q.intent, existing);
      var attempt := Attempt(id, q.intent.tenant, q.intent.id, |existing| + 1, q.key, q.provider, q.requestDigest,
                             NO_REPORT, Started, now, None);
      ledger.Save(attempt);
      if intent.value.status == Initialized {
        intents.Update(intent.value.(status := Dispatched));
      }
      r := Success(attempt);
    }

    method RecordAttemptCompletion(tenant: string, id: string, status: AttemptStatus, report: Report, now: int)
      returns (r: Result<Attempt, ActionError>)
      requires Valid()
      modifies this, intents, ledger
      ensures Valid() && (View(), r) == CompleteStep(old(View()), Slot(tenant, id), status, report, now)
    {
      hide Flat;
      var found := ledger.Find(tenant, id);
      if found.None? { return Failure(LedgerNotFound); }
      var updated := found.value.(status := status, report := report, completedAt := Some(now));
      assert AttemptSlot(found.value) == Slot(tenant, id);
      ledger.Update(updated);
      outcomes := outcomes + [Outcome(Slot(tenant, updated.intent), status)];
      var intent := intents.Find(tenant, found.value.intent);
      if intent.Some? {
        match status {
          case Succeeded => intents.Update(intent.value.(status := Completed));
          case ProviderError => intents.Update(intent.value.(status := Failed));
          case TimeoutUnknown => intents.Update(intent.value.(status := Reconciling));
          case _ =>
        }
      }
      r := Success(updated);
    }
  }
}
