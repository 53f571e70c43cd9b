/** The approval service over its in-memory repository: one call is one atomic step with a fresh id. */
module ApprovalService {
  import opened Wrappers
  import opened TenantStore
  import opened Sequences
  import opened StableSort

  datatype Risk = Low | Medium | High | Critical

  datatype Status =
    | Draft | Pending | Approved | Rejected | Amended | Expired | Revoked | Superseded
    | Executing | Completed | Unknown | ReconciliationRequired

  datatype Record = Record(
    id: string, tenant: string, decision: string, investigation: Option<string>, action: string, version: string,
    customer: string, targets: seq<string>, payload: string, digest: string, policyDigest: string,
    cost: real, reserved: real, risk: Risk, tier: int,
    requester: Option<string>, approver: Option<string>, grantedAt: Option<int>,
    rejectionReason: Option<string>, revocationReason: Option<string>,
    expiry: int, status: Status, decisionDigest: string, correlation: string, causation: string,
    createdAt: int, supersededBy: Option<string>)

  datatype ApprovalError =
    | TenantMismatch | InvalidRequest | Undigestible | UndefinedTier | InvalidRecord
    | AgentSelfApproval | SeparationOfDuties | AlreadyUsed | ApprovalExpired | ApprovalRevoked
    | InvalidState | InsufficientTier | DigestMismatch

  /** A decimal amount as a caller may pass it. */
  datatype Quote = Usd(amount: real) | Infinite(positive: bool) | NotANumber

  /** What the payload digest covers; `body` stands for the payload, which may hold values of any type. */
  datatype Payload = Payload(action: string, targets: seq<string>, body: string, cost: Quote)

  /** The hashes are left uninterpreted; they fail on what cannot be written as JSON. */
  datatype Config = Config(
    hash: Payload -> string, digestible: Payload -> bool, policyHash: string -> string,
    policyDigestible: string -> bool)

  const HOUR := 3600

  function SlotOf(r: Record): Slot {
    Slot(r.tenant, r.id)
  }

  function PayloadOf(r: Record): Payload {
    Payload(r.action, r.targets, r.payload, Usd(r.cost))
  }

  function RequiredTier(risk: Risk, cost: real): int {
    if risk.High? || risk.Critical? || cost > 1000.0 then 3
    else if risk.Medium? || cost > 250.0 then 2
    else 1
  }

  predicate Acceptable(cost: Quote) {
    cost.Usd? && cost.amount >= 0.0
  }

  /** Comparing a number that is none fails, unless the risk settles the tier before. */
  predicate TierDefined(risk: Risk, cost: Quote) {
    risk.High? || risk.Critical? || !cost.NotANumber?
  }

  // ---------------------------------------------------------------- state and steps

  datatype Grant = Grant(slot: Slot, approver: string, tier: int, at: int, expected: string)

  /** `rank` numbers the ids in the order they were generated and `grants` logs the approvals; no call reads them. */
  datatype State = State(store: map<Slot, Record>, rank: map<Slot, nat>, next: nat, grants: seq<Grant>)

  const INITIAL := State(map[], map[], 0, [])

  function Issue(s: State, k: Slot): State {
    s.(rank := s.rank[k := s.next], next := s.next + 1)
  }

  function Write(s: State, r: Record): State {
    s.(store := s.store[SlotOf(r) := r])
  }

  datatype CreateRequest = CreateRequest(
    tenant: string, decision: string, action: string, customer: string, targets: seq<string>, payload: string,
    cost: Quote, risk: Risk, decisionDigest: string, policyRules: string, ttlHours: int, investigation: Option<string>,
    correlation: Option<string>, causation: Option<string>)

  function NewRecord(cfg: Config, q: CreateRequest, id: string, now: int): Record
    requires q.cost.Usd?
  {
    Record(id, q.tenant, q.decision, q.investigation, q.action, "1.0.0", q.customer, q.targets, q.payload,
           cfg.hash(Payload(q.action, q.targets, q.payload, q.cost)), cfg.policyHash(q.policyRules),
           q.cost.amount, q.cost.amount, q.risk, RequiredTier(q.risk, q.cost.amount), None, None, None, None, None,
           now + q.ttlHours * HOUR, Pending, q.decisionDigest,
           (match q.correlation case Some(c) => c case None => id),
           (match q.causation case Some(c) => c case None => q.decision),
           now, None)
  }

  function CreateStep(cfg: Config, s: State, q: CreateRequest, id: string,
                      now: int): (State, Result<Record, ApprovalError>)
  {
    if Blank(q.tenant) then (s, Failure(TenantMismatch))
    else if Blank(q.customer) then (s, Failure(InvalidRequest))
    else if !TierDefined(q.risk, q.cost) then (s, Failure(UndefinedTier))
    else if !cfg.digestible(Payload(q.action, q.targets, q.payload, q.cost)) then (s, Failure(Undigestible))
    else if !cfg.policyDigestible(q.policyRules) then (s, Failure(Undigestible))
    else if !Acceptable(q.cost) then (s, Failure(InvalidRecord))
    else
      var r := NewRecord(cfg, q, id, now);
      (Write(Issue(s, SlotOf(r)), r), Success(r))
  }

  datatype GrantRequest = GrantRequest(slot: Slot, approver: string, tier: int, expected: string, human: bool, now: int)

  function GrantStep(cfg: Config, s: State, q: GrantRequest): (State, Result<Record, ApprovalError>) {
    if q.slot !in s.store then (s, Failure(TenantMismatch))
    else
      var r := s.store[q.slot];
      if !q.human then (s, Failure(AgentSelfApproval))
      else if r.requester.Some? && r.requester.value != "" && q.approver == r.requester.value then
        (s, Failure(SeparationOfDuties))
      else if r.status.Approved? then (s, Failure(AlreadyUsed))
      else if r.status.Expired? then (s, Failure(ApprovalExpired))
      else if r.status.Revoked? then (s, Failure(ApprovalRevoked))
      else if !r.status.Pending? then (s, Failure(InvalidState))
      else if q.now >= r.expiry then (Write(s, r.(status := Expired)), Failure(ApprovalExpired))
      else if q.tier < r.tier then (s, Failure(InsufficientTier))
      else if !cfg.digestible(PayloadOf(r)) then (s, Failure(Undigestible))
      else if cfg.hash(PayloadOf(r)) != q.expected || cfg.hash(PayloadOf(r)) != r.digest then
        (s, Failure(DigestMismatch))
      else
        var approved := r.(status := Approved, approver := Some(q.approver), grantedAt := Some(q.now));
        (Write(s, approved).(grants := s.grants + [Grant(q.slot, q.approver, q.tier, q.now, q.expected)]),
         Success(approved))
  }

  function RejectStep(s: State, k: Slot, approver: string, reason: string): (State, Result<Record, ApprovalError>) {
    if k !in s.store then (s, Failure(TenantMismatch))
    else if !s.store[k].status.Pending? then (s, Failure(InvalidState))
    else
      var r := s.store[k].(status := Rejected, approver := Some(approver), rejectionReason := Some(reason));
      (Write(s, r), Success(r))
  }

  function RevokeStep(s: State, k: Slot, reason: string): (State, Result<Record, ApprovalError>) {
    if k !in s.store then (s, Failure(TenantMismatch))
    else if s.store[k].status.Executing? || s.store[k].status.Completed? then (s, Failure(InvalidState))
    else
      var r := s.store[k].(status := Revoked, revocationReason := Some(reason));
      (Write(s, r), Success(r))
  }

  datatype AmendRequest = AmendRequest(slot: Slot, payload: string, cost: Option<Quote>, targets: Option<seq<string>>)

  function AmendedCost(r: Record, q: AmendRequest): Quote {
    match q.cost case Some(c) => c case None => Usd(r.cost)
  }

  function AmendedTargets(r: Record, q: AmendRequest): seq<string> {
    match q.targets case Some(t) => t case None => r.targets
  }

  function AmendedPayload(r: Record, q: AmendRequest): Payload {
    Payload(r.action, AmendedTargets(r, q), q.payload, AmendedCost(r, q))
  }

  /** The new record can be built. */
  predicate Buildable(cfg: Config, r: Record, q: AmendRequest) {
    cfg.digestible(AmendedPayload(r, q)) && Acceptable(AmendedCost(r, q))
  }

  function Amendment(cfg: Config, r: Record, q: AmendRequest, id: string, now: int): Record
    requires AmendedCost(r, q).Usd?
  {
    var cost := AmendedCost(r, q).amount;
    Record(id, q.slot.tenant, r.decision, r.investigation, r.action, r.version, r.customer,
           AmendedTargets(r, q), q.payload, cfg.hash(AmendedPayload(r, q)), r.policyDigest,
           cost, cost, r.risk, RequiredTier(r.risk, cost), None, None, None, None, None,
           now + 24 * HOUR, Pending, r.decisionDigest, r.correlation, r.id, now, None)
  }

  /**
   * The original is superseded before digest, tier and new record are made, so any of their errors leaves a dangling
   * link.
   */
  function AmendStep(cfg: Config, s: State, q: AmendRequest, id: string, now: int)
    : (State, Result<(Record, Record), ApprovalError>)
  {
    if q.slot !in s.store then (s, Failure(TenantMismatch))
    else
      var r := s.store[q.slot];
      if r.status.Executing? || r.status.Completed? || r.status.Superseded? then (s, Failure(InvalidState))
      else
        var old' := r.(status := Superseded, supersededBy := Some(id));
        var t := Write(Issue(s, Slot(q.slot.tenant, id)), old');
        if !cfg.digestible(AmendedPayload(r, q)) then (t, Failure(Undigestible))
        else if !TierDefined(r.risk, AmendedCost(r, q)) then (t, Failure(UndefinedTier))
        else if !Acceptable(AmendedCost(r, q)) then (t, Failure(InvalidRecord))
        else
          var fresh' := Amendment(cfg, r, q, id, now);
          (Write(t, fresh'), Success((old', fresh')))
  }

  predicate Stale(r: Record, now: int) {
    r.status.Pending? && now >= r.expiry
  }

  function StaleSlots(store: map<Slot, Record>, tenant: string, now: int): set<Slot> {
    set k | k in store && k.tenant == tenant && Stale(store[k], now)
  }

  function Marked(store: map<Slot, Record>, slots: set<Slot>): map<Slot, Record> {
    map k | k in store :: if k in slots then store[k].(status := Expired) else store[k]
  }

  function ExpireStep(s: State, tenant: string, now: int): State {
    s.(store := Marked(s.store, StaleSlots(s.store, tenant, now)))
  }

  // ---------------------------------------------------------------- the repository

  ghost predicate Keyed(store: map<Slot, Record>) {
    forall k {:trigger store[k]} :: k in store ==> SlotOf(store[k]) == k
  }

  predicate OlderFirst(a: Record, b: Record) {
    a.createdAt <= b.createdAt
  }

  class ApprovalRepository {
    var storage: Nested<Record>

    ghost function Table(): map<Slot, Record>
      reads this
    {
      Flat(storage)
    }

    constructor ()
      ensures Table() == map[]
    {
      storage := map[];
    }

    method Save(r: Record)
      modifies this
      ensures Table() == old(Table())[SlotOf(r) := r]
    {
      PutIsUpdate(storage, r.tenant, r.id, r);
      storage := Put(storage, r.tenant, r.id, r);
    }

    method Find(tenant: string, id: string) returns (r: Option<Record>)
      ensures r == if Slot(tenant, id) in Table() then Some(Table()[Slot(tenant, id)]) else None
    {
      r := Get(storage, tenant, id);
    }

    method Update(r: Record)
      modifies this
      ensures Table() == old(Table())[SlotOf(r) := r]
    {
      PutIsUpdate(storage, r.tenant, r.id, r);
      storage := Put(storage, r.tenant, r.id, r);
    }

    /** The tenant's pending records, each once, oldest first. */
    method ListPending(tenant: string) returns (pending: seq<Record>)
      requires Keyed(Table())
      ensures forall r :: r in pending <==> PendingIn(Table(), tenant, r)
      ensures Distinct(pending)
      ensures SortedBy(pending, OlderFirst)
    {
      var found: seq<Record> := [];
      var ids := if tenant in storage then storage[tenant].Keys else {};
      forall id ensures id in ids <==> Slot(tenant, id) in Table() { FlatAt(storage, Slot(tenant, id)); }
      ghost var seen: set<string> := {};
      while ids != {}
        invariant forall id :: id in ids ==> tenant in storage && id in storage[tenant] && id !in seen
        invariant forall id :: Slot(tenant, id) in Table() <==> id in ids || id in seen
        invariant forall r :: r in found <==> PendingIn(Table(), tenant, r) && r.id in seen
        invariant Distinct(found)
      {
        var id :| id in ids;
        var r := storage[tenant][id];
        FlatAt(storage, Slot(tenant, id));
        assert SlotOf(r) == Slot(tenant, id);
        if r.status.Pending? {
          found := found + [r];
        }
        ids := ids - {id};
        seen := seen + {id};
      }
      pending := Sort(found, OlderFirst);
      SortMembers(found, OlderFirst);
      SortSorts(found, OlderFirst);
      SortKeepsDistinct(found, OlderFirst);
    }
  }

  ghost predicate PendingIn(store: map<Slot, Record>, tenant: string, r: Record) {
    SlotOf(r) in store && store[SlotOf(r)] == r && r.tenant == tenant && r.status.Pending?
  }

  // ---------------------------------------------------------------- the service

  /** The tier of a request, or nothing when the comparison with the limits fails. */
  function ComputeTier(risk: Risk, cost: Quote): (tier: Option<int>)
    ensures tier.Some? <==> TierDefined(risk, cost)
    ensures cost.Usd? ==> tier == Some(RequiredTier(risk, cost.amount))
    ensures cost == Infinite(true) ==> tier == Some(3)
    ensures cost == Infinite(false) ==> tier == Some(RequiredTier(risk, 0.0))
  {
    if risk.High? || risk.Critical? then Some(3)
    else match cost
      case NotANumber => None
      case Infinite(positive) => Some(if positive then 3 else if risk.Medium? then 2 else 1)
      case Usd(amount) => Some(if amount > 1000.0 then 3 else if risk.Medium? || amount > 250.0 then 2 else 1)
  }

  class Service {
    const cfg: Config
    const repo: ApprovalRepository
    ghost var rank: map<Slot, nat>
    ghost var next: nat
    ghost var grants: seq<Grant>

    ghost function View(): State
      reads this, repo
    {
      State(repo.Table(), rank, next, grants)
    }

    constructor (cfg: Config, repo: ApprovalRepository)
      requires repo.Table() == map[]
      ensures this.cfg == cfg && this.repo == repo && View() == INITIAL
    {
      this.cfg, this.repo := cfg, repo;
      rank, next, grants := map[], 0, [];
    }

    method CreateRequest(q: CreateRequest, id: string, now: int) returns (r: Result<Record, ApprovalError>)
      modifies this, repo
      ensures (View(), r) == CreateStep(cfg, old(View()), q, id, now)
    {
      hide Flat, Blank, RequiredTier, TierDefined;
      if Blank(q.tenant) { return Failure(TenantMismatch); }
      if Blank(q.customer) { return Failure(InvalidRequest); }
      var correlation := match q.correlation case Some(c) => c case None => id;
      var causation := match q.causation case Some(c) => c case None => q.decision;
      var tier := ComputeTier(q.risk, q.cost);
      if tier.None? { return Failure(UndefinedTier); }
      var payload := Payload(q.action, q.targets, q.payload, q.cost);
      if !cfg.digestible(payload) { return Failure(Undigestible); }
      var digest := cfg.hash(payload);
      if !cfg.policyDigestible(q.policyRules) { return Failure(Undigestible); }
      var policy := cfg.policyHash(q.policyRules);
      var expiry := now + q.ttlHours * HOUR;
      if !Acceptable(q.cost) { return Failure(InvalidRecord); }
      var cost := q.cost.amount;
      var record := Record(id, q.tenant, q.decision, q.investigation, q.action, "1.0.0", q.customer, q.targets,
                           q.payload, digest, policy, cost, cost, q.risk, tier.value, None, None, None, None, None,
                           expiry, Pending, q.decisionDigest, correlation, causation, now, None);
      rank, next := rank[SlotOf(record) := next], next + 1;
      repo.Save(record);
      r := Success(record);
    }

    method GrantApproval(q: GrantRequest) returns (r: Result<Record, ApprovalError>)
      modifies this, repo
      ensures (View(), r) == GrantStep(cfg, old(View()), q)
    {
      hide Flat;
      assert q.slot == Slot(q.slot.tenant, q.slot.id);
      var found := repo.Find(q.slot.tenant, q.slot.id);
      if found.None? { return Failure(TenantMismatch); }
      var record := found.value;
      if !q.human { return Failure(AgentSelfApproval); }
      if record.requester.Some? && record.requester.value != "" && q.approver == record.requester.value {
        return Failure(SeparationOfDuties);
      }
      if record.status == Approved { return Failure(AlreadyUsed); }
      if record.status == Expired { return Failure(ApprovalExpired); }
      if record.status == Revoked { return Failure(ApprovalRevoked); }
      if record.status == Superseded { return Failure(InvalidState); }
      if record.status != Pending { return Failure(InvalidState); }
      if q.now >= record.expiry {
        repo.Update(record.(status := Expired));
        return Failure(ApprovalExpired);
      }
      if q.tier < record.tier { return Failure(InsufficientTier); }
      var payload := Payload(record.action, record.targets, record.payload, Usd(record.cost));
      if !cfg.digestible(payload) { return Failure(Undigestible); }
      var current := cfg.hash(payload);
      if current != q.expected || current != record.digest { return Failure(DigestMismatch); }
      var approved := record.(status := Approved, approver := Some(q.approver), grantedAt := Some(q.now));
      repo.Update(approved);
      grants := grants + [Grant(q.slot, q.approver, q.tier, q.now, q.expected)];
      r := Success(approved);
    }

    method RejectRequest(tenant: string, id: string, approver: string, reason: string)
      returns (r: Result<Record, ApprovalError>)
      modifies this, repo
      ensures (View(), r) == RejectStep(old(View()), Slot(tenant, id), approver, reason)
    {
      var found := repo.Find(tenant, id);
      if found.None? { return Failure(TenantMismatch); }
      if found.value.status != Pending { return Failure(InvalidState); }
      var rejected := found.value.(status := Rejected, approver := Some(approver), rejectionReason := Some(reason));
      repo.Update(rejected);
      r := Success(rejected);
    }

    method RevokeApproval(tenant: string, id: string, reason: string) returns (r: Result<Record, ApprovalError>)
      modifies this, repo
      ensures (View(), r) == RevokeStep(old(View()), Slot(tenant, id), reason)
    {
      var found := repo.Find(tenant, id);
      if found.None? { return Failure(TenantMismatch); }
      if found.value.status in {Executing, Completed} { return Failure(InvalidState); }
      var revoked := found.value.(status := Revoked, revocationReason := Some(reason));
      repo.Update(revoked);
      r := Success(revoked);
    }

    method AmendRequest(q: AmendRequest, id: string, now: int) returns (r: Result<(Record, Record), ApprovalError>)
      modifies this, repo
      ensures (View(), r) == AmendStep(cfg, old(View()), q, id, now)
    {
      hide Flat, RequiredTier;
      assert q.slot == Slot(q.slot.tenant, q.slot.id);
      var found := repo.Find(q.slot.tenant, q.slot.id);
      if found.None? { return Failure(TenantMismatch); }
      var original := found.value;
      if original.status in {Executing, Completed, Superseded} { return Failure(InvalidState); }
      var quote := match q.cost case Some(c) => c case None => Usd(original.cost);
      var targets := match q.targets case Some(t) => t case None => original.targets;
      var superseded := original.(status := Superseded, supersededBy := Some(id));
      rank, next := rank[Slot(q.slot.tenant, id) := next], next + 1;
      repo.Update(superseded);
      var payload := Payload(original.action, targets, q.payload, quote);
      if !cfg.digestible(payload) { return Failure(Undigestible); }
      var digest := cfg.hash(payload);
      var tier := ComputeTier(original.risk, quote);
      if tier.None? { return Failure(UndefinedTier); }
      if !Acceptable(quote) { return Failure(InvalidRecord); }
      var cost := quote.amount;
      var record := Record(id, q.slot.tenant, original.decision, original.investigation, original.action,
                           original.version, original.customer, targets, q.payload, digest, original.policyDigest,
                           cost, cost, original.risk, tier.value, None, None, None, None, None,
                           now + 24 * HOUR, Pending, original.decisionDigest,
                           original.correlation, original.id, now, None);
      repo.Save(record);
      r := Success((superseded, record));
    }

    /** Expires every stale record of the tenant and nothing else, in whatever order the scan meets them. */
    method ExpireStaleRequests(tenant: string, now: int) returns (count: nat)
      requires Keyed(repo.Table())
      modifies repo
      ensures View() == ExpireStep(old(View()), tenant, now)
      ensures count == |StaleSlots(old(repo.Table()), tenant, now)|
    {
      hide Flat, Marked, StaleSlots, PendingIn, Keyed, SortedBy;
      ghost var before := repo.Table();
      var pending := repo.ListPending(tenant);
      count := 0;
      ghost var done: set<Slot> := {};
      NothingMarked(before);
      for n := 0 to |pending|
        invariant repo.Table() == Marked(before, done)
        invariant done == StaleAmong(pending[..n], now) && count == |done|
      {
        var rec := pending[n];
        StaleGrows(before, tenant, pending, n, now);
        if now >= rec.expiry {
          MarkOne(before, tenant, done, rec);
          repo.Update(rec.(status := Expired));
          count := count + 1;
          done := done + {SlotOf(rec)};
        }
      }
      assert pending[..|pending|] == pending;
      StaleAll(before, tenant, pending, now);
    }
  }

  function StaleAmong(rs: seq<Record>, now: int): set<Slot> {
    set i | 0 <= i < |rs| && now >= rs[i].expiry :: SlotOf(rs[i])
  }

  lemma NothingMarked(store: map<Slot, Record>)
    ensures Marked(store, {}) == store
    ensures forall now :: StaleAmong([], now) == {}
  {
  }

  lemma MarkOne(store: map<Slot, Record>, tenant: string, done: set<Slot>, rec: Record)
    requires PendingIn(store, tenant, rec)
    ensures Marked(store, done + {SlotOf(rec)}) == Marked(store, done)[SlotOf(rec) := rec.(status := Expired)]
  {
  }

  lemma StaleGrows(store: map<Slot, Record>, tenant: string, rs: seq<Record>, n: nat, now: int)
    requires n < |rs|
    requires forall i :: 0 <= i < |rs| ==> rs[i] in rs && PendingIn(store, tenant, rs[i])
    requires Distinct(rs)
    ensures StaleAmong(rs[..n+1], now)
      == StaleAmong(rs[..n], now) + (if now >= rs[n].expiry then {SlotOf(rs[n])} else {})
    ensures SlotOf(rs[n]) !in StaleAmong(rs[..n], now)
  {
    forall k
      ensures k in StaleAmong(rs[..n+1], now) <==>
        k in StaleAmong(rs[..n], now) || (now >= rs[n].expiry && k == SlotOf(rs[n]))
    {
      if k in StaleAmong(rs[..n], now) {
        var i :| 0 <= i < n && now >= rs[i].expiry && SlotOf(rs[i]) == k;
        assert rs[..n+1][i] == rs[i];
      }
      if now >= rs[n].expiry && k == SlotOf(rs[n]) {
        assert rs[..n+1][n] == rs[n];
      }
    }
  }

  lemma StaleAll(store: map<Slot, Record>, tenant: string, rs: seq<Record>, now: int)
    requires Keyed(store)
    requires forall r :: r in rs <==> PendingIn(store, tenant, r)
    ensures StaleAmong(rs, now) == StaleSlots(store, tenant, now)
  {
    forall k ensures k in StaleAmong(rs, now) <==> k in StaleSlots(store, tenant, now) {
      if k in StaleAmong(rs, now) {
        var i :| 0 <= i < |rs| && now >= rs[i].expiry && SlotOf(rs[i]) == k;
        assert rs[i] in rs;
      }
      if k in StaleSlots(store, tenant, now) {
        assert PendingIn(store, tenant, store[k]) && store[k] in rs;
        var i :| 0 <= i < |rs| && rs[i] == store[k];
      }
    }
  }
}
