/** What the stored approval records owe to the calls: what was asked for is what is stored, granted and decided. */
module ApprovalGrounds {
  import opened Sequences
  import opened Wrappers
  import opened TenantStore
  import opened ApprovalService
  import opened ApprovalHistory
  import opened ApprovalTheorems

  // ---------------------------------------------------------------- one call

  /** The record that a request asks for, but for what later calls note beside it. */
  predicate AsAsked(cfg: Config, r: Record, q: CreateRequest, id: string, now: int) {
    && r.id == id && r.tenant == q.tenant && r.customer == q.customer && r.decision == q.decision
    && r.investigation == q.investigation && r.action == q.action && r.targets == q.targets && r.payload == q.payload
    && r.version == "1.0.0" && r.risk == q.risk && Usd(r.cost) == q.cost && r.reserved == r.cost
    && r.digest == cfg.hash(Payload(q.action, q.targets, q.payload, q.cost))
    && r.policyDigest == cfg.policyHash(q.policyRules) && r.decisionDigest == q.decisionDigest
    && r.createdAt == now && r.expiry == now + q.ttlHours * 60 * 60
    && (q.correlation == Some(r.correlation) || (q.correlation == None && r.correlation == id))
    && (q.causation == Some(r.causation) || (q.causation == None && r.causation == q.decision))
  }

  /** Nothing has happened to the record yet. */
  predicate Untouched(r: Record) {
    r.status == Pending && r.requester == None && r.approver == None && r.grantedAt == None && r.rejectionReason == None
    && r.revocationReason == None && r.supersededBy == None
  }

  /** A request is accepted exactly under these conditions, and stored as it was asked for. */
  lemma CreateSucceedsIff(cfg: Config, s: State, q: CreateRequest, id: string, now: int)
    ensures CreateStep(cfg, s, q, id, now).1.Success? <==>
      && !Blank(q.tenant) && !Blank(q.customer) && q.cost.Usd? && q.cost.amount >= 0.0
      && cfg.digestible(Payload(q.action, q.targets, q.payload, q.cost)) && cfg.policyDigestible(q.policyRules)
    ensures var (t, r) := CreateStep(cfg, s, q, id, now);
      if r.Success? then
        t.store == s.store[Slot(q.tenant, id) := r.value] && AsAsked(cfg, r.value, q, id, now) && Untouched(r.value)
      else t == s
  {
    hide Blank, RequiredTier;
  }

  /** The record that an amendment of `o` asks for; what it does not name it takes from there. */
  predicate AsAmended(cfg: Config, r: Record, o: Record, q: AmendRequest, id: string, now: int) {
    && r.id == id && r.tenant == o.tenant && r.customer == o.customer && r.decision == o.decision
    && r.investigation == o.investigation && r.action == o.action && r.payload == q.payload
    && (q.targets == Some(r.targets) || (q.targets == None && r.targets == o.targets))
    && r.version == o.version && r.risk == o.risk
    && (q.cost == Some(Usd(r.cost)) || (q.cost == None && r.cost == o.cost)) && r.reserved == r.cost
    && r.digest == cfg.hash(Payload(o.action, r.targets, q.payload, Usd(r.cost)))
    && r.policyDigest == o.policyDigest && r.decisionDigest == o.decisionDigest
    && r.createdAt == now && r.expiry == now + 24 * 60 * 60
    && r.correlation == o.correlation && r.causation == o.id
  }

  /** An amendment that succeeds supersedes the original, stores what was asked for, and touches nothing else. */
  lemma AmendedAsAsked(cfg: Config, s: State, q: AmendRequest, id: string, now: int)
    requires Inv(cfg, s) && Slot(q.slot.tenant, id) !in s.rank && AmendStep(cfg, s, q, id, now).1.Success?
    ensures var (t, r) := AmendStep(cfg, s, q, id, now);
      && q.slot in s.store
      && var (o, n) := r.value;
      && o == s.store[q.slot].(status := Superseded, supersededBy := Some(id))
      && AsAmended(cfg, n, s.store[q.slot], q, id, now) && Untouched(n)
      && t.store == s.store[q.slot := o][Slot(q.slot.tenant, id) := n]
  {
    assert SlotOf(s.store[q.slot]) == q.slot;
    hide Inv, RequiredTier;
  }

  function Turned(r: Record, who: string, why: string): Record {
    r.(status := Rejected, approver := Some(who), rejectionReason := Some(why))
  }

  /** A rejection goes through exactly for a pending record, and changes nothing else. */
  lemma RejectTakesEffect(cfg: Config, s: State, k: Slot, who: string, why: string)
    requires Inv(cfg, s)
    ensures var (t, r) := RejectStep(s, k, who, why);
      && (r.Success? <==> k in s.store && s.store[k].status == Pending)
      && (if r.Success? then t == s.(store := s.store[k := Turned(s.store[k], who, why)]) else t == s)
  {
    if k in s.store {
      assert SlotOf(s.store[k]) == k;
    }
    hide Inv;
  }

  /** A revocation goes through for every stored record, since none is ever in execution. */
  lemma RevokeTakesEffect(cfg: Config, s: State, k: Slot, why: string)
    requires Inv(cfg, s)
    ensures var (t, r) := RevokeStep(s, k, why);
      && (r.Success? <==> k in s.store)
      && (if r.Success? then
            t == s.(store := s.store[k := s.store[k].(status := Revoked, revocationReason := Some(why))])
          else t == s)
  {
    if k in s.store {
      assert SlotOf(s.store[k]) == k && Sound(cfg, s.store[k]);
    }
    hide Inv;
  }

  /** An expiry run changes exactly the tenant's pending records whose own expiry has come, and only their status. */
  lemma ExpiresAtItsExpiry(s: State, tenant: string, now: int, k: Slot)
    requires k in s.store
    ensures var t := ExpireStep(s, tenant, now);
      && k in t.store
      && t.store[k] == if k.tenant == tenant && s.store[k].status == Pending && s.store[k].expiry <= now
                       then s.store[k].(status := Expired) else s.store[k]
  {
  }

  /** A grant by a human that comes too late for a pending record expires it. */
  lemma LateGrantExpires(cfg: Config, s: State, q: GrantRequest)
    requires Inv(cfg, s) && q.slot in s.store && s.store[q.slot].status == Pending
    ensures var (t, r) := GrantStep(cfg, s, q);
      && q.slot in t.store
      && (t.store[q.slot].status == Expired <==> q.human && s.store[q.slot].expiry <= q.now)
      && (t.store[q.slot].status == Expired ==>
            r == Failure(ApprovalExpired) && t == s.(store := s.store[q.slot := s.store[q.slot].(status := Expired)]))
  {
    assert SlotOf(s.store[q.slot]) == q.slot && Sound(cfg, s.store[q.slot]);
    hide Inv, RequiredTier;
  }

  // ---------------------------------------------------------------- why a call is refused

  lemma CreateRefusals(cfg: Config, s: State, q: CreateRequest, id: string, now: int)
    ensures var r := CreateStep(cfg, s, q, id, now).1;
      var named := !Blank(q.tenant) && !Blank(q.customer);
      var tiered := q.risk == High || q.risk == Critical || q.cost != NotANumber;
      var digestible := cfg.digestible(Payload(q.action, q.targets, q.payload, q.cost))
                        && cfg.policyDigestible(q.policyRules);
      && (r == Failure(TenantMismatch) <==> Blank(q.tenant))
      && (r == Failure(InvalidRequest) <==> !Blank(q.tenant) && Blank(q.customer))
      && (r == Failure(UndefinedTier) <==> named && !tiered)
      && (r == Failure(Undigestible) <==> named && tiered && !digestible)
      && (r == Failure(InvalidRecord) <==>
            named && tiered && digestible && !(q.cost.Usd? && q.cost.amount >= 0.0))
  {
    hide Blank, RequiredTier;
  }

  /** In every reachable state: who or what a grant fails on. */
  lemma GrantRefusals(cfg: Config, s: State, q: GrantRequest)
    requires Inv(cfg, s)
    ensures GrantStep(cfg, s, q).1 == Failure(TenantMismatch) <==> q.slot !in s.store
    ensures GrantStep(cfg, s, q).1 == Failure(AgentSelfApproval) <==> q.slot in s.store && !q.human
    ensures q.slot in s.store && q.human ==>
      var (r, k) := (GrantStep(cfg, s, q).1, s.store[q.slot]);
      var open := k.status == Pending && q.now < k.expiry;
      && (r == Failure(AlreadyUsed) <==> k.status == Approved)
      && (r == Failure(ApprovalExpired) <==> k.status == Expired || (k.status == Pending && k.expiry <= q.now))
      && (r == Failure(ApprovalRevoked) <==> k.status == Revoked)
      && (r == Failure(InvalidState) <==> k.status == Rejected || k.status == Superseded)
      && (r == Failure(InsufficientTier) <==> open && !Entitled(q.tier, k.risk, k.cost))
      && (r == Failure(DigestMismatch) <==> open && Entitled(q.tier, k.risk, k.cost) && q.expected != k.digest)
  {
    if q.slot in s.store {
      assert Sound(cfg, s.store[q.slot]);
      hide Inv;
    }
  }

  lemma OtherRefusals(cfg: Config, s: State, q: AmendRequest, id: string, now: int, who: string, why: string)
    requires Inv(cfg, s)
    ensures RejectStep(s, q.slot, who, why).1 == Failure(TenantMismatch) <==> q.slot !in s.store
    ensures RejectStep(s, q.slot, who, why).1 == Failure(InvalidState) <==>
      q.slot in s.store && s.store[q.slot].status != Pending
    ensures RevokeStep(s, q.slot, why).1 == Failure(TenantMismatch) <==> q.slot !in s.store
    ensures AmendStep(cfg, s, q, id, now).1 == Failure(TenantMismatch) <==> q.slot !in s.store
    ensures AmendStep(cfg, s, q, id, now).1 == Failure(InvalidState) <==>
      q.slot in s.store && s.store[q.slot].status == Superseded
  {
    if q.slot in s.store {
      assert Sound(cfg, s.store[q.slot]);
    }
    hide Inv, RequiredTier;
  }

  /** Over any records at all, those with a requester and those in execution included. */
  lemma ChecksInAnyState(cfg: Config, s: State, q: GrantRequest, why: string)
    ensures GrantStep(cfg, s, q).1.Success? <==>
      && q.slot in s.store && q.human
      && var r := s.store[q.slot];
      && (r.requester == None || r.requester == Some("") || r.requester != Some(q.approver))
      && r.status == Pending && q.now < r.expiry && r.tier <= q.tier
      && cfg.digestible(Payload(r.action, r.targets, r.payload, Usd(r.cost)))
      && q.expected == r.digest == cfg.hash(Payload(r.action, r.targets, r.payload, Usd(r.cost)))
    ensures RevokeStep(s, q.slot, why).1.Success? <==>
      q.slot in s.store && s.store[q.slot].status != Executing && s.store[q.slot].status != Completed
  {
  }

  // ---------------------------------------------------------------- every record is what some call asked for

  /** The call behind the record at `k`: a create that asked for it, or an amendment of an older one of the tenant. */
  ghost predicate AskedBy(cfg: Config, s: State, k: Slot, c: Call)
    requires k in s.store
  {
    match c
    case Create(q, id, now) => q.tenant == k.tenant && AsAsked(cfg, s.store[k], q, k.id, now) && id == k.id
    case Amend(q, id, now) =>
      && q.slot.tenant == k.tenant && q.slot in s.store && id == k.id && Rank(s, q.slot) < Rank(s, k)
      && AsAmended(cfg, s.store[k], s.store[q.slot], q, k.id, now)
    case _ => false
  }

  ghost predicate AllAsked(cfg: Config, s: State, past: seq<Call>) {
    forall k :: k in s.store ==> exists c :: c in past && AskedBy(cfg, s, k, c)
  }

  lemma SealedAsAsked(cfg: Config, a: Record, b: Record, q: CreateRequest, id: string, now: int)
    requires Sealed(a) == Sealed(b) && AsAsked(cfg, a, q, id, now)
    ensures AsAsked(cfg, b, q, id, now)
  {
    assert AsAsked(cfg, Sealed(a), q, id, now);
  }

  lemma SealedAsAmended(cfg: Config, a: Record, b: Record, o: Record, p: Record, q: AmendRequest, id: string,
                        now: int)
    requires Sealed(a) == Sealed(b) && Sealed(o) == Sealed(p) && AsAmended(cfg, a, o, q, id, now)
    ensures AsAmended(cfg, b, p, q, id, now)
  {
    assert AsAmended(cfg, Sealed(a), Sealed(o), q, id, now);
  }

  lemma LaterAskedBy(cfg: Config, s: State, t: State, k: Slot, c: Call)
    requires Extends(s, t) && (forall j :: j in s.store ==> Rank(t, j) == Rank(s, j))
    requires k in s.store && AskedBy(cfg, s, k, c)
    ensures k in t.store && AskedBy(cfg, t, k, c)
  {
    hide Sealed, AsAsked, AsAmended, Forward;
    match c
    case Create(q, id, now) => SealedAsAsked(cfg, s.store[k], t.store[k], q, k.id, now);
    case Amend(q, id, now) =>
      SealedAsAmended(cfg, s.store[k], t.store[k], s.store[q.slot], t.store[q.slot], q, k.id, now);
  }

  lemma RanksStay(cfg: Config, s: State, c: Call)
    requires Ranked(s) && Enabled(s, c)
    ensures forall j :: j in s.store ==> Rank(Step(cfg, s, c), j) == Rank(s, j)
  {
    RanksGrow(cfg, s, c);
    hide Step, Enabled;
  }

  lemma RanksGrow(cfg: Config, s: State, c: Call)
    requires Enabled(s, c)
    ensures forall j :: j in s.rank ==> j in Step(cfg, s, c).rank && Step(cfg, s, c).rank[j] == s.rank[j]
  {
    hide RequiredTier, Blank, PayloadOf, TierDefined;
  }

  lemma NewIsAsked(cfg: Config, s: State, c: Call, k: Slot)
    requires Inv(cfg, s) && Enabled(s, c) && k in Step(cfg, s, c).store && k !in s.store
    ensures AskedBy(cfg, Step(cfg, s, c), k, c)
  {
    match c {
      case Create(q, id, now) =>
        CreateSucceedsIff(cfg, s, q, id, now);
        hide CreateStep;
      case Amend(q, id, now) =>
        NewIsAmended(cfg, s, q, id, now, k);
      case _ =>
        OtherKeys(cfg, s, c);
    }
  }

  lemma NewIsAmended(cfg: Config, s: State, q: AmendRequest, id: string, now: int, k: Slot)
    requires Inv(cfg, s) && Slot(q.slot.tenant, id) !in s.rank
    requires k in AmendStep(cfg, s, q, id, now).0.store && k !in s.store
    ensures AskedBy(cfg, AmendStep(cfg, s, q, id, now).0, k, Amend(q, id, now))
  {
    if q.slot in s.store {
      assert SlotOf(s.store[q.slot]) == q.slot && q.slot in s.rank && s.rank[q.slot] < s.next;
      var (t, r) := AmendStep(cfg, s, q, id, now);
      assert k == Slot(q.slot.tenant, id) && r.Success?;
      AmendedAsAsked(cfg, s, q, id, now);
      var (o, n) := r.value;
      SealedAsAmended(cfg, n, n, s.store[q.slot], o, q, id, now);
      hide Inv, RequiredTier;
    }
  }

  lemma StepKeepsAsked(cfg: Config, s: State, c: Call, past: seq<Call>)
    requires Inv(cfg, s) && Enabled(s, c) && AllAsked(cfg, s, past)
    ensures AllAsked(cfg, Step(cfg, s, c), past + [c])
  {
    var t := Step(cfg, s, c);
    StepExtends(cfg, s, c);
    RanksStay(cfg, s, c);
    hide Inv, Step, AskedBy, Enabled, Rank;
    forall k | k in t.store ensures exists b :: b in past + [c] && AskedBy(cfg, t, k, b) {
      if k in s.store {
        var b :| b in past && AskedBy(cfg, s, k, b);
        LaterAskedBy(cfg, s, t, k, b);
        assert b in past + [c];
      } else {
        NewIsAsked(cfg, s, c, k);
        assert c in past + [c];
      }
    }
  }

  lemma {:induction false} RunKeepsAsked(cfg: Config, s: State, cs: seq<Call>, past: seq<Call>)
    requires Inv(cfg, s) && Possible(cfg, s, cs) && AllAsked(cfg, s, past)
    ensures AllAsked(cfg, Run(cfg, s, cs), past + cs)
    decreases |cs|
  {
    hide Inv, AllAsked, Step, Enabled;
    if cs == [] {
      assert past + cs == past;
    } else {
      StepKeepsInv(cfg, s, cs[0]);
      StepKeepsAsked(cfg, s, cs[0], past);
      RunKeepsAsked(cfg, Step(cfg, s, cs[0]), cs[1..], past + [cs[0]]);
      assert past + [cs[0]] + cs[1..] == past + cs;
    }
  }

  /**
   * Over every run each stored record is what one call asked for, field by field: a create, or an amendment of a record
   * that is stored too.
   */
  lemma RecordIsAsAsked(cfg: Config, cs: seq<Call>, k: Slot) returns (c: Call)
    requires Possible(cfg, INITIAL, cs) && k in Run(cfg, INITIAL, cs).store
    ensures c in cs && AskedBy(cfg, Run(cfg, INITIAL, cs), k, c)
  {
    hide Run, Possible, AskedBy;
    assert Inv(cfg, INITIAL);
    RunKeepsAsked(cfg, INITIAL, cs, []);
    assert [] + cs == cs;
    c :| c in cs && AskedBy(cfg, Run(cfg, INITIAL, cs), k, c);
  }

  /** The first request of a case: its risk, action, customer and rules are those of every amendment. */
  predicate Opens(cfg: Config, c: Call, r: Record) {
    && c.Create? && c.create.tenant == r.tenant && c.create.risk == r.risk && c.create.action == r.action
    && c.create.customer == r.customer && c.create.decision == r.decision
    && c.create.investigation == r.investigation && c.create.decisionDigest == r.decisionDigest
    && cfg.policyHash(c.create.policyRules) == r.policyDigest
  }

  /** A call that names this cost. */
  predicate Names(c: Call, cost: real) {
    (c.Create? && c.create.cost == Usd(cost)) || (c.Amend? && c.amend.cost == Some(Usd(cost)))
  }

  lemma {:induction false} OriginOf(cfg: Config, s: State, past: seq<Call>, k: Slot) returns (first: Call, priced: Call)
    requires AllAsked(cfg, s, past) && k in s.store
    ensures first in past && Opens(cfg, first, s.store[k])
    ensures priced in past && Names(priced, s.store[k].cost)
    decreases Rank(s, k)
  {
    var c :| c in past && AskedBy(cfg, s, k, c);
    hide AllAsked, Rank;
    first, priced := c, c;
    if c.Amend? {
      first, priced := OriginOf(cfg, s, past, c.amend.slot);
      if c.amend.cost.Some? { priced := c; }
    }
  }

  /**
   * Every logged grant has the tier that the requested risk, and the cost that the record's own call or the nearest
   * earlier one of its case names, demand.
   */
  lemma GrantsFitRequests(cfg: Config, cs: seq<Call>, i: nat) returns (first: Call, priced: Call, cost: real)
    requires Possible(cfg, INITIAL, cs) && i < |Run(cfg, INITIAL, cs).grants|
    ensures var s := Run(cfg, INITIAL, cs);
      var g := s.grants[i];
      && g.slot in s.store
      && var r := s.store[g.slot];
      && first in cs && Opens(cfg, first, r)
      && priced in cs && Names(priced, cost) && cost == r.cost
      && g.tier >= 1
      && (first.create.risk.Medium? || cost > 250.0 ==> g.tier >= 2)
      && (first.create.risk.High? || first.create.risk.Critical? || cost > 1000.0 ==> g.tier >= 3)
      && g.at < r.expiry
      && g.expected == cfg.hash(Payload(first.create.action, r.targets, r.payload, Usd(cost)))
  {
    hide Run, Possible, AllAsked;
    assert Inv(cfg, INITIAL);
    RunKeepsAsked(cfg, INITIAL, cs, []) by { assert AllAsked(cfg, INITIAL, []) by { NothingAsked(cfg); } }
    assert [] + cs == cs;
    GrantsAreProper(cfg, cs, i);
    var s := Run(cfg, INITIAL, cs);
    first, priced := OriginOf(cfg, s, cs, s.grants[i].slot);
    cost := s.store[s.grants[i].slot].cost;
  }

  lemma NothingAsked(cfg: Config)
    ensures AllAsked(cfg, INITIAL, [])
  {
  }

  // ---------------------------------------------------------------- every status has its cause

  /** The call that put a record into its status, and what it noted there. */
  predicate Causes(c: Call, k: Slot, r: Record) {
    match r.status
    case Pending =>
      (c.Create? && Slot(c.create.tenant, c.id) == k) || (c.Amend? && Slot(c.amend.slot.tenant, c.id) == k)
    case Approved =>
      c.GrantCall? && c.grant.slot == k && c.grant.human && r.approver == Some(c.grant.approver)
      && r.grantedAt == Some(c.grant.now) && c.grant.now < r.expiry && c.grant.expected == r.digest
    case Rejected =>
      c.Reject? && c.slot == k && r.approver == Some(c.approver) && r.rejectionReason == Some(c.reason)
    case Expired =>
      (c.Expire? && c.tenant == k.tenant && r.expiry <= c.now)
      || (c.GrantCall? && c.grant.slot == k && c.grant.human && r.expiry <= c.grant.now)
    case Revoked => c.Revoke? && c.slot == k && r.revocationReason == Some(c.reason)
    case Superseded => c.Amend? && c.amend.slot == k && r.supersededBy == Some(c.id)
    case _ => false
  }

  lemma ChangeIsCaused(cfg: Config, s: State, c: Call, k: Slot)
    requires Inv(cfg, s) && Enabled(s, c) && k in Step(cfg, s, c).store
    ensures (k in s.store && Step(cfg, s, c).store[k] == s.store[k]) || Causes(c, k, Step(cfg, s, c).store[k])
  {
    hide Inv, Causes, CreateStep, GrantStep, RejectStep, RevokeStep, AmendStep, ExpireStep;
    match c {
      case Create(q, id, now) => CreateIsCaused(cfg, s, q, id, now, k);
      case GrantCall(q) => GrantIsCaused(cfg, s, q, k);
      case Reject(j, who, why) => RejectIsCaused(cfg, s, j, who, why, k);
      case Revoke(j, why) => RevokeIsCaused(cfg, s, j, why, k);
      case Amend(q, id, now) =>
        NewIdIsFree(cfg, s, Slot(q.slot.tenant, id));
        AmendIsCaused(cfg, s, q, id, now, k);
      case Expire(tenant, now) => ExpireIsCaused(s, tenant, now, k);
    }
  }

  lemma NewIdIsFree(cfg: Config, s: State, k: Slot)
    requires Inv(cfg, s)
    ensures Keyed(s.store) && (k !in s.rank ==> k !in s.store)
  {
  }

  lemma ExpireIsCaused(s: State, tenant: string, now: int, k: Slot)
    requires k in ExpireStep(s, tenant, now).store
    ensures var t := ExpireStep(s, tenant, now);
      (k in s.store && t.store[k] == s.store[k]) || Causes(Expire(tenant, now), k, t.store[k])
  {
    ExpiresAtItsExpiry(s, tenant, now, k);
  }

  lemma CreateIsCaused(cfg: Config, s: State, q: CreateRequest, id: string, now: int, k: Slot)
    requires k in CreateStep(cfg, s, q, id, now).0.store
    ensures var t := CreateStep(cfg, s, q, id, now).0;
      (k in s.store && t.store[k] == s.store[k]) || Causes(Create(q, id, now), k, t.store[k])
  {
    CreateSucceedsIff(cfg, s, q, id, now);
    hide CreateStep, AsAsked;
  }

  lemma GrantIsCaused(cfg: Config, s: State, q: GrantRequest, k: Slot)
    requires Inv(cfg, s) && k in GrantStep(cfg, s, q).0.store
    ensures var t := GrantStep(cfg, s, q).0;
      (k in s.store && t.store[k] == s.store[k]) || Causes(GrantCall(q), k, t.store[k])
  {
    GrantCases(cfg, s, q);
    if q.slot in s.store {
      assert SlotOf(s.store[q.slot]) == q.slot;
      if q.human { GrantCauses(q, s.store[q.slot]); }
    }
    hide Inv, GrantStep, Causes;
  }

  lemma GrantCauses(q: GrantRequest, r: Record)
    requires q.human
    ensures q.now >= r.expiry ==> Causes(GrantCall(q), q.slot, r.(status := Expired))
    ensures q.now < r.expiry && q.expected == r.digest ==>
      Causes(GrantCall(q), q.slot, r.(status := Approved, approver := Some(q.approver), grantedAt := Some(q.now)))
  {
  }

  lemma RejectIsCaused(cfg: Config, s: State, j: Slot, who: string, why: string, k: Slot)
    requires Inv(cfg, s) && k in RejectStep(s, j, who, why).0.store
    ensures var t := RejectStep(s, j, who, why).0;
      (k in s.store && t.store[k] == s.store[k]) || Causes(Reject(j, who, why), k, t.store[k])
  {
    RejectTakesEffect(cfg, s, j, who, why);
    hide Inv, RejectStep;
  }

  lemma RevokeIsCaused(cfg: Config, s: State, j: Slot, why: string, k: Slot)
    requires Inv(cfg, s) && k in RevokeStep(s, j, why).0.store
    ensures var t := RevokeStep(s, j, why).0;
      (k in s.store && t.store[k] == s.store[k]) || Causes(Revoke(j, why), k, t.store[k])
  {
    RevokeTakesEffect(cfg, s, j, why);
    if j in s.store { RevocationCauses(j, s.store[j].(status := Revoked, revocationReason := Some(why)), why); }
    hide Inv, RevokeStep, Causes;
  }

  lemma RevocationCauses(k: Slot, r: Record, why: string)
    requires r.status == Revoked && r.revocationReason == Some(why)
    ensures Causes(Revoke(k, why), k, r)
  {
  }

  lemma AmendIsCaused(cfg: Config, s: State, q: AmendRequest, id: string, now: int, k: Slot)
    requires Keyed(s.store) && Slot(q.slot.tenant, id) !in s.store && k in AmendStep(cfg, s, q, id, now).0.store
    ensures var t := AmendStep(cfg, s, q, id, now).0;
      (k in s.store && t.store[k] == s.store[k]) || Causes(Amend(q, id, now), k, t.store[k])
  {
    AmendOutcome(cfg, s, q, id, now);
    hide AmendStep, Keyed;
  }

  lemma AmendOutcome(cfg: Config, s: State, q: AmendRequest, id: string, now: int)
    requires Keyed(s.store) && Slot(q.slot.tenant, id) !in s.store
    ensures var t, n := AmendStep(cfg, s, q, id, now).0, Slot(q.slot.tenant, id);
      t == s || (q.slot in s.store
        && q.slot in t.store && t.store.Keys <= s.store.Keys + {n}
        && (forall k :: k in t.store && k != q.slot && k != n ==> t.store[k] == s.store[k])
        && (n in t.store ==> t.store[n].status == Pending)
        && t.store[q.slot] == s.store[q.slot].(status := Superseded, supersededBy := Some(id)))
  {
    assert q.slot in s.store ==> SlotOf(s.store[q.slot]) == q.slot;
    hide Keyed, RequiredTier, TierDefined, PayloadOf;
  }

  ghost predicate AllCaused(s: State, past: seq<Call>) {
    forall k :: k in s.store ==> exists c :: c in past && Causes(c, k, s.store[k])
  }

  lemma StepKeepsCaused(cfg: Config, s: State, c: Call, past: seq<Call>)
    requires Inv(cfg, s) && Enabled(s, c) && AllCaused(s, past)
    ensures AllCaused(Step(cfg, s, c), past + [c])
  {
    var t := Step(cfg, s, c);
    hide Inv, Step, Causes, Enabled;
    forall k | k in t.store ensures exists b :: b in past + [c] && Causes(b, k, t.store[k]) {
      ChangeIsCaused(cfg, s, c, k);
      if Causes(c, k, t.store[k]) {
        assert c in past + [c];
      } else {
        var b :| b in past && Causes(b, k, s.store[k]);
        assert b in past + [c];
      }
    }
  }

  lemma {:induction false} RunKeepsCaused(cfg: Config, s: State, cs: seq<Call>, past: seq<Call>)
    requires Inv(cfg, s) && Possible(cfg, s, cs) && AllCaused(s, past)
    ensures AllCaused(Run(cfg, s, cs), past + cs)
    decreases |cs|
  {
    hide Inv, AllCaused, Step, Enabled;
    if cs == [] {
      assert past + cs == past;
    } else {
      StepKeepsInv(cfg, s, cs[0]);
      StepKeepsCaused(cfg, s, cs[0], past);
      RunKeepsCaused(cfg, Step(cfg, s, cs[0]), cs[1..], past + [cs[0]]);
      assert past + [cs[0]] + cs[1..] == past + cs;
    }
  }

  /**
   * Over every run a record has its status from a call that asked for it, with the decider, reason, moment or successor
   * noted there: granted by a human before its expiry for its own digest, expired at or after its own expiry.
   */
  lemma StatusHasCause(cfg: Config, cs: seq<Call>, k: Slot) returns (c: Call)
    requires Possible(cfg, INITIAL, cs) && k in Run(cfg, INITIAL, cs).store
    ensures c in cs && Causes(c, k, Run(cfg, INITIAL, cs).store[k])
  {
    hide Run, Possible, Causes;
    assert Inv(cfg, INITIAL);
    RunKeepsCaused(cfg, INITIAL, cs, []);
    assert [] + cs == cs;
    c :| c in cs && Causes(c, k, Run(cfg, INITIAL, cs).store[k]);
  }
}
