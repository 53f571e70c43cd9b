/** What every run of approval service calls keeps: supersession chains, grants, sealed fields. */
module ApprovalHistory {
  import opened Wrappers
  import opened TenantStore
  import opened ApprovalService

  // ---------------------------------------------------------------- runs

  datatype Call =
    | Create(create: CreateRequest, id: string, now: int)
    | GrantCall(grant: GrantRequest)
    | Reject(slot: Slot, approver: string, reason: string)
    | Revoke(slot: Slot, reason: string)
    | Amend(amend: AmendRequest, id: string, now: int)
    | Expire(tenant: string, now: int)

  /** A generated id has not been generated before for the tenant. */
  predicate Enabled(s: State, c: Call) {
    match c
    case Create(q, id, _) => Slot(q.tenant, id) !in s.rank
    case Amend(q, id, _) => Slot(q.slot.tenant, id) !in s.rank
    case _ => true
  }

  function Step(cfg: Config, s: State, c: Call): State {
    match c
    case Create(q, id, now) => CreateStep(cfg, s, q, id, now).0
    case GrantCall(q) => GrantStep(cfg, s, q).0
    case Reject(k, who, why) => RejectStep(s, k, who, why).0
    case Revoke(k, why) => RevokeStep(s, k, why).0
    case Amend(q, id, now) => AmendStep(cfg, s, q, id, now).0
    case Expire(t, now) => ExpireStep(s, t, now)
  }

  predicate Possible(cfg: Config, s: State, cs: seq<Call>)
    decreases |cs|
  {
    cs == [] || (Enabled(s, cs[0]) && Possible(cfg, Step(cfg, s, cs[0]), cs[1..]))
  }

  function Run(cfg: Config, s: State, cs: seq<Call>): State
    decreases |cs|
  {
    if cs == [] then s else Run(cfg, Step(cfg, s, cs[0]), cs[1..])
  }

  // ---------------------------------------------------------------- the invariant

  /** What each stored record satisfies by itself. */
  predicate Sound(cfg: Config, r: Record) {
    && cfg.digestible(PayloadOf(r)) && r.digest == cfg.hash(PayloadOf(r))
    && r.tier == RequiredTier(r.risk, r.cost)
    && r.cost >= 0.0 && r.reserved == r.cost
    && r.requester == None
    && (r.status.Pending? || r.status.Approved? || r.status.Rejected? || r.status.Expired? || r.status.Revoked?
        || r.status.Superseded?)
    && (r.grantedAt.Some? ==> r.status.Approved? || r.status.Revoked? || r.status.Superseded?)
    && (r.status.Approved? ==> r.grantedAt.Some?)
    && (r.status.Superseded? ==> r.supersededBy.Some?)
  }

  ghost predicate AllSound(cfg: Config, s: State) {
    forall k {:trigger s.store[k]} :: k in s.store ==> Sound(cfg, s.store[k])
  }

  ghost predicate Ranked(s: State) {
    && (forall k :: k in s.store ==> k in s.rank)
    && (forall k {:trigger s.rank[k]} :: k in s.rank ==> s.rank[k] < s.next)
    && (forall j, k {:trigger s.rank[j], s.rank[k]} :: j in s.rank && k in s.rank && s.rank[j] == s.rank[k] ==> j == k)
  }

  function Successor(k: Slot, r: Record): Slot
    requires r.supersededBy.Some?
  {
    Slot(k.tenant, r.supersededBy.value)
  }

  /** Fields an amendment hands on. */
  predicate SameCase(a: Record, b: Record) {
    && a.tenant == b.tenant && a.decision == b.decision && a.investigation == b.investigation && a.action == b.action
    && a.version == b.version && a.customer == b.customer && a.risk == b.risk && a.policyDigest == b.policyDigest
    && a.decisionDigest == b.decisionDigest && a.correlation == b.correlation
  }

  /** A link goes to an id generated later; the record there, if any, is the amendment of this one. */
  predicate LinkOk(s: State, k: Slot) {
    k in s.store && s.store[k].supersededBy.Some? ==>
      var j := Successor(k, s.store[k]);
      && j in s.rank && k in s.rank && s.rank[k] < s.rank[j]
      && (j in s.store ==> s.store[j].causation == k.id && SameCase(s.store[k], s.store[j]))
  }

  ghost predicate Linked(s: State) {
    forall k {:trigger s.store[k]} :: k in s.store ==> LinkOk(s, k)
  }

  predicate GrantOk(s: State, g: Grant) {
    g.slot in s.store &&
    var r := s.store[g.slot];
    r.grantedAt == Some(g.at) && r.approver == Some(g.approver) && g.at < r.expiry && g.tier >= r.tier
      && g.expected == r.digest
  }

  function GrantedSlots(gs: seq<Grant>): set<Slot> {
    set i | 0 <= i < |gs| :: gs[i].slot
  }

  ghost predicate GrantsOk(s: State) {
    && (forall i :: 0 <= i < |s.grants| ==> GrantOk(s, s.grants[i]))
    && (forall i, j :: 0 <= i < j < |s.grants| ==> s.grants[i].slot != s.grants[j].slot)
    && (forall k {:trigger s.store[k]} :: k in s.store && s.store[k].grantedAt.Some? ==> k in GrantedSlots(s.grants))
  }

  ghost predicate Inv(cfg: Config, s: State) {
    Keyed(s.store) && AllSound(cfg, s) && Ranked(s) && Linked(s) && GrantsOk(s)
  }

  // ---------------------------------------------------------------- the three kinds of write

  /** Everything about a record but its status and what the calls note beside it. */
  function Sealed(r: Record): Record {
    r.(status := Pending, approver := None, grantedAt := None, rejectionReason := None, revocationReason := None,
      supersededBy := None)
  }

  /** A record changes without being granted and without a new link. */
  predicate Quiet(a: Record, b: Record) {
    && Sealed(a) == Sealed(b) && a.supersededBy == b.supersededBy && a.grantedAt == b.grantedAt
    && (a.grantedAt.Some? ==> a.approver == b.approver)
  }

  /** Records may change quietly, any number at once. */
  ghost predicate QuietChange(cfg: Config, s: State, store: map<Slot, Record>) {
    && store.Keys == s.store.Keys
    && forall k {:trigger store[k]} :: k in store ==> Quiet(s.store[k], store[k]) && Sound(cfg, store[k])
  }

  lemma QuietKeepsInv(cfg: Config, s: State, store: map<Slot, Record>)
    requires Inv(cfg, s) && QuietChange(cfg, s, store)
    ensures Inv(cfg, s.(store := store))
  {
    hide Sound, LinkOk, GrantsOk, Quiet;
    var t := s.(store := store);
    forall k | k in t.store ensures LinkOk(t, k) && SlotOf(t.store[k]) == k {
      assert LinkOk(s, k) && SlotOf(s.store[k]) == k && Quiet(s.store[k], t.store[k]);
      QuietLink(s, store, k);
    }
    QuietKeepsLog(cfg, s, store);
  }

  lemma QuietKeepsLog(cfg: Config, s: State, store: map<Slot, Record>)
    requires GrantsOk(s) && QuietChange(cfg, s, store)
    ensures GrantsOk(s.(store := store))
  {
    hide Sound, GrantOk, Quiet;
    var t := s.(store := store);
    forall i | 0 <= i < |t.grants| ensures GrantOk(t, t.grants[i]) {
      assert GrantOk(s, s.grants[i]);
      QuietGrant(s, store, s.grants[i]);
    }
    forall k | k in t.store && t.store[k].grantedAt.Some? ensures k in GrantedSlots(t.grants) {
      QuietGranted(s.store[k], t.store[k]);
    }
  }

  lemma QuietGranted(a: Record, b: Record)
    requires Quiet(a, b)
    ensures a.grantedAt == b.grantedAt
  {
  }

  lemma QuietGrant(s: State, store: map<Slot, Record>, g: Grant)
    requires GrantOk(s, g) && store.Keys == s.store.Keys
    requires forall k {:trigger store[k]} :: k in store ==> Quiet(s.store[k], store[k])
    ensures GrantOk(s.(store := store), g)
  {
    var a, b := s.store[g.slot], store[g.slot];
    assert Sealed(a).expiry == a.expiry && Sealed(b).expiry == b.expiry && Sealed(a).tier == a.tier
      && Sealed(b).tier == b.tier;
    assert Sealed(a).digest == a.digest && Sealed(b).digest == b.digest;
  }

  lemma QuietLink(s: State, store: map<Slot, Record>, k: Slot)
    requires store.Keys == s.store.Keys && k in store && LinkOk(s, k) && Quiet(s.store[k], store[k])
    requires forall j {:trigger store[j]} :: j in store ==> Quiet(s.store[j], store[j])
    ensures LinkOk(s.(store := store), k) && SlotOf(store[k]) == SlotOf(s.store[k])
  {
    SealedFacts(s.store[k], store[k]);
    if store[k].supersededBy.Some? && Successor(k, store[k]) in store {
      SealedFacts(s.store[Successor(k, store[k])], store[Successor(k, store[k])]);
    }
  }

  lemma SealedFacts(a: Record, b: Record)
    requires Sealed(a) == Sealed(b)
    ensures SlotOf(a) == SlotOf(b) && a.causation == b.causation && a.expiry == b.expiry
    ensures forall c :: SameCase(a, c) <==> SameCase(b, c)
    ensures forall c :: SameCase(c, a) <==> SameCase(c, b)
  {
    assert Sealed(a).causation == a.causation && Sealed(b).causation == b.causation && Sealed(a).expiry == a.expiry;
    assert SlotOf(a) == SlotOf(Sealed(a)) && SlotOf(b) == SlotOf(Sealed(b));
    assert SameCase(a, Sealed(a)) && SameCase(b, Sealed(b));
  }

  lemma QuietWrite(cfg: Config, s: State, k: Slot, r: Record)
    requires Inv(cfg, s) && k in s.store && Quiet(s.store[k], r) && Sound(cfg, r)
    ensures Inv(cfg, Write(s, r))
  {
    hide Sound, Quiet, Linked, GrantsOk, Ranked;
    assert SlotOf(s.store[k]) == k;
    assert SlotOf(r) == k by { QuietSlot(s.store[k], r); }
    forall j | j in s.store && j != k ensures Quiet(s.store[j], s.store[j]) && Sound(cfg, s.store[j]) {
      QuietSame(s.store[j]);
    }
    QuietKeepsInv(cfg, s, s.store[k := r]);
  }

  lemma QuietSlot(a: Record, b: Record)
    requires Quiet(a, b)
    ensures SlotOf(a) == SlotOf(b)
  {
    SealedFacts(a, b);
  }

  lemma QuietSame(a: Record)
    ensures Quiet(a, a)
  {
  }

  /** The grant log only looks at a few fields of the records, and new records are not granted. */
  predicate SameGrant(a: Record, b: Record) {
    a.grantedAt == b.grantedAt && a.approver == b.approver && a.expiry == b.expiry && a.tier == b.tier
      && a.digest == b.digest
  }

  lemma LogCarries(s: State, t: State)
    requires GrantsOk(s) && t.grants == s.grants
    requires forall k :: k in s.store ==> k in t.store && SameGrant(s.store[k], t.store[k])
    requires forall k :: k in t.store && k !in s.store ==> t.store[k].grantedAt == None
    ensures GrantsOk(t)
  {
    forall i | 0 <= i < |t.grants| ensures GrantOk(t, t.grants[i]) {
      assert GrantOk(s, s.grants[i]);
    }
  }

  /** A new record without a link, at a slot that no link leads to. */
  lemma NewRecordKeepsLinks(s: State, t: State, n: Slot)
    requires Linked(s) && n !in s.rank && n !in s.store && n in t.store && t.store == s.store[n := t.store[n]]
    requires t.store[n].supersededBy == None && forall k :: k in s.rank ==> k in t.rank && t.rank[k] == s.rank[k]
    ensures Linked(t)
  {
    forall j | j in t.store ensures LinkOk(t, j) {
      if j != n { assert LinkOk(s, j); }
    }
  }

  lemma FreshWrite(cfg: Config, s: State, r: Record)
    requires Inv(cfg, s) && SlotOf(r) !in s.rank && Sound(cfg, r) && r.supersededBy == None && r.grantedAt == None
    ensures Inv(cfg, Write(Issue(s, SlotOf(r)), r))
  {
    var n, t := SlotOf(r), Write(Issue(s, SlotOf(r)), r);
    assert n !in s.store;
    FreshKeepsBooks(cfg, s, r);
    hide Sound, LinkOk, GrantOk, GrantedSlots, Keyed, AllSound, Ranked;
    assert t.store == s.store[n := r] && t.store[n] == r;
    NewRecordKeepsLinks(s, t, n);
    LogCarries(s, t);
  }

  lemma FreshKeepsBooks(cfg: Config, s: State, r: Record)
    requires Keyed(s.store) && AllSound(cfg, s) && Ranked(s) && SlotOf(r) !in s.rank && Sound(cfg, r)
    ensures var t := Write(Issue(s, SlotOf(r)), r); Keyed(t.store) && AllSound(cfg, t) && Ranked(t)
  {
    hide Sound;
  }

  /** The first half of an amendment: the original points at an id nothing is stored under. */
  lemma LinkWrite(cfg: Config, s: State, k: Slot, id: string)
    requires Inv(cfg, s) && k in s.store && Slot(k.tenant, id) !in s.rank
    ensures Inv(cfg, Write(Issue(s, Slot(k.tenant, id)), s.store[k].(status := Superseded, supersededBy := Some(id))))
  {
    var n := Slot(k.tenant, id);
    var r := s.store[k].(status := Superseded, supersededBy := Some(id));
    var t := Write(Issue(s, n), r);
    assert SlotOf(s.store[k]) == k && SlotOf(r) == k && n !in s.store && k != n;
    assert Sound(cfg, s.store[k]) && Sound(cfg, r);
    SupersedeKeepsLinks(s, t, k, n, r);
    LogCarries(s, t);
    hide Linked, GrantsOk, Sound;
  }

  lemma SupersedeKeepsLinks(s: State, t: State, k: Slot, n: Slot, r: Record)
    requires Linked(s) && k in s.store && k in s.rank && k != n && n !in s.store && s.rank[k] < s.next
    requires r == s.store[k].(status := Superseded, supersededBy := Some(n.id)) && n.tenant == k.tenant && n !in s.rank
    requires t.store == s.store[k := r] && t.rank == s.rank[n := s.next]
    ensures Linked(t)
  {
    forall j | j in t.store ensures LinkOk(t, j) {
      assert LinkOk(s, j);
      if j != k { LinkAfterSupersede(s, t, k, r, j); }
    }
  }

  lemma LinkAfterSupersede(s: State, t: State, k: Slot, r: Record, j: Slot)
    requires k in s.store && j in s.store && j != k && LinkOk(s, j)
    requires t.store == s.store[k := r] && SameCase(s.store[k], r) && r.causation == s.store[k].causation
    requires forall x :: x in s.rank ==> x in t.rank && t.rank[x] == s.rank[x]
    ensures LinkOk(t, j)
  {
  }

  /** The second half: the record the link was made for. */
  lemma AmendmentWrite(cfg: Config, s: State, k: Slot, r: Record)
    requires Inv(cfg, s) && k in s.store && s.store[k].supersededBy == Some(r.id) && r.tenant == k.tenant
    requires SlotOf(r) in s.rank && SlotOf(r) !in s.store && Sound(cfg, r) && r.supersededBy == None
      && r.grantedAt == None
    requires r.causation == k.id && SameCase(s.store[k], r)
    requires forall j :: j in s.store && j != k && s.store[j].supersededBy.Some? ==>
      Successor(j, s.store[j]) != SlotOf(r)
    ensures Inv(cfg, Write(s, r))
  {
    var t := Write(s, r);
    forall j | j in t.store ensures LinkOk(t, j) {
      if j != SlotOf(r) { assert LinkOk(s, j); }
    }
    forall i | 0 <= i < |t.grants| ensures GrantOk(t, t.grants[i]) {
      assert GrantOk(s, s.grants[i]);
    }
  }

  function Granted(r: Record, q: GrantRequest): Record {
    r.(status := Approved, approver := Some(q.approver), grantedAt := Some(q.now))
  }

  lemma GrantedFacts(cfg: Config, r: Record, q: GrantRequest)
    requires Sound(cfg, r) && r.status.Pending?
    ensures Sound(cfg, Granted(r, q)) && SlotOf(Granted(r, q)) == SlotOf(r) && r.grantedAt == None
    ensures Sealed(Granted(r, q)) == Sealed(r) && Granted(r, q).supersededBy == r.supersededBy
  {
  }

  lemma GrantWrite(cfg: Config, s: State, q: GrantRequest)
    requires Inv(cfg, s) && q.slot in s.store && s.store[q.slot].status.Pending?
    requires q.now < s.store[q.slot].expiry && q.tier >= s.store[q.slot].tier && q.expected == s.store[q.slot].digest
    ensures var r, g := Granted(s.store[q.slot], q), Grant(q.slot, q.approver, q.tier, q.now, q.expected);
      Inv(cfg, Write(s, r).(grants := s.grants + [g]))
  {
    var r, g := Granted(s.store[q.slot], q), Grant(q.slot, q.approver, q.tier, q.now, q.expected);
    assert SlotOf(s.store[q.slot]) == q.slot && Sound(cfg, s.store[q.slot]);
    GrantedFacts(cfg, s.store[q.slot], q);
    hide Keyed, AllSound, Ranked, Linked, GrantsOk, Sound, Sealed;
    GrantKeepsLog(s, q.slot, r, g);
    GrantKeepsRecords(cfg, s, q.slot, r, s.grants + [g]);
    GrantKeepsLinks(s, q.slot, r, s.grants + [g]);
  }

  lemma GrantKeepsRecords(cfg: Config, s: State, k: Slot, r: Record, grants: seq<Grant>)
    requires Keyed(s.store) && AllSound(cfg, s) && Ranked(s) && k in s.store && SlotOf(r) == k && Sound(cfg, r)
    ensures var t := s.(store := s.store[k := r], grants := grants);
      Keyed(t.store) && AllSound(cfg, t) && Ranked(t)
  {
    hide Sound;
  }

  lemma GrantKeepsLinks(s: State, k: Slot, r: Record, grants: seq<Grant>)
    requires Linked(s) && k in s.store && Sealed(r) == Sealed(s.store[k]) && r.supersededBy == s.store[k].supersededBy
    ensures Linked(s.(store := s.store[k := r], grants := grants))
  {
    var t := s.(store := s.store[k := r], grants := grants);
    SealedFacts(s.store[k], r);
    forall j | j in t.store ensures LinkOk(t, j) {
      assert LinkOk(s, j);
    }
  }

  lemma GrantKeepsLog(s: State, k: Slot, r: Record, g: Grant)
    requires GrantsOk(s) && k in s.store && s.store[k].grantedAt == None && g.slot == k
    requires r.grantedAt == Some(g.at) && r.approver == Some(g.approver) && g.at < r.expiry && g.tier >= r.tier
      && g.expected == r.digest
    ensures GrantsOk(s.(store := s.store[k := r], grants := s.grants + [g]))
  {
    var t := s.(store := s.store[k := r], grants := s.grants + [g]);
    forall i | 0 <= i < |t.grants| ensures GrantOk(t, t.grants[i]) && (i < |s.grants| ==> t.grants[i].slot != k) {
      if i < |s.grants| {
        assert GrantOk(s, s.grants[i]) && t.grants[i] == s.grants[i];
      }
    }
    GrantedGrows(s.grants, g);
  }

  lemma GrantedGrows(gs: seq<Grant>, g: Grant)
    ensures GrantedSlots(gs + [g]) == GrantedSlots(gs) + {g.slot}
  {
    forall k ensures k in GrantedSlots(gs + [g]) <==> k in GrantedSlots(gs) || k == g.slot {
      if k in GrantedSlots(gs) {
        var i :| 0 <= i < |gs| && gs[i].slot == k;
        assert (gs + [g])[i].slot == k;
      }
      assert (gs + [g])[|gs|].slot == g.slot;
    }
  }

  lemma ExpireWrites(cfg: Config, s: State, slots: set<Slot>)
    requires Inv(cfg, s) && forall k :: k in slots && k in s.store ==> s.store[k].status.Pending?
    ensures Inv(cfg, s.(store := Marked(s.store, slots)))
  {
    hide Sound, Quiet, Linked, GrantsOk, Ranked, Keyed;
    var marked := Marked(s.store, slots);
    forall k | k in marked ensures Quiet(s.store[k], marked[k]) && Sound(cfg, marked[k]) {
      assert Sound(cfg, s.store[k]);
      QuietSame(s.store[k]);
      if k in slots { ExpiringIsQuiet(cfg, s.store[k]); }
    }
    QuietKeepsInv(cfg, s, marked);
  }

  lemma ExpiringIsQuiet(cfg: Config, r: Record)
    requires Sound(cfg, r) && r.status.Pending?
    ensures Quiet(r, r.(status := Expired)) && Sound(cfg, r.(status := Expired))
  {
  }

  // ---------------------------------------------------------------- every call keeps the invariant

  lemma CreateKeepsInv(cfg: Config, s: State, q: CreateRequest, id: string, now: int)
    requires Inv(cfg, s) && Slot(q.tenant, id) !in s.rank
    ensures Inv(cfg, CreateStep(cfg, s, q, id, now).0)
  {
    hide Inv, RequiredTier;
    if CreateStep(cfg, s, q, id, now).1.Success? {
      FreshWrite(cfg, s, NewRecord(cfg, q, id, now));
    }
  }

  lemma ExpiryKeepsInv(cfg: Config, s: State, k: Slot)
    requires Inv(cfg, s) && k in s.store && s.store[k].status.Pending?
    ensures Inv(cfg, Write(s, s.store[k].(status := Expired)))
  {
    assert Sound(cfg, s.store[k]);
    hide Inv, RequiredTier;
    ExpiringIsQuiet(cfg, s.store[k]);
    hide Sound, Quiet;
    QuietWrite(cfg, s, k, s.store[k].(status := Expired));
  }

  /** A grant leaves the state alone, expires the record, or approves it. */
  lemma GrantCases(cfg: Config, s: State, q: GrantRequest)
    ensures var t := GrantStep(cfg, s, q).0;
      t == s || (q.human && q.slot in s.store && s.store[q.slot].status.Pending?
        && var r := s.store[q.slot];
        (q.now >= r.expiry && t == Write(s, r.(status := Expired)))
        || (q.now < r.expiry && q.tier >= r.tier && q.expected == r.digest
            && t == Write(s, r.(status := Approved, approver := Some(q.approver), grantedAt := Some(q.now)))
                    .(grants := s.grants + [Grant(q.slot, q.approver, q.tier, q.now, q.expected)])))
  {
    hide Write;
  }

  lemma GrantKeepsInv(cfg: Config, s: State, q: GrantRequest)
    requires Inv(cfg, s)
    ensures Inv(cfg, GrantStep(cfg, s, q).0)
  {
    hide Inv, Write;
    GrantCases(cfg, s, q);
    hide GrantStep;
    if q.slot in s.store && s.store[q.slot].status.Pending? {
      var r := s.store[q.slot];
      ExpiryKeepsInv(cfg, s, q.slot);
      if q.now < r.expiry && q.tier >= r.tier && q.expected == r.digest {
        GrantWrite(cfg, s, q);
      }
    }
  }

  lemma RejectKeepsInv(cfg: Config, s: State, k: Slot, approver: string, reason: string)
    requires Inv(cfg, s)
    ensures Inv(cfg, RejectStep(s, k, approver, reason).0)
  {
    if k in s.store && s.store[k].status.Pending? {
      assert Sound(cfg, s.store[k]);
      hide Inv;
      QuietWrite(cfg, s, k, s.store[k].(status := Rejected, approver := Some(approver),
        rejectionReason := Some(reason)));
    }
  }

  lemma RevokeKeepsInv(cfg: Config, s: State, k: Slot, reason: string)
    requires Inv(cfg, s)
    ensures Inv(cfg, RevokeStep(s, k, reason).0)
  {
    if k in s.store {
      assert Sound(cfg, s.store[k]);
      hide Inv;
      QuietWrite(cfg, s, k, s.store[k].(status := Revoked, revocationReason := Some(reason)));
    }
  }

  lemma AmendKeepsInv(cfg: Config, s: State, q: AmendRequest, id: string, now: int)
    requires Inv(cfg, s) && Slot(q.slot.tenant, id) !in s.rank
    ensures Inv(cfg, AmendStep(cfg, s, q, id, now).0)
  {
    var step := AmendStep(cfg, s, q, id, now);
    if q.slot in s.store && step.0 != s {
      var r := s.store[q.slot];
      assert Sound(cfg, r) && SlotOf(r) == q.slot;
      var n := Slot(q.slot.tenant, id);
      var t := Write(Issue(s, n), r.(status := Superseded, supersededBy := Some(id)));
      LinkWrite(cfg, s, q.slot, id);
      assert Inv(cfg, t);
      if Buildable(cfg, r, q) {
        var b := Amendment(cfg, r, q, id, now);
        OnlyOneLink(cfg, s, q.slot, id);
        hide Inv, RequiredTier;
        AmendmentWrite(cfg, t, q.slot, b);
      }
    }
  }

  lemma OnlyOneLink(cfg: Config, s: State, k: Slot, id: string)
    requires Inv(cfg, s) && k in s.store && Slot(k.tenant, id) !in s.rank
    ensures Slot(k.tenant, id) !in s.store && k != Slot(k.tenant, id)
    ensures forall j :: j in s.store && s.store[j].supersededBy.Some? ==> Successor(j, s.store[j]) != Slot(k.tenant, id)
  {
    forall j | j in s.store && s.store[j].supersededBy.Some? ensures Successor(j, s.store[j]) != Slot(k.tenant, id) {
      assert LinkOk(s, j);
    }
  }

  lemma ExpireKeepsInv(cfg: Config, s: State, tenant: string, now: int)
    requires Inv(cfg, s)
    ensures Inv(cfg, ExpireStep(s, tenant, now))
  {
    hide Inv;
    ExpireWrites(cfg, s, StaleSlots(s.store, tenant, now));
  }

  lemma StepKeepsInv(cfg: Config, s: State, c: Call)
    requires Inv(cfg, s) && Enabled(s, c)
    ensures Inv(cfg, Step(cfg, s, c))
  {
    hide Inv, CreateStep, GrantStep, RejectStep, RevokeStep, AmendStep, ExpireStep;
    match c
    case Create(q, id, now) => CreateKeepsInv(cfg, s, q, id, now);
    case GrantCall(q) => GrantKeepsInv(cfg, s, q);
    case Reject(k, who, why) => RejectKeepsInv(cfg, s, k, who, why);
    case Revoke(k, why) => RevokeKeepsInv(cfg, s, k, why);
    case Amend(q, id, now) => AmendKeepsInv(cfg, s, q, id, now);
    case Expire(t, now) => ExpireKeepsInv(cfg, s, t, now);
  }

  lemma {:induction false} RunKeepsInv(cfg: Config, s: State, cs: seq<Call>)
    requires Inv(cfg, s) && Possible(cfg, s, cs)
    ensures Inv(cfg, Run(cfg, s, cs))
    decreases |cs|
  {
    if cs != [] {
      hide Inv, Step;
      StepKeepsInv(cfg, s, cs[0]);
      RunKeepsInv(cfg, Step(cfg, s, cs[0]), cs[1..]);
    }
  }

  lemma ReachableInv(cfg: Config, cs: seq<Call>)
    requires Possible(cfg, INITIAL, cs)
    ensures Inv(cfg, Run(cfg, INITIAL, cs))
  {
    assert Inv(cfg, INITIAL);
    RunKeepsInv(cfg, INITIAL, cs);
  }
}
