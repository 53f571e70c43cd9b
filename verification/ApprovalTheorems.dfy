/** The approval service over all runs: chains end, grants happen once, records only move forward. */
module ApprovalTheorems {
  import opened Sequences
  import opened Wrappers
  import opened TenantStore
  import opened ApprovalService
  import opened ApprovalHistory

  // ---------------------------------------------------------------- supersession chains

  predicate HasNext(s: State, k: Slot) {
    k in s.store && s.store[k].supersededBy.Some? && Successor(k, s.store[k]) in s.store
  }

  /** The records met by following `supersededBy` from `k`; ids generated later bound the walk. */
  ghost function Chain(cfg: Config, s: State, k: Slot): (c: seq<Slot>)
    requires Inv(cfg, s) && k in s.store
    ensures c != [] && c[0] == k
    decreases s.next - Rank(s, k)
  {
    assert LinkOk(s, k) && k in s.rank;
    if HasNext(s, k) then
      assert Rank(s, k) < Rank(s, Successor(k, s.store[k])) < s.next;
      [k] + Chain(cfg, s, Successor(k, s.store[k]))
    else [k]
  }

  function Rank(s: State, k: Slot): nat {
    if k in s.rank then s.rank[k] else 0
  }

  /** `b` is the amendment that superseded `a`. */
  predicate Amends(s: State, a: Slot, b: Slot) {
    && a in s.store && b in s.store && s.store[a].supersededBy == Some(b.id)
    && s.store[b].causation == a.id && SameCase(s.store[a], s.store[b]) && Rank(s, a) < Rank(s, b)
  }

  lemma {:induction false} ChainLinks(cfg: Config, s: State, k: Slot)
    requires Inv(cfg, s) && k in s.store
    ensures var c := Chain(cfg, s, k);
      && (forall i :: 0 <= i < |c| - 1 ==> Amends(s, c[i], c[i+1]))
      && c[|c|-1] in s.store && !HasNext(s, c[|c|-1])
      && (forall i :: 0 <= i < |c| ==>
          c[i] in s.store && SameCase(s.store[k], s.store[c[i]]) && Rank(s, k) <= Rank(s, c[i]))
    decreases s.next - Rank(s, k)
  {
    if HasNext(s, k) {
      var j := Successor(k, s.store[k]);
      assert LinkOk(s, k);
      NextIsNear(cfg, s, k);
      ChainLinks(cfg, s, j);
      hide Inv, LinkOk, Rank;
      var rest := Chain(cfg, s, j);
      var c := Chain(cfg, s, k);
      assert c == [k] + rest;
      forall i | 0 <= i < |c| - 1 ensures Amends(s, c[i], c[i+1]) {
        if i > 0 { assert Amends(s, rest[i-1], rest[i]); }
      }
      forall i | 0 <= i < |c|
        ensures c[i] in s.store && SameCase(s.store[k], s.store[c[i]]) && Rank(s, k) <= Rank(s, c[i])
      {
        if i > 0 { assert c[i] == rest[i-1]; }
      }
    }
  }

  lemma NextIsNear(cfg: Config, s: State, k: Slot)
    requires Inv(cfg, s) && HasNext(s, k)
    ensures Amends(s, k, Successor(k, s.store[k])) && Rank(s, Successor(k, s.store[k])) < s.next
  {
    assert LinkOk(s, k);
  }

  /** A chain never visits a record twice, so it is no longer than the store. */
  lemma ChainsEnd(cfg: Config, s: State, k: Slot)
    requires Inv(cfg, s) && k in s.store
    ensures var c := Chain(cfg, s, k);
      && (forall i, j :: 0 <= i < j < |c| ==> c[i] != c[j])
      && |c| <= |s.store|
  {
    var c := Chain(cfg, s, k);
    ChainLinks(cfg, s, k);
    hide Inv, Chain;
    forall i, j | 0 <= i < j < |c| ensures c[i] != c[j] {
      RanksRise(s, c, i, j);
    }
    DistinctFit(c, s.store.Keys);
  }

  lemma {:induction false} RanksRise(s: State, c: seq<Slot>, i: nat, j: nat)
    requires i < j < |c| && forall n :: 0 <= n < |c| - 1 ==> Amends(s, c[n], c[n+1])
    ensures Rank(s, c[i]) < Rank(s, c[j])
  {
    assert Amends(s, c[j-1], c[j]);
    if i < j - 1 { RanksRise(s, c, i, j - 1); }
  }

  lemma {:induction false} DistinctFit(c: seq<Slot>, keys: set<Slot>)
    requires forall i, j :: 0 <= i < j < |c| ==> c[i] != c[j]
    requires forall i :: 0 <= i < |c| ==> c[i] in keys
    ensures |c| <= |keys|
  {
    if c != [] {
      DistinctFit(c[1..], keys - {c[0]});
    }
  }

  /** Supersession never merges: a stored record replaces at most one other. */
  lemma OneOriginal(cfg: Config, s: State, a: Slot, b: Slot)
    requires Inv(cfg, s) && HasNext(s, a) && HasNext(s, b)
    requires Successor(a, s.store[a]) == Successor(b, s.store[b])
    ensures a == b
  {
    NextIsNear(cfg, s, a);
    NextIsNear(cfg, s, b);
  }

  /**
   * An amendment succeeds exactly on an amendable record, with a payload that can be digested and a finite cost of at
   * least zero; the chain then runs on to a fresh, ungranted record.
   */
  lemma AmendSucceedsIff(cfg: Config, s: State, q: AmendRequest, id: string, now: int)
    requires Inv(cfg, s) && Slot(q.slot.tenant, id) !in s.rank
    ensures var (t, r) := AmendStep(cfg, s, q, id, now);
      && (r.Success? <==>
            q.slot in s.store && !s.store[q.slot].status.Superseded? && Buildable(cfg, s.store[q.slot], q))
      && (r.Success? ==>
            var k := Slot(q.slot.tenant, id);
            Amends(t, q.slot, k) && HasNext(t, q.slot) && Successor(q.slot, t.store[q.slot]) == k && !HasNext(t, k)
            && t.store[k].status.Pending? && t.store[k].payload == q.payload && k !in GrantedSlots(t.grants))
  {
    var (t, r) := AmendStep(cfg, s, q, id, now);
    if q.slot in s.store {
      assert Sound(cfg, s.store[q.slot]) && SlotOf(s.store[q.slot]) == q.slot;
      AmendKeepsInv(cfg, s, q, id, now);
      OnlyOneLink(cfg, s, q.slot, id);
      if r.Success? {
        NextIsNear(cfg, t, q.slot);
        FreshIsUngranted(cfg, s, Slot(q.slot.tenant, id));
      }
    }
  }

  lemma FreshIsUngranted(cfg: Config, s: State, k: Slot)
    requires Inv(cfg, s) && k !in s.store
    ensures k !in GrantedSlots(s.grants)
  {
    forall i | 0 <= i < |s.grants| ensures s.grants[i].slot in s.store {
      assert GrantOk(s, s.grants[i]);
    }
  }

  // ---------------------------------------------------------------- dangling links

  ghost predicate LinksLive(s: State) {
    forall k {:trigger s.store[k]} :: k in s.store && s.store[k].supersededBy.Some? ==>
      Successor(k, s.store[k]) in s.store
  }

  /** An amendment that supersedes its original and then fails to build the new record. */
  predicate Dangles(cfg: Config, s: State, c: Call) {
    && c.Amend? && c.amend.slot in s.store && !Buildable(cfg, s.store[c.amend.slot], c.amend)
    && !s.store[c.amend.slot].status.Executing? && !s.store[c.amend.slot].status.Completed?
    && !s.store[c.amend.slot].status.Superseded?
  }

  /**
   * A call keeps all links live exactly unless it amends an amendable record with a payload that cannot be digested or
   * with a cost that is negative or not finite.
   */
  lemma LinksStayLiveIff(cfg: Config, s: State, c: Call)
    requires Inv(cfg, s) && Enabled(s, c) && LinksLive(s)
    ensures LinksLive(Step(cfg, s, c)) <==> !Dangles(cfg, s, c)
  {
    var t := Step(cfg, s, c);
    match c {
      case Amend(q, id, now) =>
        if q.slot in s.store {
          assert SlotOf(s.store[q.slot]) == q.slot;
          OnlyOneLink(cfg, s, q.slot, id);
          AmendLinks(cfg, s, q, id, now);
        }
      case Create(q, id, now) =>
        CreateLinks(cfg, s, q, id, now);
      case _ =>
        OtherLinks(cfg, s, c);
    }
  }

  lemma AmendLinks(cfg: Config, s: State, q: AmendRequest, id: string, now: int)
    requires LinksLive(s) && q.slot in s.store && SlotOf(s.store[q.slot]) == q.slot
      && Slot(q.slot.tenant, id) !in s.store
    ensures LinksLive(AmendStep(cfg, s, q, id, now).0) <==> !Dangles(cfg, s, Amend(q, id, now))
  {
    hide RequiredTier;
    var t := AmendStep(cfg, s, q, id, now).0;
    var n := Slot(q.slot.tenant, id);
    if Dangles(cfg, s, Amend(q, id, now)) {
      assert Successor(q.slot, t.store[q.slot]) == n && n !in t.store;
    } else {
      forall k | k in t.store && t.store[k].supersededBy.Some? ensures Successor(k, t.store[k]) in t.store {
        if k in s.store && k != q.slot { assert t.store[k] == s.store[k]; }
      }
    }
  }

  lemma CreateLinks(cfg: Config, s: State, q: CreateRequest, id: string, now: int)
    requires LinksLive(s) && Slot(q.tenant, id) !in s.store
    ensures LinksLive(CreateStep(cfg, s, q, id, now).0)
  {
  }

  lemma OtherLinks(cfg: Config, s: State, c: Call)
    requires LinksLive(s) && Keyed(s.store) && !c.Create? && !c.Amend?
    ensures LinksLive(Step(cfg, s, c))
  {
    hide RequiredTier;
    var t := Step(cfg, s, c);
    assert t.store.Keys == s.store.Keys by { OtherKeys(cfg, s, c); }
    forall k | k in t.store && t.store[k].supersededBy.Some? ensures Successor(k, t.store[k]) in t.store {
      OtherKeepsLink(cfg, s, c, k);
    }
  }

  lemma OtherKeys(cfg: Config, s: State, c: Call)
    requires Keyed(s.store) && !c.Create? && !c.Amend?
    ensures Step(cfg, s, c).store.Keys == s.store.Keys
  {
  }

  lemma OtherKeepsLink(cfg: Config, s: State, c: Call, k: Slot)
    requires Keyed(s.store) && !c.Create? && !c.Amend? && k in s.store && k in Step(cfg, s, c).store
    ensures Step(cfg, s, c).store[k].supersededBy == s.store[k].supersededBy
  {
  }

  const ASKED := CreateRequest("acme", "d1", "REFUND", "c1", [], "{}", Usd(10.0), Low, "", "v1.0", 24, None, None, None)

  function Changed(body: string, cost: Quote): AmendRequest {
    AmendRequest(Slot("acme", "a1"), body, Some(cost), None)
  }

  /** One request and one amendment that cannot be built: the original is SUPERSEDED by an id that was never stored. */
  lemma UnbuildableDangles(cfg: Config, body: string, cost: Quote)
    requires cfg.digestible(Payload("REFUND", [], "{}", Usd(10.0))) && cfg.policyDigestible("v1.0")
    requires !cfg.digestible(Payload("REFUND", [], body, cost)) || !Acceptable(cost)
    ensures var cs := [Create(ASKED, "a1", 0), Amend(Changed(body, cost), "a2", 1)];
      var s := Run(cfg, INITIAL, cs);
      && Possible(cfg, INITIAL, cs)
      && s.store.Keys == {Slot("acme", "a1")} && s.store[Slot("acme", "a1")].supersededBy == Some("a2")
      && s.store[Slot("acme", "a1")].status == Superseded
  {
    var c0, c1 := Create(ASKED, "a1", 0), Amend(Changed(body, cost), "a2", 1);
    AskedIsStored(cfg);
    var s1 := Step(cfg, INITIAL, c0);
    ChangeDangles(cfg, s1, body, cost);
    assert Enabled(INITIAL, c0);
    hide Step, Enabled;
    assert [c0, c1][1..] == [c1] && [c1][1..] == [];
    assert Run(cfg, INITIAL, [c0, c1]) == Run(cfg, s1, [c1]) == Run(cfg, Step(cfg, s1, c1), []);
    assert Possible(cfg, s1, [c1]);
  }

  lemma AskedIsStored(cfg: Config)
    requires cfg.digestible(Payload("REFUND", [], "{}", Usd(10.0))) && cfg.policyDigestible("v1.0")
    ensures var t := Step(cfg, INITIAL, Create(ASKED, "a1", 0));
      && t.store == map[Slot("acme", "a1") := NewRecord(cfg, ASKED, "a1", 0)] && t.rank.Keys == {Slot("acme", "a1")}
  {
    assert ASKED.tenant[0] == 'a' && ASKED.customer[0] == 'c';
    assert !Blank(ASKED.tenant) && !Blank(ASKED.customer);
    hide Blank;
  }

  lemma ChangeDangles(cfg: Config, s: State, body: string, cost: Quote)
    requires s.store == map[Slot("acme", "a1") := NewRecord(cfg, ASKED, "a1", 0)] && s.rank.Keys == {Slot("acme", "a1")}
    requires !cfg.digestible(Payload("REFUND", [], body, cost)) || !Acceptable(cost)
    ensures var c := Amend(Changed(body, cost), "a2", 1);
      && Enabled(s, c) && Step(cfg, s, c).store.Keys == {Slot("acme", "a1")}
      && Step(cfg, s, c).store[Slot("acme", "a1")].supersededBy == Some("a2")
      && Step(cfg, s, c).store[Slot("acme", "a1")].status == Superseded
  {
    assert "a1"[1] != "a2"[1];
    hide RequiredTier;
  }

  /** Three ways to get there: a negative cost, a cost that is no number, and a payload that JSON cannot hold. */
  lemma DanglingRuns(cfg: Config, body: string)
    requires cfg.digestible(Payload("REFUND", [], "{}", Usd(10.0))) && cfg.policyDigestible("v1.0")
    requires !cfg.digestible(Payload("REFUND", [], body, Usd(10.0)))
    ensures forall q :: q in {Changed("{}", Usd(-1.0)), Changed("{}", NotANumber), Changed(body, Usd(10.0))} ==>
      Run(cfg, INITIAL, [Create(ASKED, "a1", 0), Amend(q, "a2", 1)]).store.Keys == {Slot("acme", "a1")}
      && Run(cfg, INITIAL, [Create(ASKED, "a1", 0), Amend(q, "a2", 1)]).store[Slot("acme", "a1")].supersededBy
        == Some("a2")
  {
    hide Run;
    UnbuildableDangles(cfg, "{}", Usd(-1.0));
    UnbuildableDangles(cfg, "{}", NotANumber);
    UnbuildableDangles(cfg, body, Usd(10.0));
  }

  /** An id that was given out and not stored. */
  predicate Dead(s: State, k: Slot) {
    k in s.rank && k !in s.store
  }

  lemma StepKeepsDead(cfg: Config, s: State, c: Call, k: Slot)
    requires Keyed(s.store) && Enabled(s, c) && Dead(s, k)
    ensures Dead(Step(cfg, s, c), k)
  {
    hide RequiredTier, Blank;
  }

  /** A link that dangles leads nowhere in every later state as well, until it is overwritten. */
  lemma {:induction false} DeadForGood(cfg: Config, s: State, cs: seq<Call>, k: Slot)
    requires Inv(cfg, s) && Possible(cfg, s, cs) && Dead(s, k)
    ensures Dead(Run(cfg, s, cs), k)
    decreases |cs|
  {
    if cs != [] {
      StepKeepsDead(cfg, s, cs[0], k);
      StepKeepsInv(cfg, s, cs[0]);
      hide Inv, Step, Enabled;
      DeadForGood(cfg, Step(cfg, s, cs[0]), cs[1..], k);
    }
  }

  /** A dangling amendment strikes its original for good: its new id will never be stored. */
  lemma DanglingLinkIsDead(cfg: Config, s: State, c: Call, cs: seq<Call>)
    requires Inv(cfg, s) && Enabled(s, c) && Dangles(cfg, s, c) && Possible(cfg, Step(cfg, s, c), cs)
    ensures var t := Step(cfg, s, c);
      && c.amend.slot in t.store && t.store[c.amend.slot].supersededBy == Some(c.id)
      && Slot(c.amend.slot.tenant, c.id) !in Run(cfg, t, cs).store
  {
    StepKeepsInv(cfg, s, c);
    OnlyOneLink(cfg, s, c.amend.slot, c.id);
    assert SlotOf(s.store[c.amend.slot]) == c.amend.slot;
    hide Inv, Run, Possible;
    DeadForGood(cfg, Step(cfg, s, c), cs, Slot(c.amend.slot.tenant, c.id));
  }

  // ---------------------------------------------------------------- records only move forward

  function Stage(t: Status): nat {
    if t.Pending? then 0 else if t.Revoked? || t.Superseded? then 2 else 1
  }

  /**
   * PENDING is never re-entered, a decision is never replaced by another, only REVOKED and SUPERSEDED can alternate.
   */
  predicate Forward(a: Status, b: Status) {
    a == b || Stage(a) < Stage(b) || (Stage(a) == 2 && Stage(b) == 2)
  }

  /** What later states keep of earlier ones. */
  ghost predicate Extends(s: State, t: State) {
    && (forall k :: k in s.store ==>
          k in t.store && Sealed(t.store[k]) == Sealed(s.store[k]) && Forward(s.store[k].status, t.store[k].status))
    && |s.grants| <= |t.grants| && t.grants[..|s.grants|] == s.grants
  }

  lemma StepExtends(cfg: Config, s: State, c: Call)
    requires Inv(cfg, s) && Enabled(s, c)
    ensures Extends(s, Step(cfg, s, c))
  {
    hide Step, Sealed, Forward, LinkOk, GrantOk;
    var t := Step(cfg, s, c);
    forall k | k in s.store
      ensures k in t.store && Sealed(t.store[k]) == Sealed(s.store[k]) && Forward(s.store[k].status, t.store[k].status)
    {
      assert SlotOf(s.store[k]) == k && Sound(cfg, s.store[k]) && k in s.rank;
      RecordExtends(cfg, s, c, k);
    }
    hide Inv;
    GrantsExtend(cfg, s, c);
  }

  lemma RecordExtends(cfg: Config, s: State, c: Call, k: Slot)
    requires Keyed(s.store) && k in s.store && k in s.rank && Sound(cfg, s.store[k]) && Enabled(s, c)
    ensures var t := Step(cfg, s, c);
      k in t.store && Sealed(t.store[k]) == Sealed(s.store[k]) && Forward(s.store[k].status, t.store[k].status)
  {
    hide RequiredTier, Blank;
    match c
    case GrantCall(q) =>
      GrantCases(cfg, s, q);
      hide GrantStep;
    case Amend(q, id, now) =>
      AmendCases(cfg, s, q, id, now);
      hide AmendStep;
    case _ =>
  }

  /** An amendment leaves the store alone or supersedes one record; it may store one more under the new id. */
  lemma AmendCases(cfg: Config, s: State, q: AmendRequest, id: string, now: int)
    requires Keyed(s.store)
    ensures var t, n := AmendStep(cfg, s, q, id, now).0, Slot(q.slot.tenant, id);
      t == s || (q.slot in s.store && !s.store[q.slot].status.Superseded?
        && var struck := s.store[q.slot := s.store[q.slot].(status := Superseded, supersededBy := Some(id))];
        t.store == struck || (n in t.store && t.store == struck[n := t.store[n]]))
  {
    assert q.slot in s.store ==> SlotOf(s.store[q.slot]) == q.slot;
    hide RequiredTier;
  }

  lemma GrantsExtend(cfg: Config, s: State, c: Call)
    ensures var t := Step(cfg, s, c);
      |s.grants| <= |t.grants| && t.grants[..|s.grants|] == s.grants
  {
    hide RequiredTier;
  }

  /** Over any run every record is kept, sealed fields never change and statuses only move forward. */
  lemma {:induction false} RunExtends(cfg: Config, s: State, cs: seq<Call>)
    requires Inv(cfg, s) && Possible(cfg, s, cs)
    ensures Extends(s, Run(cfg, s, cs))
    decreases |cs|
  {
    if cs != [] {
      var t := Step(cfg, s, cs[0]);
      StepExtends(cfg, s, cs[0]);
      StepKeepsInv(cfg, s, cs[0]);
      RunExtends(cfg, t, cs[1..]);
      hide Inv, Step, Enabled;
      ExtendsTrans(s, t, Run(cfg, t, cs[1..]));
    }
  }

  lemma ExtendsTrans(s: State, t: State, u: State)
    requires Extends(s, t) && Extends(t, u)
    ensures Extends(s, u)
  {
    hide Sealed;
    assert u.grants[..|s.grants|] == u.grants[..|t.grants|][..|s.grants|];
    forall k | k in s.store
      ensures k in u.store && Sealed(u.store[k]) == Sealed(s.store[k]) && Forward(s.store[k].status, u.store[k].status)
    {
      assert k in t.store && Sealed(t.store[k]) == Sealed(s.store[k]);
      assert Sealed(u.store[k]) == Sealed(t.store[k]);
    }
  }

  // ---------------------------------------------------------------- grants

  /** What risk and cost ask of an approver. */
  predicate Entitled(tier: int, risk: Risk, cost: real) {
    && tier >= 1
    && (risk.Medium? || cost > 250.0 ==> tier >= 2)
    && (risk.High? || risk.Critical? || cost > 1000.0 ==> tier >= 3)
  }

  /**
   * On every reachable state a grant succeeds exactly under these conditions; two of the service's checks never matter.
   */
  lemma GrantSucceedsIff(cfg: Config, s: State, q: GrantRequest)
    requires Inv(cfg, s)
    ensures GrantStep(cfg, s, q).1.Success? <==>
      && q.slot in s.store && q.human && s.store[q.slot].status.Pending? && q.now < s.store[q.slot].expiry
      && Entitled(q.tier, s.store[q.slot].risk, s.store[q.slot].cost) && q.expected == s.store[q.slot].digest
  {
    if q.slot in s.store {
      assert Sound(cfg, s.store[q.slot]);
    }
  }

  /** No record names its requester, so separation of duties is never enforced here. */
  lemma SeparationNeverFires(cfg: Config, s: State, q: GrantRequest)
    requires Inv(cfg, s)
    ensures GrantStep(cfg, s, q).1 != Failure(SeparationOfDuties)
  {
    if q.slot in s.store {
      assert Sound(cfg, s.store[q.slot]);
    }
  }

  lemma GrantApproves(cfg: Config, s: State, q: GrantRequest)
    requires Inv(cfg, s) && GrantStep(cfg, s, q).1.Success?
    ensures var t := GrantStep(cfg, s, q).0;
      Inv(cfg, t) && q.slot in t.store && t.store[q.slot].status == Approved
  {
    GrantKeepsInv(cfg, s, q);
    assert SlotOf(s.store[q.slot]) == q.slot;
    hide Inv, RequiredTier;
  }

  /** An id granted once is never granted again, whatever is called in between. */
  lemma GrantedOnce(cfg: Config, s: State, q: GrantRequest, cs: seq<Call>, again: GrantRequest)
    requires Inv(cfg, s) && GrantStep(cfg, s, q).1.Success? && Possible(cfg, GrantStep(cfg, s, q).0, cs)
    requires again.slot == q.slot
    ensures GrantStep(cfg, Run(cfg, GrantStep(cfg, s, q).0, cs), again).1.Failure?
  {
    hide Inv, Run, Possible, RequiredTier;
    GrantApproves(cfg, s, q);
    var t := GrantStep(cfg, s, q).0;
    RunExtends(cfg, t, cs);
    OnlyPendingIsGranted(cfg, t, Run(cfg, t, cs), again);
  }

  lemma OnlyPendingIsGranted(cfg: Config, t: State, u: State, q: GrantRequest)
    requires Extends(t, u) && q.slot in t.store && t.store[q.slot].status == Approved
    ensures GrantStep(cfg, u, q).1.Failure?
  {
    assert Forward(t.store[q.slot].status, u.store[q.slot].status);
  }

  /**
   * Every grant on record was made before expiry, for the sealed digest, by an approver entitled to the risk and the
   * cost.
   */
  lemma GrantsAreProper(cfg: Config, cs: seq<Call>, i: nat)
    requires Possible(cfg, INITIAL, cs) && i < |Run(cfg, INITIAL, cs).grants|
    ensures var s := Run(cfg, INITIAL, cs);
      var g := s.grants[i];
      && g.slot in s.store
      && var r := s.store[g.slot];
      && g.at < r.expiry && g.expected == cfg.hash(PayloadOf(r))
      && Entitled(g.tier, r.risk, r.cost)
      && (forall j :: 0 <= j < |s.grants| && s.grants[j].slot == g.slot ==> j == i)
  {
    ReachableInv(cfg, cs);
    var s := Run(cfg, INITIAL, cs);
    assert GrantOk(s, s.grants[i]);
    assert Sound(cfg, s.store[s.grants[i].slot]);
  }

  /** A record is APPROVED only on the strength of a logged grant. */
  lemma ApprovedWasGranted(cfg: Config, cs: seq<Call>, k: Slot)
    requires Possible(cfg, INITIAL, cs)
    requires k in Run(cfg, INITIAL, cs).store && Run(cfg, INITIAL, cs).store[k].status == Approved
    ensures var s := Run(cfg, INITIAL, cs);
      exists i :: 0 <= i < |s.grants| && s.grants[i].slot == k && s.store[k].approver == Some(s.grants[i].approver)
  {
    ReachableInv(cfg, cs);
    var s := Run(cfg, INITIAL, cs);
    assert Sound(cfg, s.store[k]);
    assert k in GrantedSlots(s.grants);
    var i :| 0 <= i < |s.grants| && s.grants[i].slot == k;
    assert GrantOk(s, s.grants[i]);
  }

  // ---------------------------------------------------------------- tenants

  function TenantOf(c: Call): string {
    match c
    case Create(q, _, _) => q.tenant
    case GrantCall(q) => q.slot.tenant
    case Reject(k, _, _) => k.tenant
    case Revoke(k, _) => k.tenant
    case Amend(q, _, _) => q.slot.tenant
    case Expire(t, _) => t
  }

  /** A call made for one tenant leaves every other tenant's records as they were. */
  lemma OtherTenantsUntouched(cfg: Config, s: State, c: Call, k: Slot)
    requires Inv(cfg, s) && k.tenant != TenantOf(c)
    ensures k in Step(cfg, s, c).store <==> k in s.store
    ensures k in s.store ==> Step(cfg, s, c).store[k] == s.store[k]
  {
    assert Keyed(s.store);
    hide Inv, RequiredTier, Sound;
    OtherTenantsStay(cfg, s, c, k);
  }

  lemma OtherTenantsStay(cfg: Config, s: State, c: Call, k: Slot)
    requires Keyed(s.store) && k.tenant != TenantOf(c)
    ensures k in Step(cfg, s, c).store <==> k in s.store
    ensures k in s.store ==> Step(cfg, s, c).store[k] == s.store[k]
  {
    hide RequiredTier, Blank;
    match c
    case GrantCall(q) =>
      GrantCases(cfg, s, q);
      hide GrantStep;
    case Amend(q, id, now) =>
      AmendCases(cfg, s, q, id, now);
      hide AmendStep;
    case _ =>
  }
}
