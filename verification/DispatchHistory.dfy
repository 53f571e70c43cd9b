/** Where records, signatures, gateway calls and outcomes of the router come from, traced back to the requests. */
module DispatchHistory {
  import opened Sequences
  import opened Wrappers
  import opened ApprovalDispatch
  import opened DispatchKeys
  import opened DispatchTenants
  import opened StrandedRecords

  // ---------------------------------------------------------------- the transition table

  const EDGES := {
    (Pending, Approved), (Pending, Rejected), (Pending, Expired), (Pending, Cancelled), (Approved, Dispatching),
    (Approved, Expired), (Approved, Cancelled), (Dispatching, Succeeded), (Dispatching, ProviderFailed)
  }

  /** The table edge by edge; a status is terminal exactly when no edge leaves it. */
  lemma TableIs(from: Status, to: Status)
    ensures ValidTransition(from, to) <==> (from, to) in EDGES
    ensures Terminal(from) <==> forall next :: !ValidTransition(from, next)
  {
    if !Terminal(from) {
      assert ValidTransition(from, if from == Dispatching then Succeeded else Expired);
    }
  }

  // ---------------------------------------------------------------- records

  /** The record that a request asks for: its own terms, one day to live, and the seal of exactly those terms. */
  predicate AsRequested(cfg: Config, rec: Record, r: CreateRequest) {
    && rec.tenant == r.tenant && rec.requester == r.principal.id && rec.expiry == r.now + 24 * 60 * 60
    && rec.tier == r.tier && rec.cost == r.cost
    && rec.action == r.action && rec.targets == r.targets && rec.payload == r.payload
    && rec.artifact == Some(Artifact(r.tenant, r.action, r.targets, r.payload, "revpilot_policy_2026_09", r.tier,
                                     r.now + 24 * 60 * 60, r.principal.id))
    && rec.digest == cfg.hash(rec.artifact.value) && rec.policyDigest == cfg.policyDigest
  }

  ghost predicate Traced(cfg: Config, s: State, past: seq<Event>) {
    forall id :: id in s.cache ==> exists r :: Create(r) in past && r.id == id && AsRequested(cfg, s.cache[id], r)
  }

  lemma SameTermsAsRequested(cfg: Config, a: Record, b: Record, r: CreateRequest)
    requires AsRequested(cfg, a, r) && SameTerms(a, b)
    ensures AsRequested(cfg, b, r)
  {
  }

  lemma StepKeepsTraced(cfg: Config, s: State, e: Event, past: seq<Event>)
    requires Inv(cfg, s) && Enabled(s, e) && Traced(cfg, s, past)
    ensures Traced(cfg, Step(cfg, s, e).0, past + [e])
  {
    var t := Step(cfg, s, e).0;
    forall id | id in t.cache
      ensures exists r :: Create(r) in past + [e] && r.id == id && AsRequested(cfg, t.cache[id], r)
    {
      if e.Create? && e.create.id == id {
        assert AsRequested(cfg, t.cache[id], e.create);
        assert Create(e.create) in past + [e];
      } else {
        assert id in s.cache by { NoOthersAppear(cfg, s, e, id); }
        hide Inv, Step, AsRequested, SameTerms;
        var r :| Create(r) in past && r.id == id && AsRequested(cfg, s.cache[id], r);
        StepKeepsRecords(cfg, s, e, id);
        SameTermsAsRequested(cfg, s.cache[id], t.cache[id], r);
      }
    }
  }

  lemma NoOthersAppear(cfg: Config, s: State, e: Event, id: string)
    requires Enabled(s, e) && id in Step(cfg, s, e).0.cache
    ensures id in s.cache || (e.Create? && e.create.id == id)
  {
    match e {
      case Grant(r) => GrantOutcome(s, r);
      case Begin(r) => BeginOutcome(cfg, s, r);
      case _ =>
    }
    hide GrantStep, BeginStep;
  }

  lemma {:induction false} RunKeepsTraced(cfg: Config, s: State, es: seq<Event>, past: seq<Event>)
    requires Inv(cfg, s) && Runnable(cfg, s, es) && Traced(cfg, s, past)
    ensures Traced(cfg, Run(cfg, s, es), past + es)
    decreases |es|
  {
    hide Inv, Traced, Step, Enabled;
    if es == [] {
      assert past + es == past;
    } else {
      StepKeepsInv(cfg, s, es[0]);
      StepKeepsTraced(cfg, s, es[0], past);
      RunKeepsTraced(cfg, Step(cfg, s, es[0]).0, es[1..], past + [es[0]]);
      assert past + [es[0]] + es[1..] == past + es;
    }
  }

  /** Every cached record was created by a request for exactly its terms, and still has them. */
  lemma RecordIsAsRequested(cfg: Config, es: seq<Event>, id: string) returns (r: CreateRequest)
    requires Runnable(cfg, INITIAL, es) && id in Run(cfg, INITIAL, es).cache
    ensures Create(r) in es && r.id == id && AsRequested(cfg, Run(cfg, INITIAL, es).cache[id], r)
  {
    hide Run, Runnable, AsRequested;
    InitialInv(cfg);
    RunKeepsTraced(cfg, INITIAL, es, []);
    assert [] + es == es;
    r :| Create(r) in es && r.id == id && AsRequested(cfg, Run(cfg, INITIAL, es).cache[id], r);
  }

  lemma InitialInv(cfg: Config)
    ensures Inv(cfg, INITIAL)
  {
    RunOfNothing(cfg, INITIAL);
    hide Inv;
    ReachableInv(cfg, []);
  }

  // ---------------------------------------------------------------- signatures

  predicate Top(p: Principal) {
    p.isSystem || SystemAdmin in p.roles || HasTier3 in p.roles
  }

  predicate Middle(p: Principal) {
    Top(p) || HasTier2 in p.roles
  }

  /** Who may sign for a tier and a cost, in plain words and numbers; nobody signs for more than 10000. */
  predicate MaySign(p: Principal, tier: Tier, cost: real) {
    && !StartsWith(p.id, "agt_") && !StartsWith(p.id, "agent_")
    && (Middle(p) || HasTier1 in p.roles || Operator in p.roles)
    && (tier.Tier3? || cost > 1000.0 ==> Top(p))
    && (tier.Tier2? || cost > 250.0 ==> Middle(p))
    && cost <= 10000.0
  }

  lemma EntitledIffMaySign(p: Principal, tier: Tier, cost: real)
    ensures MayDecide(p) && RequiredLevel(tier) <= Level(p) && !OverLimit(Level(p), cost) <==> MaySign(p, tier, cost)
  {
    var some := {HasTier1, HasTier2, HasTier3, SystemAdmin, Operator};
    assert p.roles * some != {} <==> exists r :: r in p.roles && r in some by {
      if r :| r in p.roles && r in some { assert r in p.roles * some; }
      if p.roles * some != {} { var r :| r in p.roles * some; }
    }
  }

  /** A grant goes through exactly under these conditions. */
  lemma GrantedIff(s: State, r: GrantRequest)
    ensures GrantStep(s, r).1 == Granted <==>
      && r.id in s.cache && s.cache[r.id].status == Pending
      && var rec := s.cache[r.id];
      && (rec.tenant == "" || rec.tenant == r.tenant)
      && r.now < rec.expiry
      && (rec.requester == "" || rec.requester != r.principal.id)
      && MaySign(r.principal, rec.tier, rec.cost)
      && (r.expected == None || r.expected == Some(rec.digest))
    ensures GrantStep(s, r).1 == Granted ==>
      GrantStep(s, r).0.cache ==
        s.cache[r.id := s.cache[r.id].(status := Approved, approver := Some(r.principal.id))]
  {
    if r.id in s.cache {
      EntitledIffMaySign(r.principal, s.cache[r.id].tier, s.cache[r.id].cost);
    }
    hide MayDecide, Level, RequiredLevel, OverLimit, MaySign;
  }

  /**
   * Each record at or past APPROVED was signed before it expired, in its tenant's name, by somebody other than its
   * requester who may sign for its tier and cost, and against its own digest where one was expected.
   */
  lemma SignaturesAreEntitled(cfg: Config, es: seq<Event>, id: string)
    requires Runnable(cfg, INITIAL, es)
    requires id in Run(cfg, INITIAL, es).cache
    requires Run(cfg, INITIAL, es).cache[id].status in {Approved, Dispatching, Succeeded, ProviderFailed}
    ensures var s := Run(cfg, INITIAL, es);
      && id in s.signatures
      && var rec, g := s.cache[id], s.signatures[id];
      && rec.approver == Some(g.principal.id)
      && g.now < rec.expiry
      && (rec.tenant == "" || rec.tenant == g.tenant)
      && (rec.requester == "" || rec.requester != g.principal.id)
      && !StartsWith(g.principal.id, "agt_") && !StartsWith(g.principal.id, "agent_")
      && (rec.tier.Tier3? || rec.cost > 1000.0 ==> Top(g.principal))
      && (rec.tier.Tier2? || rec.cost > 250.0 ==> Middle(g.principal))
      && rec.cost <= 10000.0
      && (g.expected == None || g.expected == Some(rec.digest))
  {
    hide Run, Runnable;
    SignedRecordsAreProper(cfg, es, id);
    ProperMeansEntitled(Run(cfg, INITIAL, es).cache[id], Run(cfg, INITIAL, es).signatures[id]);
  }

  lemma ProperMeansEntitled(rec: Record, g: GrantRequest)
    requires ProperlySigned(rec, g)
    ensures (rec.tier.Tier3? || rec.cost > 1000.0 ==> Top(g.principal))
      && (rec.tier.Tier2? || rec.cost > 250.0 ==> Middle(g.principal)) && rec.cost <= 10000.0
  {
  }

  /** Why a grant or a rejection is refused. */
  lemma GrantAnswers(s: State, r: GrantRequest)
    ensures !MayDecide(r.principal) ==> GrantStep(s, r).1 == Forbidden
    ensures MayDecide(r.principal) && r.id !in s.cache ==> GrantStep(s, r).1 == NotFound
    ensures MayDecide(r.principal) && r.id in s.cache ==>
      var (answer, rec) := (GrantStep(s, r).1, s.cache[r.id]);
      var own := rec.tenant == "" || rec.tenant == r.tenant;
      var open := own && rec.status == Pending && r.now < rec.expiry;
      var entitled := (rec.requester == "" || rec.requester != r.principal.id)
                      && MaySign(r.principal, rec.tier, rec.cost);
      && (answer == Forbidden <==> !own || (open && !entitled))
      && (answer == Gone <==> own && rec.status == Pending && rec.expiry <= r.now)
      && (answer == Conflict <==>
            || (own && rec.status != Pending)
            || (open && entitled && r.expected != None && r.expected != Some(rec.digest)))
  {
    if r.id in s.cache {
      EntitledIffMaySign(r.principal, s.cache[r.id].tier, s.cache[r.id].cost);
    }
    hide MayDecide, Level, RequiredLevel, OverLimit, MaySign;
  }

  /** A rejection takes effect exactly on a PENDING record; on an unknown id it is answered as if it had. */
  lemma RejectAnswers(s: State, id: string, p: Principal)
    ensures var (t, answer) := RejectStep(s, id, p);
      && (answer == Forbidden <==> !MayDecide(p))
      && (answer == Conflict <==> MayDecide(p) && id in s.cache && s.cache[id].status != Pending)
      && (if MayDecide(p) && id in s.cache && s.cache[id].status == Pending
          then t.cache == s.cache[id := s.cache[id].(status := Rejected)] else t == s)
  {
    hide MayDecide;
  }

  // ---------------------------------------------------------------- gateway calls

  /** Who may dispatch. */
  lemma MayDispatchIff(p: Principal)
    ensures MayDispatch(p) <==> p.isSystem || SystemAdmin in p.roles || PlatformAdmin in p.roles || Operator in p.roles
  {
    var some := {SystemAdmin, PlatformAdmin, Operator};
    assert p.roles * some != {} <==> exists r :: r in p.roles && r in some by {
      if r :| r in p.roles && r in some { assert r in p.roles * some; }
      if p.roles * some != {} { var r :| r in p.roles * some; }
    }
  }

  /** With the kill switch engaged a dispatch changes nothing, in any state. */
  lemma KillSwitchStops(cfg: Config, s: State, r: DispatchRequest)
    requires r.killed
    ensures BeginStep(cfg, s, r) == (s, if MayDispatch(r.principal) then Unavailable else Forbidden)
  {
  }

  /** The request behind a call, against the record it is for. */
  predicate Allowed(cfg: Config, rec: Record, c: GatewayCall) {
    && c.request.id == c.approval && c.request.tenant == c.tenant && c.request.key == c.key != ""
    && !c.request.killed
    && MayDispatch(c.request.principal)
    && c.request.now < rec.expiry
    && (rec.tenant == "" || rec.tenant == c.tenant)
    && (rec.policyDigest == "" || rec.policyDigest == cfg.policyDigest)
  }

  ghost predicate CallsAllowed(cfg: Config, s: State) {
    forall i :: 0 <= i < |s.calls| ==>
      s.calls[i].approval in s.cache && Allowed(cfg, s.cache[s.calls[i].approval], s.calls[i])
  }

  lemma BeginIsAllowed(cfg: Config, s: State, r: DispatchRequest)
    ensures var t := BeginStep(cfg, s, r).0;
      t.calls == s.calls || (r.id in s.cache && t.calls == s.calls + [CallOf(r, s.cache[r.id])]
                             && Allowed(cfg, s.cache[r.id], CallOf(r, s.cache[r.id])))
  {
    hide MayDispatch;
  }

  lemma SameTermsAllowed(cfg: Config, a: Record, b: Record, c: GatewayCall)
    requires Allowed(cfg, a, c) && SameTerms(a, b)
    ensures Allowed(cfg, b, c)
  {
  }

  lemma StepKeepsCallsAllowed(cfg: Config, s: State, e: Event)
    requires Inv(cfg, s) && Enabled(s, e) && CallsAllowed(cfg, s)
    ensures CallsAllowed(cfg, Step(cfg, s, e).0)
  {
    var t := Step(cfg, s, e).0;
    if e.Begin? {
      BeginIsAllowed(cfg, s, e.dispatch);
    } else {
      OtherStepsCallNobody(cfg, s, e);
    }
    hide Inv, BeginStep, Allowed, SameTerms, GrantStep, RejectStep, GatewayStep, LedgerStep;
    forall i | 0 <= i < |t.calls|
      ensures t.calls[i].approval in t.cache && Allowed(cfg, t.cache[t.calls[i].approval], t.calls[i])
    {
      var id := t.calls[i].approval;
      assert i < |s.calls| ==> t.calls[i] == s.calls[i];
      assert id in s.cache && Allowed(cfg, s.cache[id], t.calls[i]);
      StepKeepsRecords(cfg, s, e, id);
      SameTermsAllowed(cfg, s.cache[id], t.cache[id], t.calls[i]);
    }
  }

  lemma {:induction false} RunKeepsCallsAllowed(cfg: Config, s: State, es: seq<Event>)
    requires Inv(cfg, s) && Runnable(cfg, s, es) && CallsAllowed(cfg, s)
    ensures CallsAllowed(cfg, Run(cfg, s, es))
    decreases |es|
  {
    if es != [] {
      hide Inv, CallsAllowed, Step, Enabled;
      StepKeepsInv(cfg, s, es[0]);
      StepKeepsCallsAllowed(cfg, s, es[0]);
      RunKeepsCallsAllowed(cfg, Step(cfg, s, es[0]).0, es[1..]);
    }
  }

  /**
   * Over every run each gateway call was made with the kill switch off, by somebody allowed to dispatch, strictly
   * before the record expired, in its tenant's name, under a key, and under the policy in force.
   */
  lemma CallsAreAllowed(cfg: Config, es: seq<Event>, i: nat)
    requires Runnable(cfg, INITIAL, es) && i < |Run(cfg, INITIAL, es).calls|
    ensures var s := Run(cfg, INITIAL, es);
      var c := s.calls[i];
      && c.approval in s.cache
      && var rec, p := s.cache[c.approval], c.request.principal;
      && c.request.id == c.approval && c.request.tenant == c.tenant && c.request.key == c.key != ""
      && !c.request.killed
      && (p.isSystem || SystemAdmin in p.roles || PlatformAdmin in p.roles || Operator in p.roles)
      && c.request.now < rec.expiry
      && (rec.tenant == "" || rec.tenant == c.tenant)
      && rec.policyDigest == cfg.policyDigest
  {
    hide Run, Runnable, MayDispatch;
    InitialInv(cfg);
    RunKeepsCallsAllowed(cfg, INITIAL, es);
    var s := Run(cfg, INITIAL, es);
    var c := s.calls[i];
    assert Allowed(cfg, s.cache[c.approval], c);
    MayDispatchIff(c.request.principal);
    var r := RecordIsAsRequested(cfg, es, c.approval);
  }

  /** A dispatch reaches the gateway exactly under these conditions. */
  lemma GoesOutIff(cfg: Config, es: seq<Event>, r: DispatchRequest)
    requires Runnable(cfg, INITIAL, es)
    ensures var s, p := Run(cfg, INITIAL, es), r.principal;
      BeginStep(cfg, s, r).1 == Suspended <==>
        && (p.isSystem || SystemAdmin in p.roles || PlatformAdmin in p.roles || Operator in p.roles)
        && !r.killed && r.key != "" && (r.tenant, r.key) !in s.intents
        && (cfg.attached || cfg.environment == "test")
        && r.id in s.cache && s.cache[r.id].status == Approved
        && var rec := s.cache[r.id];
        && (rec.tenant == "" || rec.tenant == r.tenant)
        && r.now < rec.expiry && rec.digest != "" && rec.action != ""
  {
    hide Run, Runnable, MayDispatch;
    MayDispatchIff(r.principal);
    if r.id in Run(cfg, INITIAL, es).cache {
      var q := RecordIsAsRequested(cfg, es, r.id);
    }
  }

  /** The other answers to a dispatch, in every reachable state. */
  lemma DispatchAnswers(cfg: Config, es: seq<Event>, r: DispatchRequest)
    requires Runnable(cfg, INITIAL, es)
    ensures var (s, answer) := (Run(cfg, INITIAL, es), BeginStep(cfg, Run(cfg, INITIAL, es), r).1);
      var k := (r.tenant, r.key);
      if !MayDispatch(r.principal) then answer == Forbidden
      else if r.killed then answer == Unavailable
      else if k in s.intents then answer == (if s.intents[k] == r.id then Executing(r.id) else Conflict)
      else if r.id !in s.cache then answer == NotFound
      else
        var rec := s.cache[r.id];
        && (answer == Forbidden <==> rec.status == Approved && rec.tenant != "" && rec.tenant != r.tenant)
        && (answer == Gone <==>
              rec.status == Approved && (rec.tenant == "" || rec.tenant == r.tenant) && rec.expiry <= r.now)
        && (rec.status != Approved ==> answer == Conflict)
        && (answer == Conflict ==> rec.status != Approved || rec.digest == "")
  {
    hide Run, Runnable, MayDispatch;
    if r.id in Run(cfg, INITIAL, es).cache {
      var q := RecordIsAsRequested(cfg, es, r.id);
    }
  }

  // ---------------------------------------------------------------- outcomes

  /** The gateway answers the call for this approval. */
  predicate Settles(s: State, e: Event, id: string, ok: bool) {
    e.GatewayReturns? && e.ok == ok && Held(s, id, e.handle)
  }

  predicate Has(s: State, id: string, status: Status) {
    id in s.cache && s.cache[id].status == status
  }

  lemma AnswerSettles(cfg: Config, s: State, h: nat, ok: bool, id: string)
    requires FlightsHoldTheirRecord(s) && Enabled(s, GatewayReturns(h, ok))
    ensures var t := GatewayStep(s, h, ok).0;
      && (Has(t, id, Succeeded) <==> Has(s, id, Succeeded) || Settles(s, GatewayReturns(h, ok), id, true))
      && (Has(t, id, ProviderFailed) <==> Has(s, id, ProviderFailed) || Settles(s, GatewayReturns(h, ok), id, false))
  {
    HeldRecord(s, h);
    hide FlightsHoldTheirRecord;
  }

  lemma OthersSettleNothing(cfg: Config, s: State, e: Event, id: string)
    requires Enabled(s, e) && !e.GatewayReturns?
    ensures Has(Step(cfg, s, e).0, id, Succeeded) <==> Has(s, id, Succeeded)
    ensures Has(Step(cfg, s, e).0, id, ProviderFailed) <==> Has(s, id, ProviderFailed)
  {
    match e {
      case Grant(r) => GrantOutcome(s, r);
      case Begin(r) => BeginOutcome(cfg, s, r);
      case _ =>
    }
    hide GrantStep, BeginStep;
  }

  lemma StepSettlesIff(cfg: Config, s: State, e: Event, id: string)
    requires Inv(cfg, s) && Enabled(s, e)
    ensures Has(Step(cfg, s, e).0, id, Succeeded) <==> Has(s, id, Succeeded) || Settles(s, e, id, true)
    ensures Has(Step(cfg, s, e).0, id, ProviderFailed) <==> Has(s, id, ProviderFailed) || Settles(s, e, id, false)
  {
    if e.GatewayReturns? {
      AnswerSettles(cfg, s, e.handle, e.ok, id);
    } else {
      OthersSettleNothing(cfg, s, e, id);
    }
    hide GrantStep, RejectStep, BeginStep, GatewayStep, LedgerStep, Inv, Has;
  }

  ghost predicate SomeSettles(cfg: Config, s: State, es: seq<Event>, id: string, ok: bool)
    requires Runnable(cfg, s, es)
    decreases |es|
  {
    es != [] && (Settles(s, es[0], id, ok) || SomeSettles(cfg, Step(cfg, s, es[0]).0, es[1..], id, ok))
  }

  lemma {:induction false} RunSettlesIff(cfg: Config, s: State, es: seq<Event>, id: string)
    requires Inv(cfg, s) && Runnable(cfg, s, es)
    ensures Has(Run(cfg, s, es), id, Succeeded) <==> Has(s, id, Succeeded) || SomeSettles(cfg, s, es, id, true)
    ensures Has(Run(cfg, s, es), id, ProviderFailed) <==>
      Has(s, id, ProviderFailed) || SomeSettles(cfg, s, es, id, false)
    decreases |es|
  {
    if es != [] {
      hide Inv, Has, Settles, Step, Enabled;
      StepKeepsInv(cfg, s, es[0]);
      StepSettlesIff(cfg, s, es[0], id);
      RunSettlesIff(cfg, Step(cfg, s, es[0]).0, es[1..], id);
    }
  }

  /** A record is SUCCEEDED exactly when the gateway answered its call well, PROVIDER_FAILED exactly when it failed. */
  lemma OutcomeIsAnswer(cfg: Config, es: seq<Event>, id: string)
    requires Runnable(cfg, INITIAL, es)
    ensures Has(Run(cfg, INITIAL, es), id, Succeeded) <==> SomeSettles(cfg, INITIAL, es, id, true)
    ensures Has(Run(cfg, INITIAL, es), id, ProviderFailed) <==> SomeSettles(cfg, INITIAL, es, id, false)
  {
    hide Run, Runnable, SomeSettles;
    InitialInv(cfg);
    RunSettlesIff(cfg, INITIAL, es, id);
  }

  /** A record expires exactly when it is asked for, in its tenant's name, at or after its expiry. */
  lemma ExpiresIff(cfg: Config, s: State, e: Event, id: string)
    requires Enabled(s, e) && id in s.cache && s.cache[id].status != Expired
    ensures Has(Step(cfg, s, e).0, id, Expired) <==>
      var rec := s.cache[id];
      || (e.Grant? && e.grant.id == id && rec.status == Pending && MayDecide(e.grant.principal)
          && Owns(e.grant.tenant, rec) && e.grant.now >= rec.expiry)
      || (e.Begin? && e.dispatch.id == id && rec.status == Approved && MayDispatch(e.dispatch.principal)
          && !e.dispatch.killed && (e.dispatch.tenant, e.dispatch.key) !in s.intents
          && Owns(e.dispatch.tenant, rec) && e.dispatch.now >= rec.expiry)
  {
    hide MayDecide, MayDispatch, Level, RequiredLevel, OverLimit;
  }
}
