/** In whose name the status of a record is written: its own tenant's, except when it is rejected. */
module DispatchTenants {
  import opened ApprovalDispatch
  import opened DispatchKeys

  /** The tenant of the request behind an event; a handler that resumes acts for the tenant it began with. */
  function ActingTenant(s: State, e: Event): string
    requires Enabled(s, e)
  {
    match e
    case Create(r) => r.tenant
    case Grant(r) => r.tenant
    case Reject(_, tenant, _) => tenant
    case Begin(r) => r.tenant
    case GatewayReturns(h, _) => s.flights[h].tenant
    case LedgerReturns(h) => s.flights[h].tenant
    case Abandon(h) => s.flights[h].tenant
  }

  /** A record without a tenant belongs to everybody. */
  predicate Owns(tenant: string, rec: Record) {
    rec.tenant == "" || rec.tenant == tenant
  }

  ghost predicate FlightsOwn(s: State) {
    forall h :: h in s.flights ==>
      s.flights[h].approval in s.cache && Owns(s.flights[h].tenant, s.cache[s.flights[h].approval])
  }

  lemma BeginOwns(cfg: Config, s: State, r: DispatchRequest)
    ensures var t := BeginStep(cfg, s, r).0;
      t.cache != s.cache || t.flights != s.flights ==> r.id in s.cache && Owns(r.tenant, s.cache[r.id])
  {
    hide MayDispatch;
  }

  lemma GrantOwns(s: State, r: GrantRequest)
    ensures GrantStep(s, r).0.cache != s.cache ==> r.id in s.cache && Owns(r.tenant, s.cache[r.id])
  {
    hide MayDecide, Level, RequiredLevel, OverLimit;
  }

  /** A flight that is new or goes on. */
  lemma StepFlights(cfg: Config, s: State, e: Event, h: nat)
    requires Enabled(s, e) && h in Step(cfg, s, e).0.flights
    ensures var f := Step(cfg, s, e).0.flights[h];
      if h in s.flights && !e.Begin? then f.approval == s.flights[h].approval && f.tenant == s.flights[h].tenant
      else (h in s.flights && f == s.flights[h])
           || (e.Begin? && f.approval == e.dispatch.id && f.tenant == e.dispatch.tenant
               && Step(cfg, s, e).0.flights != s.flights)
  {
    match e {
      case Begin(r) => BeginFlies(cfg, s, r);
      case Grant(r) => DecisionsTouchNoKey(s, r, r.id, r.principal);
      case _ =>
    }
    hide BeginStep, GrantStep;
  }

  lemma StepKeepsFlightsOwn(cfg: Config, s: State, e: Event)
    requires Inv(cfg, s) && Enabled(s, e) && FlightsOwn(s)
    ensures FlightsOwn(Step(cfg, s, e).0)
  {
    hide Inv, Step;
    var t := Step(cfg, s, e).0;
    forall h | h in t.flights
      ensures t.flights[h].approval in t.cache && Owns(t.flights[h].tenant, t.cache[t.flights[h].approval])
    {
      StepFlights(cfg, s, e, h);
      if e.Begin? {
        StepIsBegin(cfg, s, e.dispatch);
        BeginOwns(cfg, s, e.dispatch);
      }
      hide BeginStep;
      StepKeepsRecords(cfg, s, e, t.flights[h].approval);
    }
  }

  lemma StepIsBegin(cfg: Config, s: State, r: DispatchRequest)
    requires Enabled(s, Begin(r))
    ensures Step(cfg, s, Begin(r)) == BeginStep(cfg, s, r)
  {
    hide BeginStep;
  }

  lemma {:induction false} RunKeepsFlightsOwn(cfg: Config, s: State, es: seq<Event>)
    requires Inv(cfg, s) && Runnable(cfg, s, es) && FlightsOwn(s)
    ensures FlightsOwn(Run(cfg, s, es))
    decreases |es|
  {
    if es != [] {
      hide Inv, FlightsOwn, Step, Enabled;
      StepKeepsInv(cfg, s, es[0]);
      StepKeepsFlightsOwn(cfg, s, es[0]);
      RunKeepsFlightsOwn(cfg, Step(cfg, s, es[0]).0, es[1..]);
    }
  }

  /** A rejection that goes through. */
  predicate Rejects(s: State, e: Event, id: string) {
    e.Reject? && e.id == id && MayDecide(e.principal) && id in s.cache && s.cache[id].status == Pending
  }

  lemma ForeignWriteIsRejection(cfg: Config, s: State, e: Event, id: string)
    requires FlightsOwn(s) && Enabled(s, e) && id in s.cache && !Owns(ActingTenant(s, e), s.cache[id])
    ensures id in Step(cfg, s, e).0.cache
    ensures Step(cfg, s, e).0.cache[id] ==
      if Rejects(s, e, id) then s.cache[id].(status := Rejected) else s.cache[id]
  {
    match e {
      case Begin(r) =>
        BeginOutcome(cfg, s, r);
        BeginOwns(cfg, s, r);
      case Grant(r) =>
        GrantOutcome(s, r);
        GrantOwns(s, r);
      case _ =>
    }
    hide BeginStep, GrantStep, MayDecide;
  }

  /**
   * In every reachable state a record changes in the name of a tenant that does not own it exactly when it is PENDING
   * and somebody who may decide rejects it; it then becomes REJECTED and nothing else about it changes.
   */
  lemma OnlyRejectionsCross(cfg: Config, es: seq<Event>, e: Event, id: string)
    requires Runnable(cfg, INITIAL, es) && Enabled(Run(cfg, INITIAL, es), e) && id in Run(cfg, INITIAL, es).cache
    ensures var s := Run(cfg, INITIAL, es);
      && id in Step(cfg, s, e).0.cache
      && var before, after := s.cache[id], Step(cfg, s, e).0.cache[id];
      !Owns(ActingTenant(s, e), before) ==>
        && (before != after <==> Rejects(s, e, id))
        && (before != after ==> after == before.(status := Rejected))
  {
    hide Run, Runnable, Inv, Step, Enabled, MayDecide;
    var s := Run(cfg, INITIAL, es);
    ReachableInv(cfg, es);
    assert FlightsOwn(INITIAL);
    assert Inv(cfg, INITIAL) by {
      RunOfNothing(cfg, INITIAL);
      ReachableInv(cfg, []);
    }
    RunKeepsFlightsOwn(cfg, INITIAL, es);
    StepKeepsRecords(cfg, s, e, id);
    if !Owns(ActingTenant(s, e), s.cache[id]) {
      ForeignWriteIsRejection(cfg, s, e, id);
    }
  }

  lemma RunOfNothing(cfg: Config, s: State)
    ensures Runnable(cfg, s, []) && Run(cfg, s, []) == s
  {
  }

  /** A rejection does cross: a request of one tenant is created, and rejected in the name of any other. */
  lemma RejectionCrosses(cfg: Config, tenant: string)
    ensures var es := [Create(Asked("a1"))];
      && Runnable(cfg, INITIAL, es)
      && var s := Run(cfg, INITIAL, es);
      && "a1" in s.cache && s.cache["a1"].tenant == "acme" && s.cache["a1"].status == Pending
      && Step(cfg, s, Reject("a1", tenant, BOB)).0.cache["a1"].status == Rejected
  {
    var c := Create(Asked("a1"));
    var s := Step(cfg, INITIAL, c).0;
    RunCons(cfg, INITIAL, c, []);
    assert [c] + [] == [c];
    assert "usr_bob"[..4][0] != "agt_"[0] && "usr_bob"[..6][0] != "agent_"[0];
    assert HasTier3 in BOB.roles * {HasTier1, HasTier2, HasTier3, SystemAdmin, Operator};
  }
}
