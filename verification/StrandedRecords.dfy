/** Records left DISPATCHING with nobody in charge: exactly which events do that, and that it is for good. */
module StrandedRecords {
  import opened Wrappers
  import opened ApprovalDispatch
  import opened DispatchKeys

  /** A handler waits for the gateway on behalf of this approval. */
  predicate Held(s: State, id: string, h: nat) {
    h in s.flights && s.flights[h].phase == AwaitingGateway && s.flights[h].approval == id
  }

  predicate Marked(s: State, id: string) {
    id in s.cache && s.cache[id].status == Dispatching
  }

  /** DISPATCHING, and no handler waits for the gateway on its behalf. */
  ghost predicate Stranded(s: State, id: string) {
    Marked(s, id) && forall h :: !Held(s, id, h)
  }

  lemma StaysStranded(s: State, t: State, id: string)
    requires Stranded(s, id) && Marked(t, id)
    requires forall h :: Held(t, id, h) ==> Held(s, id, h)
    ensures Stranded(t, id)
  {
  }

  lemma HeldIsMarked(s: State, id: string, h: nat)
    requires FlightsHoldTheirRecord(s)
    ensures Held(s, id, h) ==> Marked(s, id)
  {
    if Held(s, id, h) {
      assert AtGateway(s, h);
    }
  }

  /** The three ways in which a dispatch can begin. */
  lemma BeginShape(cfg: Config, s: State, r: DispatchRequest)
    ensures var (t, answer) := BeginStep(cfg, s, r);
      if answer == Suspended || Stuck(answer) then
        && r.id in s.cache && s.cache[r.id].status == Approved
        && t.cache == s.cache[r.id := s.cache[r.id].(status := Dispatching)]
        && t.flights == if Stuck(answer) then s.flights
                        else s.flights[r.handle := Flight(r.id, r.tenant, r.key, AwaitingGateway)]
      else
        && t.flights == s.flights
        && (t.cache == s.cache || (r.id in s.cache && s.cache[r.id].status == Approved
                                   && t.cache == s.cache[r.id := s.cache[r.id].(status := Expired)]))
  {
    hide MayDispatch;
  }

  lemma StepKeepsStranded(cfg: Config, s: State, e: Event, id: string)
    requires Enabled(s, e) && Stranded(s, id)
    ensures Stranded(Step(cfg, s, e).0, id)
  {
    match e {
      case Grant(r) =>
        GrantOutcome(s, r);
        DecisionsTouchNoKey(s, r, r.id, r.principal);
      case Begin(r) =>
        BeginShape(cfg, s, r);
      case GatewayReturns(h, ok) =>
        assert Held(s, s.flights[h].approval, h);
      case _ =>
    }
    hide GrantStep, BeginStep, Stranded;
    StaysStranded(s, Step(cfg, s, e).0, id);
  }

  /** A stranded record stays DISPATCHING for good: no handler can move it. */
  lemma {:induction false} StrandedForGood(cfg: Config, s: State, es: seq<Event>, id: string)
    requires Runnable(cfg, s, es) && Stranded(s, id)
    ensures Stranded(Run(cfg, s, es), id)
    decreases |es|
  {
    if es != [] {
      hide Step, Stranded;
      StepKeepsStranded(cfg, s, es[0], id);
      StrandedForGood(cfg, Step(cfg, s, es[0]).0, es[1..], id);
    }
  }

  // ---------------------------------------------------------------- which events strand a record

  /** The dispatch gets stuck once the record is marked, or its handler is dropped at the gateway. */
  predicate Strands(cfg: Config, s: State, e: Event, id: string) {
    match e
    case Begin(r) => r.id == id && Stuck(BeginStep(cfg, s, r).1)
    case Abandon(h) => Held(s, id, h)
    case _ => false
  }

  /** A record that is marked afterwards was marked and held before, and its holder stays. */
  lemma StaysUnstranded(s: State, t: State, id: string)
    requires !Stranded(s, id)
    requires Marked(t, id) ==> Marked(s, id)
    requires Marked(t, id) ==> forall h :: Held(s, id, h) ==> Held(t, id, h)
    ensures !Stranded(t, id)
  {
    if Marked(t, id) {
      var h :| Held(s, id, h);
      assert Held(t, id, h);
    }
  }

  lemma BeginStrandsIff(cfg: Config, s: State, r: DispatchRequest, id: string)
    requires r.handle !in s.flights && !Stranded(s, id) && FlightsHoldTheirRecord(s)
    ensures Stranded(BeginStep(cfg, s, r).0, id) <==> Strands(cfg, s, Begin(r), id)
  {
    var (t, answer) := BeginStep(cfg, s, r);
    BeginShape(cfg, s, r);
    hide BeginStep;
    if answer == Suspended && id == r.id {
      assert Held(t, id, r.handle);
    } else if Stuck(answer) && id == r.id {
      forall h ensures !Held(t, id, h) {
        HeldIsMarked(s, id, h);
      }
    } else {
      StaysUnstranded(s, t, id);
    }
  }

  lemma AbandonStrandsIff(cfg: Config, s: State, h: nat, id: string)
    requires h in s.flights && !Stranded(s, id) && FlightsHoldTheirRecord(s)
    ensures Stranded(Step(cfg, s, Abandon(h)).0, id) <==> Strands(cfg, s, Abandon(h), id)
  {
    var t := Step(cfg, s, Abandon(h)).0;
    if Held(s, id, h) {
      assert AtGateway(s, h);
      forall k ensures !Held(t, id, k) {
        assert Held(t, id, k) ==> AtGateway(s, k);
      }
    } else {
      StaysUnstranded(s, t, id);
    }
  }

  lemma OthersStrandNobody(cfg: Config, s: State, e: Event, id: string)
    requires Enabled(s, e) && !e.Begin? && !e.Abandon? && !Stranded(s, id)
    ensures !Stranded(Step(cfg, s, e).0, id)
  {
    if e.Grant? {
      GrantOutcome(s, e.grant);
      DecisionsTouchNoKey(s, e.grant, e.grant.id, e.grant.principal);
    }
    hide GrantStep, Stranded;
    StaysUnstranded(s, Step(cfg, s, e).0, id);
  }

  /**
   * Of the dispatches that mark their record, those without a gateway at hand and those with an empty key or action
   * strand it at once, and no others.
   */
  lemma MarkingStrandsIff(cfg: Config, s: State, r: DispatchRequest)
    requires Inv(cfg, s) && r.handle !in s.flights
    requires r.id in s.cache && s.cache[r.id].status == Approved
      && BeginStep(cfg, s, r).0.cache[r.id].status == Dispatching
    ensures Stranded(BeginStep(cfg, s, r).0, r.id) <==>
      !GatewayAtHand(cfg) || r.key == "" || s.cache[r.id].action == ""
  {
    hide WritesAreEdges, WritesBounded, CallsOnce, SignaturesHold, FlightsHoldTheirRecord, Stranded;
    assert !Stranded(s, r.id) by { UnmarkedIsNotStranded(s, r.id); }
    BeginStrandsIff(cfg, s, r, r.id);
  }

  lemma UnmarkedIsNotStranded(s: State, id: string)
    ensures Stranded(s, id) ==> Marked(s, id)
  {
  }

  /** A step strands a record exactly when it is one of these two. */
  lemma StrandsIff(cfg: Config, s: State, e: Event, id: string)
    requires Inv(cfg, s) && Enabled(s, e) && !Stranded(s, id)
    ensures Stranded(Step(cfg, s, e).0, id) <==> Strands(cfg, s, e, id)
  {
    hide WritesAreEdges, WritesBounded, CallsOnce, SignaturesHold, FlightsHoldTheirRecord, Stranded;
    match e
    case Begin(r) => BeginStrandsIff(cfg, s, r, id);
    case Abandon(h) => AbandonStrandsIff(cfg, s, h, id);
    case _ => OthersStrandNobody(cfg, s, e, id);
  }

  /** Some event of the run strands the record. */
  ghost predicate SomeStrands(cfg: Config, s: State, es: seq<Event>, id: string)
    requires Runnable(cfg, s, es)
    decreases |es|
  {
    es != [] && (Strands(cfg, s, es[0], id) || SomeStrands(cfg, Step(cfg, s, es[0]).0, es[1..], id))
  }

  lemma {:induction false} RunStrandsIff(cfg: Config, s: State, es: seq<Event>, id: string)
    requires Inv(cfg, s) && Runnable(cfg, s, es) && !Stranded(s, id)
    ensures Stranded(Run(cfg, s, es), id) <==> SomeStrands(cfg, s, es, id)
    decreases |es|
  {
    if es != [] {
      hide Inv, Stranded, Strands, Step, Enabled;
      var t := Step(cfg, s, es[0]).0;
      StepKeepsInv(cfg, s, es[0]);
      StrandsIff(cfg, s, es[0], id);
      if Stranded(t, id) {
        StrandedForGood(cfg, t, es[1..], id);
      } else {
        RunStrandsIff(cfg, t, es[1..], id);
      }
    }
  }

  /** From the start, a record ends up stranded, and stays so, exactly when one of the two has happened to it. */
  lemma StrandedIffAccident(cfg: Config, es: seq<Event>, id: string)
    requires Runnable(cfg, INITIAL, es)
    ensures Stranded(Run(cfg, INITIAL, es), id) <==> SomeStrands(cfg, INITIAL, es, id)
    ensures SomeStrands(cfg, INITIAL, es, id) ==>
      forall more | Runnable(cfg, Run(cfg, INITIAL, es), more) :: Stranded(Run(cfg, Run(cfg, INITIAL, es), more), id)
  {
    hide Run, Runnable, SomeStrands;
    RunStrandsIff(cfg, INITIAL, es, id);
    var s := Run(cfg, INITIAL, es);
    if Stranded(s, id) {
      forall more | Runnable(cfg, s, more) ensures Stranded(Run(cfg, s, more), id) {
        StrandedForGood(cfg, s, more, id);
      }
    }
  }

  // ---------------------------------------------------------------- without a gateway

  /** Nobody was called, nobody waits, and no record was dispatched to an end. */
  ghost predicate NothingOut(s: State) {
    && s.flights == map[] && s.calls == [] && s.intents == map[]
    && forall id :: id in s.cache ==> s.cache[id].status != Succeeded && s.cache[id].status != ProviderFailed
  }

  lemma BeginCallsNobody(cfg: Config, s: State, r: DispatchRequest)
    requires !GatewayAtHand(cfg)
    ensures var t := BeginStep(cfg, s, r).0;
      t.calls == s.calls && t.flights == s.flights && t.intents == s.intents
  {
  }

  lemma GrantCallsNobody(s: State, r: GrantRequest)
    ensures var t := GrantStep(s, r).0;
      t.calls == s.calls && t.flights == s.flights && t.intents == s.intents
  {
  }

  lemma StepWithoutGateway(cfg: Config, s: State, e: Event)
    requires !GatewayAtHand(cfg) && Enabled(s, e) && NothingOut(s)
    ensures NothingOut(Step(cfg, s, e).0)
  {
    match e {
      case Begin(r) =>
        BeginOutcome(cfg, s, r);
        BeginCallsNobody(cfg, s, r);
      case Grant(r) =>
        GrantOutcome(s, r);
        GrantCallsNobody(s, r);
      case _ =>
    }
    hide BeginStep, GrantStep;
  }

  lemma {:induction false} RunWithoutGateway(cfg: Config, s: State, es: seq<Event>)
    requires !GatewayAtHand(cfg) && Runnable(cfg, s, es) && NothingOut(s)
    ensures NothingOut(Run(cfg, s, es))
    decreases |es|
  {
    if es != [] {
      hide Step, Enabled, NothingOut;
      StepWithoutGateway(cfg, s, es[0]);
      RunWithoutGateway(cfg, Step(cfg, s, es[0]).0, es[1..]);
    }
  }

  /** Without a gateway at hand no run ever calls one, no dispatch ends, and every marked record is stranded. */
  lemma NothingGoesOutWithoutGateway(cfg: Config, es: seq<Event>, id: string)
    requires !GatewayAtHand(cfg) && Runnable(cfg, INITIAL, es)
    ensures var s := Run(cfg, INITIAL, es);
      && s.calls == [] && s.intents == map[]
      && (Marked(s, id) <==> Stranded(s, id))
      && (id in s.cache ==> s.cache[id].status != Succeeded && s.cache[id].status != ProviderFailed)
  {
    hide Run, Runnable;
    RunWithoutGateway(cfg, INITIAL, es);
  }

  // ---------------------------------------------------------------- each of them happens

  datatype Accident = MissingGateway | EmptyKey | EmptyAction | DropsAtGateway

  /** A missing gateway is a matter of the configuration, and only a gateway at hand can be waited for. */
  predicate Possible(cfg: Config, how: Accident) {
    (how.MissingGateway? ==> !GatewayAtHand(cfg)) && (how.DropsAtGateway? ==> GatewayAtHand(cfg))
  }

  function Action(how: Accident): string {
    if how.EmptyAction? then "" else "REFUND"
  }

  function Dispatched(how: Accident): DispatchRequest {
    DispatchRequest(1, "a1", "acme", if how.EmptyKey? then "" else "k1", ALICE, false, 2)
  }

  /** One request is created, granted and dispatched, and then the handler may be dropped. */
  function Accidentally(how: Accident): seq<Event> {
    [Create(AskedTo("a1", Action(how)))]
    + ([Grant(GrantRequest("a1", "acme", BOB, None, 1))]
    + ([Begin(Dispatched(how))] + if how.DropsAtGateway? then [Abandon(1)] else []))
  }

  lemma AliceMayDispatch(cfg: Config, s: State, how: Accident)
    requires "a1" in s.cache && s.intents == map[] && s.flights == map[]
    requires s.cache["a1"] ==
      NewRecord(cfg, AskedTo("a1", Action(how))).(status := Approved, approver := Some("usr_bob"))
    requires cfg.hash(ArtifactOf(AskedTo("a1", Action(how)))) != "" && Possible(cfg, how)
    ensures var answer := BeginStep(cfg, s, Dispatched(how)).1;
      if how.DropsAtGateway? then answer == Suspended else Stuck(answer)
  {
    assert Operator in ALICE.roles * {SystemAdmin, PlatformAdmin, Operator};
  }

  lemma SomeStrandsLater(cfg: Config, s: State, e: Event, es: seq<Event>, id: string)
    requires Enabled(s, e) && Runnable(cfg, Step(cfg, s, e).0, es)
    requires Strands(cfg, s, e, id) || SomeStrands(cfg, Step(cfg, s, e).0, es, id)
    ensures Runnable(cfg, s, [e] + es) && SomeStrands(cfg, s, [e] + es, id)
  {
    RunCons(cfg, s, e, es);
    assert ([e] + es)[1..] == es;
  }

  lemma DispatchStrands(cfg: Config, s: State, how: Accident)
    requires "a1" in s.cache && s.intents == map[] && s.flights == map[]
    requires s.cache["a1"] ==
      NewRecord(cfg, AskedTo("a1", Action(how))).(status := Approved, approver := Some("usr_bob"))
    requires cfg.hash(ArtifactOf(AskedTo("a1", Action(how)))) != "" && Possible(cfg, how)
    ensures var es := [Begin(Dispatched(how))] + if how.DropsAtGateway? then [Abandon(1)] else [];
      Runnable(cfg, s, es) && SomeStrands(cfg, s, es, "a1")
  {
    AliceMayDispatch(cfg, s, how);
    BeginShape(cfg, s, Dispatched(how));
    hide BeginStep;
    var t := Step(cfg, s, Begin(Dispatched(how))).0;
    if how.DropsAtGateway? {
      assert Held(t, "a1", 1);
      SomeStrandsLater(cfg, t, Abandon(1), [], "a1");
      assert [Abandon(1)] + [] == [Abandon(1)];
      SomeStrandsLater(cfg, s, Begin(Dispatched(how)), [Abandon(1)], "a1");
    } else {
      SomeStrandsLater(cfg, s, Begin(Dispatched(how)), [], "a1");
    }
  }

  /** Four runs from the start, each of which strands its record. */
  lemma AccidentsHappen(cfg: Config, how: Accident)
    requires (forall a :: cfg.hash(a) != "") && Possible(cfg, how)
    ensures Runnable(cfg, INITIAL, Accidentally(how)) && Stranded(Run(cfg, INITIAL, Accidentally(how)), "a1")
  {
    var c, g := Create(AskedTo("a1", Action(how))), Grant(GrantRequest("a1", "acme", BOB, None, 1));
    var s1 := Step(cfg, INITIAL, c).0;
    BobMayGrant(cfg, s1, "a1", Action(how));
    var s2 := Step(cfg, s1, g).0;
    DispatchStrands(cfg, s2, how);
    hide Step, Enabled, Strands, SomeStrands, Runnable, Stranded;
    var es := [Begin(Dispatched(how))] + if how.DropsAtGateway? then [Abandon(1)] else [];
    SomeStrandsLater(cfg, s1, g, es, "a1");
    SomeStrandsLater(cfg, INITIAL, c, [g] + es, "a1");
    StrandedIffAccident(cfg, Accidentally(how), "a1");
  }
}
