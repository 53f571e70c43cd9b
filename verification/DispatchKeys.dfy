/** Idempotency keys of the dispatch handlers: what the intent cache guards, and what it does not. */
module DispatchKeys {
  import opened Wrappers
  import opened ApprovalDispatch

  // ---------------------------------------------------------------- answers that are kept

  /** Answers are kept only for approvals that went through the gateway and succeeded. */
  ghost predicate IntentsBacked(s: State) {
    && (forall k :: k in s.intents ==> Delivered(s, s.intents[k]))
    && (forall h :: h in s.flights && !AtGateway(s, h) ==> Delivered(s, s.flights[h].approval))
    && (forall h :: h in s.flights ==> Called(s, s.flights[h].approval))
  }

  ghost predicate Called(s: State, id: string) {
    exists i :: 0 <= i < |s.calls| && s.calls[i].approval == id
  }

  ghost predicate Delivered(s: State, id: string) {
    Called(s, id) && id in s.cache && s.cache[id].status == Succeeded
  }

  lemma CallsOnlyGrow(cfg: Config, s: State, e: Event)
    requires Enabled(s, e)
    ensures s.calls <= Step(cfg, s, e).0.calls
    ensures e.Begin? || Step(cfg, s, e).0.calls == s.calls
  {
  }

  lemma CalledStays(cfg: Config, s: State, e: Event, id: string)
    requires Enabled(s, e) && Called(s, id)
    ensures Called(Step(cfg, s, e).0, id)
  {
    hide Step;
    CallsOnlyGrow(cfg, s, e);
    var i :| 0 <= i < |s.calls| && s.calls[i].approval == id;
    assert Step(cfg, s, e).0.calls[i] == s.calls[i];
  }

  lemma DeliveredStays(cfg: Config, s: State, e: Event, id: string)
    requires Inv(cfg, s) && Enabled(s, e) && Delivered(s, id)
    ensures Delivered(Step(cfg, s, e).0, id)
  {
    hide Inv, Called;
    StepKeepsRecords(cfg, s, e, id);
    CalledStays(cfg, s, e, id);
  }

  lemma StepKeepsIntentsBacked(cfg: Config, s: State, e: Event)
    requires Inv(cfg, s) && Enabled(s, e) && IntentsBacked(s)
    ensures IntentsBacked(Step(cfg, s, e).0)
  {
    hide Inv, Delivered, Called, BeginStep;
    var t := Step(cfg, s, e).0;
    forall id | Delivered(s, id) ensures Delivered(t, id) { DeliveredStays(cfg, s, e, id); }
    forall id | Called(s, id) ensures Called(t, id) { CalledStays(cfg, s, e, id); }
    if e.Begin? {
      BeginOnlyCalls(cfg, s, e.dispatch);
    }
    if e.GatewayReturns? && e.ok {
      Deliver(s, e.handle);
    }
  }

  /** A dispatch that begins adds no answer, and at most one flight, for an approval that it calls for. */
  lemma BeginOnlyCalls(cfg: Config, s: State, r: DispatchRequest)
    requires r.handle !in s.flights
    ensures var t := BeginStep(cfg, s, r).0;
      && t.intents == s.intents
      && forall h :: h in t.flights ==>
           if h == r.handle then t.flights[h].phase == AwaitingGateway && Called(t, t.flights[h].approval)
           else h in s.flights && t.flights[h] == s.flights[h]
  {
    var t := BeginStep(cfg, s, r).0;
    if r.handle in t.flights {
      assert t.calls[|s.calls|].approval == r.id;
    }
  }

  lemma Deliver(s: State, h: nat)
    requires Enabled(s, GatewayReturns(h, true)) && Called(s, s.flights[h].approval)
    ensures Delivered(GatewayStep(s, h, true).0, s.flights[h].approval)
  {
  }

  lemma {:induction false} RunKeepsIntentsBacked(cfg: Config, s: State, es: seq<Event>)
    requires Inv(cfg, s) && Runnable(cfg, s, es) && IntentsBacked(s)
    ensures IntentsBacked(Run(cfg, s, es))
    decreases |es|
  {
    if es != [] {
      hide Inv, IntentsBacked, Step;
      StepKeepsInv(cfg, s, es[0]);
      StepKeepsIntentsBacked(cfg, s, es[0]);
      RunKeepsIntentsBacked(cfg, Step(cfg, s, es[0]).0, es[1..]);
    }
  }

  // ---------------------------------------------------------------- keys that were answered

  /** A key in use by a dispatch that is still in flight. */
  ghost predicate KeyBusy(s: State, slot: (string, string)) {
    exists h :: h in s.flights && (s.flights[h].tenant, s.flights[h].key) == slot
  }

  /** Runs in which no dispatch begins under a key that another dispatch in flight already uses. */
  ghost predicate NoKeyOverlap(cfg: Config, s: State, es: seq<Event>)
    requires Runnable(cfg, s, es)
    decreases |es|
  {
    es == [] || ((es[0].Begin? ==> !KeyBusy(s, (es[0].dispatch.tenant, es[0].dispatch.key)))
                 && NoKeyOverlap(cfg, Step(cfg, s, es[0]).0, es[1..]))
  }

  ghost predicate KeysExclusive(s: State) {
    && (forall h :: h in s.flights ==> (s.flights[h].tenant, s.flights[h].key) !in s.intents)
    && (forall h, k :: h in s.flights && k in s.flights && h != k ==>
      (s.flights[h].tenant, s.flights[h].key) != (s.flights[k].tenant, s.flights[k].key))
  }

  lemma StepKeepsKeys(cfg: Config, s: State, e: Event)
    requires Enabled(s, e) && KeysExclusive(s)
    requires e.Begin? ==> !KeyBusy(s, (e.dispatch.tenant, e.dispatch.key))
    ensures KeysExclusive(Step(cfg, s, e).0)
    ensures forall k :: k in s.intents ==>
      k in Step(cfg, s, e).0.intents && Step(cfg, s, e).0.intents[k] == s.intents[k]
  {
    hide BeginStep, GrantStep, RejectStep;
    match e
    case Begin(r) =>
      BeginFlies(cfg, s, r);
    case Grant(r) =>
      DecisionsTouchNoKey(s, r, r.id, r.principal);
    case Reject(id, _, p) =>
      DecisionsTouchNoKey(s, GrantRequest(id, "", p, None, 0), id, p);
    case _ =>
  }

  lemma DecisionsTouchNoKey(s: State, r: GrantRequest, id: string, p: Principal)
    ensures GrantStep(s, r).0.flights == s.flights && GrantStep(s, r).0.intents == s.intents
    ensures RejectStep(s, id, p).0.flights == s.flights && RejectStep(s, id, p).0.intents == s.intents
  {
  }

  /** A dispatch that begins leaves the answers alone and takes off only under a key without one. */
  lemma BeginFlies(cfg: Config, s: State, r: DispatchRequest)
    ensures var t := BeginStep(cfg, s, r).0;
      && t.intents == s.intents
      && (t.flights == s.flights
          || ((r.tenant, r.key) !in s.intents
              && t.flights == s.flights[r.handle := Flight(r.id, r.tenant, r.key, AwaitingGateway)]))
  {
  }

  /** Without overlap under one key, a key once answered keeps its approval and its answer for good. */
  lemma {:induction false} KeysStayWithoutOverlap(cfg: Config, s: State, es: seq<Event>, slot: (string, string))
    requires Runnable(cfg, s, es) && NoKeyOverlap(cfg, s, es) && KeysExclusive(s) && slot in s.intents
    ensures slot in Run(cfg, s, es).intents && Run(cfg, s, es).intents[slot] == s.intents[slot]
    decreases |es|
  {
    if es != [] {
      hide KeysExclusive, Step;
      StepKeepsKeys(cfg, s, es[0]);
      KeysStayWithoutOverlap(cfg, Step(cfg, s, es[0]).0, es[1..], slot);
    }
  }

  // ---------------------------------------------------------------- at most one call under a key

  ghost function CallsUnder(calls: seq<GatewayCall>, slot: (string, string)): nat {
    if calls == [] then 0
    else
      var last := calls[|calls|-1];
      CallsUnder(calls[..|calls|-1], slot) + if (last.tenant, last.key) == slot then 1 else 0
  }

  lemma CallsUnderAppend(calls: seq<GatewayCall>, c: GatewayCall, slot: (string, string))
    ensures CallsUnder(calls + [c], slot) == CallsUnder(calls, slot) + if (c.tenant, c.key) == slot then 1 else 0
  {
    assert (calls + [c])[..|calls|] == calls;
  }

  predicate Holds(s: State, h: nat, slot: (string, string)) {
    h in s.flights && (s.flights[h].tenant, s.flights[h].key) == slot
  }

  /** No dispatch begins while another is in flight under the key, none under it fails, and none is abandoned. */
  predicate Calm(s: State, e: Event, slot: (string, string)) {
    match e
    case Begin(r) => (r.tenant, r.key) == slot ==> forall h :: h in s.flights ==> !Holds(s, h, slot)
    case GatewayReturns(h, ok) => Holds(s, h, slot) ==> ok
    case Abandon(h) => !Holds(s, h, slot)
    case _ => true
  }

  ghost predicate CalmRun(cfg: Config, s: State, es: seq<Event>, slot: (string, string))
    requires Runnable(cfg, s, es)
    decreases |es|
  {
    es == [] || (Calm(s, es[0], slot) && CalmRun(cfg, Step(cfg, s, es[0]).0, es[1..], slot))
  }

  /** One call at most, and once called the key is answered or still in flight. */
  ghost predicate CalledOnce(s: State, slot: (string, string)) {
    && CallsUnder(s.calls, slot) <= 1
    && (CallsUnder(s.calls, slot) == 1 ==> slot in s.intents || KeyBusy(s, slot))
  }

  lemma BeginCallsOnce(cfg: Config, s: State, r: DispatchRequest, slot: (string, string))
    requires r.handle !in s.flights && CalledOnce(s, slot) && Calm(s, Begin(r), slot)
    ensures CalledOnce(BeginStep(cfg, s, r).0, slot)
  {
    var t := BeginStep(cfg, s, r).0;
    if BeginStep(cfg, s, r).1 == Suspended {
      CallsUnderAppend(s.calls, CallOf(r, s.cache[r.id]), slot);
      assert Holds(t, r.handle, (r.tenant, r.key));
      if KeyBusy(s, slot) {
        var h :| h in s.flights && (s.flights[h].tenant, s.flights[h].key) == slot;
        assert Holds(s, h, slot) && Holds(t, h, slot);
      }
    }
  }

  lemma StepCallsOnce(cfg: Config, s: State, e: Event, slot: (string, string))
    requires Enabled(s, e) && CalledOnce(s, slot) && Calm(s, e, slot)
    ensures CalledOnce(Step(cfg, s, e).0, slot)
  {
    hide BeginStep, CallsUnder;
    var t := Step(cfg, s, e).0;
    if e.Begin? {
      BeginCallsOnce(cfg, s, e.dispatch, slot);
    } else {
      hide WriteStatus;
      OtherStepsCallNobody(cfg, s, e);
      if KeyBusy(s, slot) {
        var h :| h in s.flights && (s.flights[h].tenant, s.flights[h].key) == slot;
        assert Holds(s, h, slot);
        KeyStaysGuarded(cfg, s, e, h, slot);
      }
    }
  }

  lemma OtherStepsCallNobody(cfg: Config, s: State, e: Event)
    requires Enabled(s, e) && !e.Begin?
    ensures Step(cfg, s, e).0.calls == s.calls
    ensures forall k :: k in s.intents ==> k in Step(cfg, s, e).0.intents
  {
  }

  /** A flight under the key flies on, or lands with an answer. */
  lemma KeyStaysGuarded(cfg: Config, s: State, e: Event, h: nat, slot: (string, string))
    requires Enabled(s, e) && !e.Begin? && Holds(s, h, slot) && Calm(s, e, slot)
    ensures slot in Step(cfg, s, e).0.intents || Holds(Step(cfg, s, e).0, h, slot)
  {
  }

  lemma {:induction false} RunCallsOnce(cfg: Config, s: State, es: seq<Event>, slot: (string, string))
    requires Runnable(cfg, s, es) && CalledOnce(s, slot) && CalmRun(cfg, s, es, slot)
    ensures CalledOnce(Run(cfg, s, es), slot)
    decreases |es|
  {
    if es != [] {
      hide CalledOnce, Step, Calm;
      StepCallsOnce(cfg, s, es[0], slot);
      RunCallsOnce(cfg, Step(cfg, s, es[0]).0, es[1..], slot);
    }
  }

  /** Over every run from the start a key sees at most one gateway call, as long as nothing disturbs it. */
  lemma OneCallPerKey(cfg: Config, es: seq<Event>, slot: (string, string))
    requires Runnable(cfg, INITIAL, es) && CalmRun(cfg, INITIAL, es, slot)
    ensures CallsUnder(Run(cfg, INITIAL, es).calls, slot) <= 1
  {
    assert CalledOnce(INITIAL, slot);
    RunCallsOnce(cfg, INITIAL, es, slot);
  }

  // ---------------------------------------------------------------- what the guard looks at

  /** Every check but the one on the key passes. */
  predicate Ready(cfg: Config, s: State, q: DispatchRequest) {
    BeginStep(cfg, s.(intents := map[]), q).1 == Suspended
  }

  /** A ready approval goes out under a key exactly when the key has no answer yet; earlier calls do not count. */
  lemma KeyGuardsIffAnswered(cfg: Config, s: State, q: DispatchRequest)
    requires Ready(cfg, s, q)
    ensures BeginStep(cfg, s, q).1 == Suspended <==> (q.tenant, q.key) !in s.intents
    ensures (q.tenant, q.key) in s.intents ==>
      BeginStep(cfg, s, q) == (s, if s.intents[(q.tenant, q.key)] == q.id then Executing(q.id) else Conflict)
    ensures (q.tenant, q.key) !in s.intents ==>
      CallsUnder(BeginStep(cfg, s, q).0.calls, (q.tenant, q.key)) == CallsUnder(s.calls, (q.tenant, q.key)) + 1
  {
    hide WriteStatus;
    if (q.tenant, q.key) !in s.intents {
      CallsUnderAppend(s.calls, CallOf(q, s.cache[q.id]), (q.tenant, q.key));
    }
  }

  // ---------------------------------------------------------------- each disturbance lets a second call through

  datatype Disturbance = Overlap | ProviderFails | DropsAtGateway | DropsAtLedger

  /** What happens to the first dispatch before the second begins. */
  function Meanwhile(how: Disturbance, h: nat): seq<Event> {
    match how
    case Overlap => []
    case ProviderFails => [GatewayReturns(h, false)]
    case DropsAtGateway => [Abandon(h)]
    case DropsAtLedger => [GatewayReturns(h, true)] + [Abandon(h)]
  }

  lemma RunCons(cfg: Config, s: State, e: Event, es: seq<Event>)
    requires Enabled(s, e) && Runnable(cfg, Step(cfg, s, e).0, es)
    ensures Runnable(cfg, s, [e] + es) && Run(cfg, s, [e] + es) == Run(cfg, Step(cfg, s, e).0, es)
  {
    assert ([e] + es)[1..] == es;
  }

  /** What BeginStep leaves behind when it calls the gateway. */
  predicate TookOff(s: State, t: State, r: DispatchRequest) {
    && r.id in s.cache && t.cache.Keys == s.cache.Keys && t.intents == s.intents
      && t.calls == s.calls + [CallOf(r, s.cache[r.id])]
    && t.flights == s.flights[r.handle := Flight(r.id, r.tenant, r.key, AwaitingGateway)]
    && (forall id :: id in s.cache && id != r.id ==> t.cache[id] == s.cache[id])
  }

  lemma BeginTakesOff(cfg: Config, s: State, r: DispatchRequest)
    requires BeginStep(cfg, s, r).1 == Suspended
    ensures TookOff(s, BeginStep(cfg, s, r).0, r)
  {
  }

  lemma BeginAgain(cfg: Config, s: State, t: State, r: DispatchRequest, q: DispatchRequest)
    requires TookOff(s, t, r) && r.id != q.id && BeginStep(cfg, s, q).1 == Suspended
    ensures BeginStep(cfg, t, q).1 == Suspended
  {
  }

  /**
   * With overlap under one key the key is rebound: both approvals reach the gateway, the first to finish is answered
   * under the key, and the last to finish replaces that answer.
   */
  lemma OverlapRebindsKey(cfg: Config, s: State, r: DispatchRequest, q: DispatchRequest) returns (es: seq<Event>)
    requires r.handle != q.handle && r.handle !in s.flights && q.handle !in s.flights
    requires r.tenant == q.tenant && r.key == q.key && r.id != q.id
    requires BeginStep(cfg, s, r).1 == Suspended && BeginStep(cfg, s, q).1 == Suspended
    ensures Runnable(cfg, s, es) && Enabled(Run(cfg, s, es), LedgerReturns(q.handle))
    ensures var t := Run(cfg, s, es);
      && t.calls == s.calls + [CallOf(r, s.cache[r.id])] + [CallOf(q, s.cache[q.id])]
      && (r.tenant, r.key) in t.intents && t.intents[(r.tenant, r.key)] == r.id
      && Step(cfg, t, LedgerReturns(q.handle)).0.intents[(r.tenant, r.key)] == q.id
  {
    var s1 := BeginStep(cfg, s, r).0;
    BeginTakesOff(cfg, s, r);
    BeginAgain(cfg, s, s1, r, q);
    var s2 := BeginStep(cfg, s1, q).0;
    BeginTakesOff(cfg, s1, q);
    hide BeginStep, WriteStatus;
    RunCons(cfg, s, Begin(r), []);
    RunCons(cfg, s1, Begin(q), []);
    RunConcat(cfg, s, [Begin(r)] + [], [Begin(q)] + []);
    var more := BothLand(cfg, s2, r, q);
    RunConcat(cfg, s, [Begin(r)] + [] + ([Begin(q)] + []), more);
    es := [Begin(r)] + [] + ([Begin(q)] + []) + more;
  }

  /** Both flights succeed; the first is answered before the second. */
  lemma BothLand(cfg: Config, s: State, r: DispatchRequest, q: DispatchRequest) returns (es: seq<Event>)
    requires r.handle != q.handle && r.handle in s.flights && q.handle in s.flights && r.id in s.cache
      && q.id in s.cache
    requires s.flights[r.handle] == Flight(r.id, r.tenant, r.key, AwaitingGateway)
    requires s.flights[q.handle] == Flight(q.id, q.tenant, q.key, AwaitingGateway) && r.tenant == q.tenant
      && r.key == q.key
    ensures Runnable(cfg, s, es) && Enabled(Run(cfg, s, es), LedgerReturns(q.handle))
    ensures var t := Run(cfg, s, es);
      && t.calls == s.calls
      && (r.tenant, r.key) in t.intents && t.intents[(r.tenant, r.key)] == r.id
      && Step(cfg, t, LedgerReturns(q.handle)).0.intents[(r.tenant, r.key)] == q.id
  {
    hide WriteStatus;
    Returns(cfg, s, r.handle);
    var s1 := Step(cfg, s, GatewayReturns(r.handle, true)).0;
    Returns(cfg, s1, q.handle);
    var s2 := Step(cfg, s1, GatewayReturns(q.handle, true)).0;
    hide GatewayStep;
    RunCons(cfg, s2, LedgerReturns(r.handle), []);
    RunCons(cfg, s1, GatewayReturns(q.handle, true), [LedgerReturns(r.handle)] + []);
    RunCons(cfg, s, GatewayReturns(r.handle, true),
      [GatewayReturns(q.handle, true)] + ([LedgerReturns(r.handle)] + []));
    es := [GatewayReturns(r.handle, true)] + ([GatewayReturns(q.handle, true)] + ([LedgerReturns(r.handle)] + []));
  }

  lemma Returns(cfg: Config, s: State, h: nat)
    requires Enabled(s, GatewayReturns(h, true))
    ensures var t := Step(cfg, s, GatewayReturns(h, true)).0;
      && t.flights == s.flights[h := s.flights[h].(phase := AwaitingLedger)] && t.intents == s.intents
      && t.calls == s.calls && t.cache.Keys == s.cache.Keys
  {
  }

  lemma {:induction false} RunConcat(cfg: Config, s: State, es: seq<Event>, fs: seq<Event>)
    requires Runnable(cfg, s, es) && Runnable(cfg, Run(cfg, s, es), fs)
    ensures Runnable(cfg, s, es + fs) && Run(cfg, s, es + fs) == Run(cfg, Run(cfg, s, es), fs)
    decreases |es|
  {
    hide Step, Enabled;
    if es == [] {
      assert es + fs == fs;
    } else {
      RunConcat(cfg, Step(cfg, s, es[0]).0, es[1..], fs);
      assert (es + fs)[1..] == es[1..] + fs;
    }
  }

  /** The state as far as a waiting dispatch request looks at it. */
  predicate SameFor(s: State, t: State, q: DispatchRequest) {
    q.id in s.cache && q.id in t.cache && t.cache[q.id] == s.cache[q.id] && t.intents == s.intents
  }

  lemma SameBegin(cfg: Config, s: State, t: State, q: DispatchRequest)
    requires SameFor(s, t, q) && BeginStep(cfg, s, q).1 == Suspended
    ensures BeginStep(cfg, t, q).1 == Suspended && BeginStep(cfg, t, q).0.calls == t.calls + [CallOf(q, s.cache[q.id])]
  {
  }

  /** The first dispatch fails or is dropped without leaving an answer, and the other approval is as it was. */
  lemma LeavesNoAnswer(cfg: Config, s: State, r: DispatchRequest, q: DispatchRequest, how: Disturbance)
    requires r.id in s.cache && q.id in s.cache && r.id != q.id && r.handle != q.handle && q.handle !in s.flights
    requires r.handle in s.flights && s.flights[r.handle] == Flight(r.id, r.tenant, r.key, AwaitingGateway)
    ensures Runnable(cfg, s, Meanwhile(how, r.handle))
    ensures var t := Run(cfg, s, Meanwhile(how, r.handle));
      SameFor(s, t, q) && t.calls == s.calls && q.handle !in t.flights
  {
    match how
    case Overlap =>
    case ProviderFails =>
      RunCons(cfg, s, GatewayReturns(r.handle, false), []);
    case DropsAtGateway =>
      RunCons(cfg, s, Abandon(r.handle), []);
    case DropsAtLedger =>
      var t := Step(cfg, s, GatewayReturns(r.handle, true)).0;
      RunCons(cfg, t, Abandon(r.handle), []);
      RunCons(cfg, s, GatewayReturns(r.handle, true), [Abandon(r.handle)] + []);
      assert [Abandon(r.handle)] + [] == [Abandon(r.handle)];
  }

  /** From any state with two approvals ready under one unanswered key, each disturbance leads to two calls under it. */
  lemma DisturbanceCallsTwice(cfg: Config, s: State, r: DispatchRequest, q: DispatchRequest, how: Disturbance)
    returns (es: seq<Event>)
    requires r.handle != q.handle && r.handle !in s.flights && q.handle !in s.flights
    requires r.tenant == q.tenant && r.key == q.key && r.id != q.id
    requires BeginStep(cfg, s, r).1 == Suspended && BeginStep(cfg, s, q).1 == Suspended
    ensures es == [Begin(r)] + Meanwhile(how, r.handle) + [Begin(q)]
    ensures Runnable(cfg, s, es) && r.id in s.cache && q.id in s.cache
    ensures Run(cfg, s, es).calls == s.calls + [CallOf(r, s.cache[r.id])] + [CallOf(q, s.cache[q.id])]
    ensures CallsUnder(Run(cfg, s, es).calls, (r.tenant, r.key)) == CallsUnder(s.calls, (r.tenant, r.key)) + 2
  {
    BeginTakesOff(cfg, s, r);
    BeginTakesOff(cfg, s, q);
    var s1 := BeginStep(cfg, s, r).0;
    SameBegin(cfg, s, s1, q);
    hide BeginStep, WriteStatus;
    RunCons(cfg, s, Begin(r), []);
    LeavesNoAnswer(cfg, s1, r, q, how);
    var s2 := Run(cfg, s1, Meanwhile(how, r.handle));
    SameBegin(cfg, s1, s2, q);
    RunCons(cfg, s2, Begin(q), []);
    assert [Begin(r)] + [] == [Begin(r)] && [Begin(q)] + [] == [Begin(q)];
    RunConcat(cfg, s, [Begin(r)], Meanwhile(how, r.handle));
    RunConcat(cfg, s, [Begin(r)] + Meanwhile(how, r.handle), [Begin(q)]);
    es := [Begin(r)] + Meanwhile(how, r.handle) + [Begin(q)];
    CallsUnderAppend(s.calls, CallOf(r, s.cache[r.id]), (r.tenant, r.key));
    CallsUnderAppend(s.calls + [CallOf(r, s.cache[r.id])], CallOf(q, s.cache[q.id]), (r.tenant, r.key));
  }

  // ---------------------------------------------------------------- such states are reached

  const ALICE := Principal("usr_alice", false, {Operator})
  const BOB := Principal("usr_bob", false, {HasTier3})

  function AskedTo(id: string, action: string): CreateRequest {
    CreateRequest(id, "acme", ALICE, action, ["c1"], "{}", 10.0, Tier1, 0)
  }

  function Asked(id: string): CreateRequest {
    AskedTo(id, "REFUND")
  }

  function Sent(id: string, handle: nat): DispatchRequest {
    DispatchRequest(handle, id, "acme", "k1", ALICE, false, 2)
  }

  /** Two requests are created and granted, and nothing else happens. */
  lemma TwoApprovalsReady(cfg: Config) returns (es: seq<Event>)
    requires (forall a :: cfg.hash(a) != "") && GatewayAtHand(cfg)
    ensures Runnable(cfg, INITIAL, es)
    ensures var s := Run(cfg, INITIAL, es);
      && s.calls == [] && s.flights == map[]
      && BeginStep(cfg, s, Sent("a1", 1)).1 == Suspended && BeginStep(cfg, s, Sent("a2", 2)).1 == Suspended
  {
    assert "a1"[1] != "a2"[1];
    var c1, c2 := Create(Asked("a1")), Create(Asked("a2"));
    var g1, g2 := Grant(GrantRequest("a1", "acme", BOB, None, 1)), Grant(GrantRequest("a2", "acme", BOB, None, 1));
    var s1 := Step(cfg, INITIAL, c1).0;
    var s2 := Step(cfg, s1, c2).0;
    var s3 := Step(cfg, s2, g1).0;
    BobMayGrant(cfg, s2, "a1", "REFUND");
    BobMayGrant(cfg, s3, "a2", "REFUND");
    var s4 := Step(cfg, s3, g2).0;
    MaySend(cfg, s4, "a1", 1);
    MaySend(cfg, s4, "a2", 2);
    hide Step, Enabled, BeginStep;
    RunCons(cfg, s3, g2, []);
    RunCons(cfg, s2, g1, [g2] + []);
    RunCons(cfg, s1, c2, [g1] + ([g2] + []));
    RunCons(cfg, INITIAL, c1, [c2] + ([g1] + ([g2] + [])));
    es := [c1] + ([c2] + ([g1] + ([g2] + [])));
  }

  lemma MaySend(cfg: Config, s: State, id: string, handle: nat)
    requires id in s.cache && s.cache[id] == NewRecord(cfg, Asked(id)).(status := Approved, approver := Some("usr_bob"))
    requires s.intents == map[] && cfg.hash(ArtifactOf(Asked(id))) != "" && GatewayAtHand(cfg)
    ensures BeginStep(cfg, s, Sent(id, handle)).1 == Suspended
  {
    assert Operator in ALICE.roles * {SystemAdmin, PlatformAdmin, Operator};
  }

  lemma BobMayGrant(cfg: Config, s: State, id: string, action: string)
    requires id in s.cache && s.cache[id] == NewRecord(cfg, AskedTo(id, action))
    ensures var t := GrantStep(s, GrantRequest(id, "acme", BOB, None, 1)).0;
      && t.cache == s.cache[id := s.cache[id].(status := Approved, approver := Some("usr_bob"))]
      && t.intents == s.intents && t.flights == s.flights && t.calls == s.calls
  {
    assert "usr_bob"[4] != "usr_alice"[4];
    assert "usr_bob"[..4][0] != "agt_"[0] && "usr_bob"[..6][0] != "agent_"[0];
    assert HasTier3 in BOB.roles * {HasTier1, HasTier2, HasTier3, SystemAdmin, Operator};
  }

  /** From the start, each disturbance leads to two gateway calls under one key. */
  lemma KeyCalledTwiceFromStart(cfg: Config, how: Disturbance) returns (es: seq<Event>)
    requires (forall a :: cfg.hash(a) != "") && GatewayAtHand(cfg)
    ensures Runnable(cfg, INITIAL, es) && CallsUnder(Run(cfg, INITIAL, es).calls, ("acme", "k1")) == 2
  {
    hide BeginStep;
    var setup := TwoApprovalsReady(cfg);
    var s := Run(cfg, INITIAL, setup);
    assert "a1"[1] != "a2"[1];
    var more := DisturbanceCallsTwice(cfg, s, Sent("a1", 1), Sent("a2", 2), how);
    RunConcat(cfg, INITIAL, setup, more);
    es := setup + more;
  }
}
