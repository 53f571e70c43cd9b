/** The approval router: handlers as atomic steps, split where the source suspends, over two shared caches. */
module ApprovalDispatch {
  import opened Sequences
  import opened Wrappers

  // ---------------------------------------------------------------- the state machine

  datatype Status = Pending | Approved | Rejected | Dispatching | Succeeded | ProviderFailed | Expired | Cancelled

  predicate ValidTransition(from: Status, to: Status) {
    match from
    case Pending => to.Approved? || to.Rejected? || to.Expired? || to.Cancelled?
    case Approved => to.Dispatching? || to.Expired? || to.Cancelled?
    case Dispatching => to.Succeeded? || to.ProviderFailed?
    case _ => false
  }

  predicate Terminal(s: Status) {
    !s.Pending? && !s.Approved? && !s.Dispatching?
  }

  // ---------------------------------------------------------------- records and callers

  datatype Tier = Tier1 | Tier2 | Tier3 | UnknownTier

  datatype Role = Operator | Admin | SystemAdmin | PlatformAdmin | HasTier1 | HasTier2 | HasTier3 | OtherRole

  datatype Principal = Principal(id: string, isSystem: bool, roles: set<Role>)

  datatype Artifact = Artifact(tenant: string, action: string, targets: seq<string>, payload: string, policy: string,
                               tier: Tier, expiresAt: int, createdBy: string)

  datatype Record = Record(tenant: string, status: Status, expiry: int, requester: string, tier: Tier, cost: real,
                           action: string, targets: seq<string>, payload: string,
                           digest: string, policyDigest: string, artifact: Option<Artifact>, approver: Option<string>)

  /**
   * The hash of the source, left uninterpreted, the digest of the policy in force, whether a gateway is attached to the
   * application, and the name of the environment, stripped and in lower case.
   */
  datatype Config = Config(hash: Artifact -> string, policyDigest: string, attached: bool, environment: string)

  /** Without an attached gateway one is constructed, which fails outside the test environment. */
  predicate GatewayAtHand(cfg: Config) {
    cfg.attached || cfg.environment == "test"
  }

  const POLICY := "revpilot_policy_2026_09"
  const DAY := 86400

  predicate IsAgent(p: Principal) {
    StartsWith(p.id, "agt_") || StartsWith(p.id, "agent_")
  }

  /** The dependency that guards approve and reject. */
  predicate MayDecide(p: Principal) {
    !IsAgent(p) && (p.isSystem || p.roles * {HasTier1, HasTier2, HasTier3, SystemAdmin, Operator} != {})
  }

  /** The dependency that guards dispatch. */
  predicate MayDispatch(p: Principal) {
    p.isSystem || p.roles * {SystemAdmin, PlatformAdmin, Operator} != {}
  }

  function RequiredLevel(t: Tier): nat {
    match t case Tier1 => 1 case Tier2 => 2 case Tier3 => 3 case UnknownTier => 1
  }

  function Level(p: Principal): nat {
    if p.isSystem || SystemAdmin in p.roles || HasTier3 in p.roles then 3
    else if HasTier2 in p.roles then 2
    else if HasTier1 in p.roles || Operator in p.roles || Admin in p.roles then 1
    else 0
  }

  predicate OverLimit(level: nat, cost: real) {
    (level == 1 && cost > 250.0) || (level == 2 && cost > 1000.0) || (level == 3 && cost > 10000.0)
  }

  // ---------------------------------------------------------------- shared state

  datatype Phase = AwaitingGateway | AwaitingLedger

  /** A dispatch handler suspended at an await. */
  datatype Flight = Flight(approval: string, tenant: string, key: string, phase: Phase)

  datatype StatusWrite = StatusWrite(id: string, from: Status, to: Status)

  datatype GrantRequest = GrantRequest(id: string, tenant: string, principal: Principal, expected: Option<string>,
                                       now: int)

  /** `killed` is the answer of the kill switch to this request. */
  datatype DispatchRequest = DispatchRequest(handle: nat, id: string, tenant: string, key: string, principal: Principal,
                                             killed: bool, now: int)

  /** What the gateway is asked to do, under which key, and on whose request. */
  datatype GatewayCall = GatewayCall(approval: string, tenant: string, key: string,
                                     action: string, targets: seq<string>, payload: string, digest: string,
                                     request: DispatchRequest)

  /** `calls`, `writes` and `signatures` record the history; no handler reads them. */
  datatype State = State(
    cache: map<string, Record>,
    intents: map<(string, string), string>,
    flights: map<nat, Flight>,
    calls: seq<GatewayCall>,
    writes: seq<StatusWrite>,
    signatures: map<string, GrantRequest>)

  const INITIAL := State(map[], map[], map[], [], [], map[])

  datatype Response =
    | Created | Granted | RejectedOk | NotFound | Forbidden | Conflict | Gone | Unavailable
    | Suspended | BadGateway | NoGateway | Malformed | Executing(approval: string) | Dropped

  function WriteStatus(s: State, id: string, to: Status): State
    requires id in s.cache
  {
    s.(cache := s.cache[id := s.cache[id].(status := to)],
      writes := s.writes + [StatusWrite(id, s.cache[id].status, to)])
  }

  // ---------------------------------------------------------------- events and steps

  datatype CreateRequest = CreateRequest(id: string, tenant: string, principal: Principal, action: string,
                                         targets: seq<string>, payload: string, cost: real, tier: Tier, now: int)

  datatype Event =
    | Create(create: CreateRequest)
    | Grant(grant: GrantRequest)
    | Reject(id: string, tenant: string, principal: Principal)
    | Begin(dispatch: DispatchRequest)
    | GatewayReturns(handle: nat, ok: bool)
    | LedgerReturns(handle: nat)
    | Abandon(handle: nat)

  function ArtifactOf(r: CreateRequest): Artifact {
    Artifact(r.tenant, r.action, r.targets, r.payload, POLICY, r.tier, r.now + DAY, r.principal.id)
  }

  function NewRecord(cfg: Config, r: CreateRequest): Record {
    Record(r.tenant, Pending, r.now + DAY, r.principal.id, r.tier, r.cost, r.action, r.targets, r.payload,
           cfg.hash(ArtifactOf(r)), cfg.policyDigest, Some(ArtifactOf(r)), None)
  }

  function GrantStep(s: State, r: GrantRequest): (State, Response) {
    if !MayDecide(r.principal) then (s, Forbidden)
    else if r.id !in s.cache then (s, NotFound)
    else
      var rec := s.cache[r.id];
      if rec.tenant != "" && rec.tenant != r.tenant then (s, Forbidden)
      else if rec.status != Pending then (s, Conflict)
      else if r.now >= rec.expiry then (WriteStatus(s, r.id, Expired), Gone)
      else if rec.requester != "" && rec.requester == r.principal.id then (s, Forbidden)
      else if Level(r.principal) < RequiredLevel(rec.tier) then (s, Forbidden)
      else if OverLimit(Level(r.principal), rec.cost) then (s, Forbidden)
      else if r.expected.Some? && r.expected.value != rec.digest then (s, Conflict)
      else
        var t := WriteStatus(s, r.id, Approved);
        (t.(cache := t.cache[r.id := t.cache[r.id].(approver := Some(r.principal.id))],
            signatures := s.signatures[r.id := r]), Granted)
  }

  /** A rejection compares no tenants, unlike a grant or a dispatch. */
  function RejectStep(s: State, id: string, p: Principal): (State, Response) {
    if !MayDecide(p) then (s, Forbidden)
    else if id !in s.cache then (s, RejectedOk)
    else if !ValidTransition(s.cache[id].status, Rejected) then (s, Conflict)
    else (WriteStatus(s, id, Rejected), RejectedOk)
  }

  function CallOf(r: DispatchRequest, rec: Record): GatewayCall {
    GatewayCall(r.id, r.tenant, r.key, rec.action, rec.targets, rec.payload, rec.digest, r)
  }

  /**
   * From the kill-switch answer to the call of the gateway: no suspension in between. The gateway is looked up, and the
   * request for it validated, after the record is marked; what fails there leaves it DISPATCHING and calls nobody.
   */
  function BeginStep(cfg: Config, s: State, r: DispatchRequest): (State, Response) {
    if !MayDispatch(r.principal) then (s, Forbidden)
    else if r.killed then (s, Unavailable)
    else if (r.tenant, r.key) in s.intents then
      (s, if s.intents[(r.tenant, r.key)] != r.id then Conflict else Executing(r.id))
    else if r.id !in s.cache then (s, NotFound)
    else
      var rec := s.cache[r.id];
      if rec.status != Approved then (s, Conflict)
      else if rec.tenant != "" && rec.tenant != r.tenant then (s, Forbidden)
      else if r.now >= rec.expiry then (WriteStatus(s, r.id, Expired), Gone)
      else if rec.digest == "" then (s, Conflict)
      else if rec.artifact.Some? && cfg.hash(rec.artifact.value) != rec.digest then (s, Conflict)
      else if rec.policyDigest != "" && rec.policyDigest != cfg.policyDigest then (s, Conflict)
      else
        var t := WriteStatus(s, r.id, Dispatching);
        if !GatewayAtHand(cfg) then (t, NoGateway)
        else if r.key == "" || rec.action == "" then (t, Malformed)
        else
          (t.(calls := s.calls + [CallOf(r, rec)],
              flights := s.flights[r.handle := Flight(r.id, r.tenant, r.key, AwaitingGateway)]), Suspended)
  }

  function GatewayStep(s: State, h: nat, ok: bool): (State, Response)
    requires h in s.flights && s.flights[h].approval in s.cache
  {
    var f := s.flights[h];
    if !ok then (WriteStatus(s, f.approval, ProviderFailed).(flights := s.flights - {h}), BadGateway)
    else (WriteStatus(s, f.approval, Succeeded).(flights := s.flights[h := f.(phase := AwaitingLedger)]), Suspended)
  }

  function LedgerStep(s: State, h: nat): (State, Response)
    requires h in s.flights
  {
    var f := s.flights[h];
    (s.(flights := s.flights - {h}, intents := s.intents[(f.tenant, f.key) := f.approval]), Executing(f.approval))
  }

  /** What can happen next: new ids and handles are fresh, and a handler resumes where it was suspended. */
  predicate Enabled(s: State, e: Event) {
    match e
    case Create(r) => r.id !in s.cache
    case Begin(r) => r.handle !in s.flights
    case GatewayReturns(h, _) => h in s.flights && s.flights[h].phase == AwaitingGateway
      && s.flights[h].approval in s.cache
    case LedgerReturns(h) => h in s.flights && s.flights[h].phase == AwaitingLedger
    case Abandon(h) => h in s.flights
    case _ => true
  }

  function Step(cfg: Config, s: State, e: Event): (State, Response)
    requires Enabled(s, e)
  {
    match e
    case Create(r) => (s.(cache := s.cache[r.id := NewRecord(cfg, r)]), Created)
    case Grant(r) => GrantStep(s, r)
    case Reject(id, _, p) => RejectStep(s, id, p)
    case Begin(r) => BeginStep(cfg, s, r)
    case GatewayReturns(h, ok) => GatewayStep(s, h, ok)
    case LedgerReturns(h) => LedgerStep(s, h)
    case Abandon(h) => (s.(flights := s.flights - {h}), Dropped)
  }

  // ---------------------------------------------------------------- the handlers

  /** The router's application state; each method is a handler, or the part of one between two awaits. */
  class Router {
    const cfg: Config
    var cache: map<string, Record>
    var intents: map<(string, string), string>
    var flights: map<nat, Flight>
    ghost var calls: seq<GatewayCall>
    ghost var writes: seq<StatusWrite>
    ghost var signatures: map<string, GrantRequest>

    ghost function View(): State
      reads this
    {
      State(cache, intents, flights, calls, writes, signatures)
    }

    constructor (cfg: Config)
      ensures this.cfg == cfg && View() == INITIAL
    {
      this.cfg := cfg;
      cache, intents, flights := map[], map[], map[];
      calls, writes, signatures := [], [], map[];
    }

    method SetStatus(id: string, to: Status)
      requires id in cache
      modifies this`cache, this`writes
      ensures View() == WriteStatus(old(View()), id, to)
    {
      writes := writes + [StatusWrite(id, cache[id].status, to)];
      cache := cache[id := cache[id].(status := to)];
    }

    method CreateApproval(r: CreateRequest) returns (resp: Response)
      requires r.id !in cache
      modifies this
      ensures (View(), resp) == Step(cfg, old(View()), Create(r))
    {
      var artifact := ArtifactOf(r);
      var digest := cfg.hash(artifact);
      cache := cache[r.id := Record(r.tenant, Pending, r.now + DAY, r.principal.id, r.tier, r.cost,
                                    r.action, r.targets, r.payload, digest, cfg.policyDigest, Some(artifact), None)];
      resp := Created;
    }

    method GrantApproval(r: GrantRequest) returns (resp: Response)
      modifies this
      ensures (View(), resp) == Step(cfg, old(View()), Grant(r))
    {
      if !MayDecide(r.principal) { return Forbidden; }
      if r.id !in cache { return NotFound; }
      var rec := cache[r.id];
      if rec.tenant != "" && rec.tenant != r.tenant { return Forbidden; }
      if rec.status != Pending { return Conflict; }
      if r.now >= rec.expiry {
        SetStatus(r.id, Expired);
        return Gone;
      }
      if rec.requester != "" && rec.requester == r.principal.id { return Forbidden; }
      var level := Level(r.principal);
      if level < RequiredLevel(rec.tier) { return Forbidden; }
      if level == 1 && rec.cost > 250.0 { return Forbidden; }
      if level == 2 && rec.cost > 1000.0 { return Forbidden; }
      if level == 3 && rec.cost > 10000.0 { return Forbidden; }
      if r.expected.Some? && rec.digest != r.expected.value { return Conflict; }
      SetStatus(r.id, Approved);
      cache := cache[r.id := cache[r.id].(approver := Some(r.principal.id))];
      signatures := signatures[r.id := r];
      resp := Granted;
    }

    method RejectApproval(id: string, tenant: string, p: Principal) returns (resp: Response)
      modifies this
      ensures (View(), resp) == Step(cfg, old(View()), Reject(id, tenant, p))
    {
      if !MayDecide(p) { return Forbidden; }
      var current := if id in cache then cache[id].status else Pending;
      if !ValidTransition(current, Rejected) { return Conflict; }
      if id in cache {
        SetStatus(id, Rejected);
      }
      resp := RejectedOk;
    }

    method BeginDispatch(r: DispatchRequest) returns (resp: Response)
      requires r.handle !in flights
      modifies this
      ensures (View(), resp) == Step(cfg, old(View()), Begin(r))
    {
      if !MayDispatch(r.principal) { return Forbidden; }
      if r.killed { return Unavailable; }
      var slot := (r.tenant, r.key);
      if slot in intents {
        if intents[slot] != r.id { return Conflict; }
        return Executing(r.id);
      }
      if r.id !in cache { return NotFound; }
      var rec := cache[r.id];
      if rec.status != Approved { return Conflict; }
      if rec.tenant != "" && rec.tenant != r.tenant { return Forbidden; }
      if r.now >= rec.expiry {
        SetStatus(r.id, Expired);
        return Gone;
      }
      if rec.digest == "" { return Conflict; }
      if rec.artifact.Some? {
        var computed := cfg.hash(rec.artifact.value);
        if computed != rec.digest { return Conflict; }
      }
      if rec.policyDigest != "" && rec.policyDigest != cfg.policyDigest { return Conflict; }
      SetStatus(r.id, Dispatching);
      if !GatewayAtHand(cfg) { return NoGateway; }
      if r.key == "" || rec.action == "" { return Malformed; }
      calls := calls + [CallOf(r, rec)];
      flights := flights[r.handle := Flight(r.id, r.tenant, r.key, AwaitingGateway)];
      resp := Suspended;
    }

    method ResumeAfterGateway(h: nat, ok: bool) returns (resp: Response)
      requires Enabled(View(), GatewayReturns(h, ok))
      modifies this
      ensures (View(), resp) == Step(cfg, old(View()), GatewayReturns(h, ok))
    {
      var f := flights[h];
      if !ok {
        SetStatus(f.approval, ProviderFailed);
        flights := flights - {h};
        return BadGateway;
      }
      SetStatus(f.approval, Succeeded);
      flights := flights[h := f.(phase := AwaitingLedger)];
      resp := Suspended;
    }

    method ResumeAfterLedger(h: nat) returns (resp: Response)
      requires Enabled(View(), LedgerReturns(h))
      modifies this
      ensures (View(), resp) == Step(cfg, old(View()), LedgerReturns(h))
    {
      var f := flights[h];
      intents := intents[(f.tenant, f.key) := f.approval];
      flights := flights - {h};
      resp := Executing(f.approval);
    }
  }

  // ---------------------------------------------------------------- every run

  /** Runs are sequences of events in any interleaving of the handlers. */
  ghost predicate Runnable(cfg: Config, s: State, es: seq<Event>)
    decreases |es|
  {
    es == [] || (Enabled(s, es[0]) && Runnable(cfg, Step(cfg, s, es[0]).0, es[1..]))
  }

  ghost function Run(cfg: Config, s: State, es: seq<Event>): State
    requires Runnable(cfg, s, es)
    decreases |es|
  {
    if es == [] then s else Run(cfg, Step(cfg, s, es[0]).0, es[1..])
  }

  function Rank(s: Status): nat {
    match s case Pending => 3 case Approved => 2 case Dispatching => 1 case _ => 0
  }

  ghost function WritesOf(ws: seq<StatusWrite>, id: string): nat {
    if ws == [] then 0 else WritesOf(ws[..|ws|-1], id) + if ws[|ws|-1].id == id then 1 else 0
  }

  predicate Signed(st: Status) {
    st.Approved? || st.Dispatching? || st.Succeeded? || st.ProviderFailed?
  }

  /** What a signature guarantees about a record. */
  predicate ProperlySigned(rec: Record, g: GrantRequest) {
    var p := g.principal;
    && rec.approver == Some(p.id) && !IsAgent(p)
    && (rec.requester != "" ==> p.id != rec.requester)
    && 1 <= RequiredLevel(rec.tier) <= Level(p) <= 3
    && !OverLimit(Level(p), rec.cost)
    && (rec.tenant != "" ==> g.tenant == rec.tenant)
    && g.now < rec.expiry
    && (g.expected.Some? ==> g.expected.value == rec.digest)
  }

  /** The record acts on what its artifact seals. */
  ghost predicate Sealed(cfg: Config, rec: Record) {
    && rec.artifact.Some? && rec.digest == cfg.hash(rec.artifact.value)
    && rec.artifact.value.action == rec.action && rec.artifact.value.targets == rec.targets
    && rec.artifact.value.payload == rec.payload && rec.artifact.value.tenant == rec.tenant
  }

  ghost predicate WritesAreEdges(s: State) {
    forall k :: 0 <= k < |s.writes| ==> ValidTransition(s.writes[k].from, s.writes[k].to)
  }

  /** A record's remaining rank accounts for the status writes it has seen. */
  ghost predicate WritesBounded(s: State) {
    && (forall id :: id in s.cache ==> WritesOf(s.writes, id) + Rank(s.cache[id].status) <= 3)
    && (forall id :: id !in s.cache ==> WritesOf(s.writes, id) == 0)
  }

  predicate AtGateway(s: State, h: nat)
    requires h in s.flights
  {
    s.flights[h].phase == AwaitingGateway
  }

  ghost predicate FlightsHoldTheirRecord(s: State) {
    && (forall h :: h in s.flights ==> s.flights[h].approval in s.cache)
    && (forall h :: h in s.flights && AtGateway(s, h) ==> s.cache[s.flights[h].approval].status == Dispatching)
    && (forall h, k :: h in s.flights && k in s.flights && h != k && AtGateway(s, h) && AtGateway(s, k) ==>
      s.flights[h].approval != s.flights[k].approval)
  }

  /** The call was made for this record, which has left APPROVED behind. */
  predicate CallHolds(s: State, c: GatewayCall) {
    c.approval in s.cache &&
    var rec := s.cache[c.approval];
    && (rec.status.Dispatching? || Terminal(rec.status))
    && c.action == rec.action && c.targets == rec.targets && c.payload == rec.payload && c.digest == rec.digest
    && (rec.tenant != "" ==> c.tenant == rec.tenant)
  }

  ghost predicate CallsOnce(s: State) {
    && (forall i, j :: 0 <= i < j < |s.calls| ==> s.calls[i].approval != s.calls[j].approval)
    && (forall i :: 0 <= i < |s.calls| ==> CallHolds(s, s.calls[i]))
  }

  ghost predicate SignaturesHold(cfg: Config, s: State) {
    && (forall id :: id in s.cache ==> Sealed(cfg, s.cache[id]))
    && (forall id :: id in s.cache && Signed(s.cache[id].status) ==>
        id in s.signatures && ProperlySigned(s.cache[id], s.signatures[id]))
  }

  ghost predicate Inv(cfg: Config, s: State) {
    WritesAreEdges(s) && WritesBounded(s) && FlightsHoldTheirRecord(s) && CallsOnce(s) && SignaturesHold(cfg, s)
  }

  lemma WritesOfAppend(ws: seq<StatusWrite>, w: StatusWrite, id: string)
    ensures WritesOf(ws + [w], id) == WritesOf(ws, id) + if w.id == id then 1 else 0
  {
    assert (ws + [w])[..|ws|] == ws;
  }

  /** An edge of the table uses up rank. */
  lemma WriteKeepsBounds(s: State, id: string, to: Status)
    requires WritesAreEdges(s) && WritesBounded(s) && id in s.cache && ValidTransition(s.cache[id].status, to)
    ensures WritesAreEdges(WriteStatus(s, id, to)) && WritesBounded(WriteStatus(s, id, to))
  {
    EdgeUsesRank(s.cache[id].status, to);
    hide WritesOf, Rank, ValidTransition;
    var t := WriteStatus(s, id, to);
    forall k ensures WritesOf(t.writes, k) == WritesOf(s.writes, k) + if k == id then 1 else 0 {
      WritesOfAppend(s.writes, StatusWrite(id, s.cache[id].status, to), k);
    }
    assert WritesBounded(t);
    hide WritesBounded;
    forall k | 0 <= k < |t.writes| ensures ValidTransition(t.writes[k].from, t.writes[k].to) {
      assert k < |s.writes| ==> t.writes[k] == s.writes[k];
    }
  }

  lemma EdgeUsesRank(from: Status, to: Status)
    requires ValidTransition(from, to)
    ensures Rank(to) + 1 <= Rank(from)
  {
  }

  lemma WriteKeepsFlights(s: State, id: string, to: Status)
    requires FlightsHoldTheirRecord(s) && id in s.cache && s.cache[id].status != Dispatching
    ensures FlightsHoldTheirRecord(WriteStatus(s, id, to))
  {
  }

  lemma WriteKeepsCalls(s: State, id: string, to: Status)
    requires CallsOnce(s) && id in s.cache && ValidTransition(s.cache[id].status, to)
    ensures CallsOnce(WriteStatus(s, id, to))
  {
    hide Terminal;
    assert Terminal(s.cache[id].status) || s.cache[id].status.Dispatching? ==> Terminal(to) by {
      NoWayBack(s.cache[id].status, to);
    }
    var t := WriteStatus(s, id, to);
    forall i | 0 <= i < |t.calls| ensures CallHolds(t, t.calls[i]) {
      assert CallHolds(s, s.calls[i]);
    }
  }

  lemma NoWayBack(from: Status, to: Status)
    requires ValidTransition(from, to)
    ensures !Terminal(from) && (from.Dispatching? ==> Terminal(to))
  {
  }

  lemma WriteKeepsSignatures(cfg: Config, s: State, id: string, to: Status)
    requires SignaturesHold(cfg, s) && id in s.cache && (Signed(to) ==> Signed(s.cache[id].status))
    ensures SignaturesHold(cfg, WriteStatus(s, id, to))
  {
  }

  /** Any edge out of a state that no gateway call waits on keeps everything, unless it is the signature itself. */
  lemma WriteKeepsInv(cfg: Config, s: State, id: string, to: Status)
    requires Inv(cfg, s) && id in s.cache && s.cache[id].status != Dispatching
      && ValidTransition(s.cache[id].status, to)
    requires Signed(to) ==> Signed(s.cache[id].status)
    ensures Inv(cfg, WriteStatus(s, id, to))
  {
    hide WriteStatus, WritesAreEdges, WritesBounded, FlightsHoldTheirRecord, CallsOnce, SignaturesHold;
    WriteKeepsBounds(s, id, to);
    WriteKeepsFlights(s, id, to);
    WriteKeepsCalls(s, id, to);
    WriteKeepsSignatures(cfg, s, id, to);
  }

  /** The signature: all seven checks have passed. */
  lemma SignKeepsInv(cfg: Config, s: State, id: string, g: GrantRequest)
    requires Inv(cfg, s) && id in s.cache && s.cache[id].status == Pending
    requires ProperlySigned(s.cache[id].(approver := Some(g.principal.id)), g)
    ensures var t := WriteStatus(s, id, Approved);
      Inv(cfg, t.(cache := t.cache[id := t.cache[id].(approver := Some(g.principal.id))],
        signatures := s.signatures[id := g]))
  {
    hide ValidTransition, ProperlySigned, WritesAreEdges, WritesBounded, CallsOnce;
    hide FlightsHoldTheirRecord, SignaturesHold;
    var t := WriteStatus(s, id, Approved);
    assert WritesAreEdges(t) && WritesBounded(t) && CallsOnce(t) by {
      assert ValidTransition(Pending, Approved) by { PendingEdges(); }
      WriteKeepsBounds(s, id, Approved);
      WriteKeepsCalls(s, id, Approved);
    }
    assert FlightsHoldTheirRecord(t) by { WriteKeepsFlights(s, id, Approved); }
    var u := t.(cache := t.cache[id := t.cache[id].(approver := Some(g.principal.id))],
      signatures := s.signatures[id := g]);
    StatusOnlyInvariants(t, u);
    SignKeepsSignatures(cfg, s, id, g);
  }

  lemma PendingEdges()
    ensures ValidTransition(Pending, Approved) && ValidTransition(Pending, Rejected)
      && ValidTransition(Pending, Expired)
  {
  }

  /** Four of the five invariants look only at the statuses of the cached records. */
  lemma StatusOnlyInvariants(t: State, u: State)
    requires WritesAreEdges(t) && WritesBounded(t) && CallsOnce(t) && FlightsHoldTheirRecord(t)
    requires u.writes == t.writes && u.calls == t.calls && u.flights == t.flights && u.cache.Keys == t.cache.Keys
    requires forall k :: k in t.cache ==> u.cache[k].(approver := t.cache[k].approver) == t.cache[k]
    ensures WritesAreEdges(u) && WritesBounded(u) && CallsOnce(u) && FlightsHoldTheirRecord(u)
  {
    hide ValidTransition, Terminal, Rank;
    forall k | k in t.cache ensures u.cache[k].status == t.cache[k].status {
      assert u.cache[k].(approver := t.cache[k].approver).status == t.cache[k].status;
    }
    hide WritesOf;
    forall i | 0 <= i < |u.calls| ensures CallHolds(u, u.calls[i]) {
      assert CallHolds(t, t.calls[i]);
      SameCall(t, u, t.calls[i]);
    }
  }

  lemma SameCall(t: State, u: State, c: GatewayCall)
    requires CallHolds(t, c) && c.approval in u.cache
    requires u.cache[c.approval].(approver := t.cache[c.approval].approver) == t.cache[c.approval]
    ensures CallHolds(u, c)
  {
  }

  lemma SignKeepsSignatures(cfg: Config, s: State, id: string, g: GrantRequest)
    requires SignaturesHold(cfg, s) && id in s.cache && s.cache[id].status == Pending
    requires ProperlySigned(s.cache[id].(approver := Some(g.principal.id)), g)
    ensures var t := WriteStatus(s, id, Approved);
      SignaturesHold(cfg, t.(cache := t.cache[id := t.cache[id].(approver := Some(g.principal.id))],
        signatures := s.signatures[id := g]))
  {
  }

  lemma GrantKeepsInv(cfg: Config, s: State, r: GrantRequest)
    requires Inv(cfg, s)
    ensures Inv(cfg, GrantStep(s, r).0)
  {
    hide Inv, WriteStatus;
    if r.id in s.cache && s.cache[r.id].status == Pending {
      if GrantStep(s, r).1 == Gone {
        WriteKeepsInv(cfg, s, r.id, Expired);
      } else if GrantStep(s, r).1 == Granted {
        SignKeepsInv(cfg, s, r.id, r);
      }
    }
  }

  lemma RejectKeepsInv(cfg: Config, s: State, id: string, p: Principal)
    requires Inv(cfg, s)
    ensures Inv(cfg, RejectStep(s, id, p).0)
  {
    hide Inv, WriteStatus;
    if id in s.cache && ValidTransition(s.cache[id].status, Rejected) {
      WriteKeepsInv(cfg, s, id, Rejected);
    }
  }

  /** The gateway is called for a record that no other handler holds. */
  lemma TakeOff(cfg: Config, s: State, id: string, h: nat, f: Flight, c: GatewayCall)
    requires Inv(cfg, s) && id in s.cache && s.cache[id].status == Approved && h !in s.flights
    requires f.approval == id && f.phase == AwaitingGateway && c.approval == id
    requires CallHolds(s.(cache := s.cache[id := s.cache[id].(status := Dispatching)]), c)
    ensures Inv(cfg, WriteStatus(s, id, Dispatching).(calls := s.calls + [c], flights := s.flights[h := f]))
  {
    var t := WriteStatus(s, id, Dispatching);
    WriteKeepsInv(cfg, s, id, Dispatching);
    var u := t.(calls := s.calls + [c], flights := s.flights[h := f]);
    NewFlight(s, id, h, f);
    NewCall(s, t, c);
    hide CallsOnce, FlightsHoldTheirRecord, WriteStatus, CallHolds;
    OnlyFlown(cfg, t, u);
  }

  lemma NewCall(s: State, t: State, c: GatewayCall)
    requires CallsOnce(s) && CallsOnce(t) && t.calls == s.calls && CallHolds(t, c)
    requires c.approval in s.cache && s.cache[c.approval].status == Approved
    ensures forall u: State :: u.cache == t.cache && u.calls == t.calls + [c] ==> CallsOnce(u)
  {
    forall i | 0 <= i < |s.calls| ensures s.calls[i].approval != c.approval {
      assert CallHolds(s, s.calls[i]);
    }
    forall u: State, i | u.cache == t.cache && u.calls == t.calls + [c] && 0 <= i < |u.calls|
      ensures CallHolds(u, u.calls[i])
    {
      if i < |t.calls| { assert CallHolds(t, t.calls[i]); }
    }
  }

  /** Books that look neither at calls nor at flights. */
  lemma OnlyFlown(cfg: Config, t: State, u: State)
    requires u == t.(calls := u.calls, flights := u.flights)
    requires WritesAreEdges(t) && WritesBounded(t) && SignaturesHold(cfg, t)
    ensures WritesAreEdges(u) && WritesBounded(u) && SignaturesHold(cfg, u)
  {
  }

  lemma NewFlight(s: State, id: string, h: nat, f: Flight)
    requires FlightsHoldTheirRecord(s) && id in s.cache && s.cache[id].status == Approved && h !in s.flights
    requires f.approval == id && f.phase == AwaitingGateway
    ensures forall u: State :: u.cache == WriteStatus(s, id, Dispatching).cache && u.flights == s.flights[h := f] ==>
      FlightsHoldTheirRecord(u)
  {
    assert forall k :: k in s.flights && AtGateway(s, k) ==> s.flights[k].approval != id;
  }

  /** The record was marked, and then no gateway was at hand, or the request for it could not be built. */
  predicate Stuck(answer: Response) {
    answer.NoGateway? || answer.Malformed?
  }

  lemma BeginKeepsInv(cfg: Config, s: State, r: DispatchRequest)
    requires Inv(cfg, s) && r.handle !in s.flights
    ensures Inv(cfg, BeginStep(cfg, s, r).0)
  {
    hide Inv, WriteStatus;
    if r.id in s.cache && s.cache[r.id].status == Approved {
      if BeginStep(cfg, s, r).1 == Gone {
        WriteKeepsInv(cfg, s, r.id, Expired);
      } else if BeginStep(cfg, s, r).1 == Suspended {
        TakeOff(cfg, s, r.id, r.handle, Flight(r.id, r.tenant, r.key, AwaitingGateway), CallOf(r, s.cache[r.id]));
      } else if Stuck(BeginStep(cfg, s, r).1) {
        WriteKeepsInv(cfg, s, r.id, Dispatching);
      }
    }
  }

  lemma GatewayKeepsInv(cfg: Config, s: State, h: nat, ok: bool)
    requires Inv(cfg, s) && Enabled(s, GatewayReturns(h, ok))
    ensures Inv(cfg, GatewayStep(s, h, ok).0)
  {
    var f := s.flights[h];
    var to := if ok then Succeeded else ProviderFailed;
    var t := WriteStatus(s, f.approval, to);
    assert WritesAreEdges(t) && WritesBounded(t) by {
      hide FlightsHoldTheirRecord, CallsOnce, SignaturesHold;
      HeldRecord(s, h);
      WriteKeepsBounds(s, f.approval, to);
    }
    assert CallsOnce(t) by { HeldRecord(s, h); WriteKeepsCalls(s, f.approval, to); }
    assert SignaturesHold(cfg, t) by { HeldRecord(s, h); WriteKeepsSignatures(cfg, s, f.approval, to); }
    Landing(s, h, to);
    hide WritesAreEdges, WritesBounded, FlightsHoldTheirRecord, CallsOnce, SignaturesHold, WriteStatus;
    SameBooks(cfg, t, GatewayStep(s, h, ok).0);
  }

  lemma SameBooks(cfg: Config, t: State, u: State)
    requires u == t.(flights := u.flights) && WritesAreEdges(t) && WritesBounded(t) && CallsOnce(t)
      && SignaturesHold(cfg, t)
    ensures WritesAreEdges(u) && WritesBounded(u) && CallsOnce(u) && SignaturesHold(cfg, u)
  {
  }

  /** When a handler resumes from the gateway its record is still the one it left: DISPATCHING. */
  lemma HeldRecord(s: State, h: nat)
    requires FlightsHoldTheirRecord(s) && h in s.flights && AtGateway(s, h)
    ensures s.flights[h].approval in s.cache && s.cache[s.flights[h].approval].status == Dispatching
  {
  }

  lemma Landing(s: State, h: nat, to: Status)
    requires FlightsHoldTheirRecord(s) && h in s.flights && AtGateway(s, h)
    ensures FlightsHoldTheirRecord(WriteStatus(s, s.flights[h].approval, to).(flights := s.flights - {h}))
    ensures var t := WriteStatus(s, s.flights[h].approval, to);
      FlightsHoldTheirRecord(t.(flights := s.flights[h := s.flights[h].(phase := AwaitingLedger)]))
  {
    var id := s.flights[h].approval;
    assert forall k :: k in s.flights && k != h && AtGateway(s, k) ==> s.flights[k].approval != id;
  }

  lemma CreateKeepsInv(cfg: Config, s: State, r: CreateRequest)
    requires Inv(cfg, s) && r.id !in s.cache
    ensures Inv(cfg, Step(cfg, s, Create(r)).0)
  {
    var t := Step(cfg, s, Create(r)).0;
    assert t.cache == s.cache[r.id := NewRecord(cfg, r)] && Sealed(cfg, NewRecord(cfg, r));
    CreateKeepsCalls(s, t, r.id);
    CreateKeepsBooks(cfg, s, t, r.id);
    hide Inv, Step;
    hide WritesAreEdges, WritesBounded, FlightsHoldTheirRecord, CallsOnce, SignaturesHold;
    assert Inv(cfg, t) by { InvParts(cfg, t); }
  }

  lemma InvParts(cfg: Config, t: State)
    requires WritesAreEdges(t) && WritesBounded(t) && FlightsHoldTheirRecord(t) && CallsOnce(t)
      && SignaturesHold(cfg, t)
    ensures Inv(cfg, t)
  {
    hide WritesAreEdges, WritesBounded, FlightsHoldTheirRecord, CallsOnce, SignaturesHold;
  }

  lemma CreateKeepsBooks(cfg: Config, s: State, t: State, id: string)
    requires WritesAreEdges(s) && WritesBounded(s) && FlightsHoldTheirRecord(s) && SignaturesHold(cfg, s)
      && id !in s.cache
    requires t == s.(cache := t.cache) && id in t.cache && t.cache == s.cache[id := t.cache[id]]
    requires t.cache[id].status == Pending && Sealed(cfg, t.cache[id])
    ensures WritesAreEdges(t) && WritesBounded(t) && FlightsHoldTheirRecord(t) && SignaturesHold(cfg, t)
  {
    hide WritesOf, ProperlySigned, Sealed;
  }

  lemma CreateKeepsCalls(s: State, t: State, id: string)
    requires CallsOnce(s) && id !in s.cache && t.calls == s.calls
    requires forall k :: k in s.cache ==> k in t.cache && t.cache[k] == s.cache[k]
    ensures CallsOnce(t)
  {
    forall i | 0 <= i < |t.calls| ensures CallHolds(t, t.calls[i]) {
      assert CallHolds(s, s.calls[i]);
    }
  }

  /** Handlers that only let go of their flight. */
  lemma LandingKeepsInv(cfg: Config, s: State, h: nat)
    requires Inv(cfg, s) && (Enabled(s, LedgerReturns(h)) || Enabled(s, Abandon(h)))
    ensures Enabled(s, LedgerReturns(h)) ==> Inv(cfg, LedgerStep(s, h).0)
    ensures Inv(cfg, s.(flights := s.flights - {h}))
  {
    var t := s.(flights := s.flights - {h});
    FewerFlights(s, h);
    hide FlightsHoldTheirRecord, WritesAreEdges, WritesBounded, CallsOnce, SignaturesHold;
    SameBooks(cfg, s, t);
    InvParts(cfg, t);
    hide Inv;
    SameBut(cfg, t, LedgerStep(s, h).0);
  }

  lemma FewerFlights(s: State, h: nat)
    requires FlightsHoldTheirRecord(s)
    ensures FlightsHoldTheirRecord(s.(flights := s.flights - {h}))
  {
  }

  /** The answers under the keys are on no other book. */
  lemma SameBut(cfg: Config, t: State, u: State)
    requires Inv(cfg, t) && u == t.(intents := u.intents)
    ensures Inv(cfg, u)
  {
  }

  lemma StepKeepsInv(cfg: Config, s: State, e: Event)
    requires Inv(cfg, s) && Enabled(s, e)
    ensures Inv(cfg, Step(cfg, s, e).0)
  {
    hide Inv, GrantStep, RejectStep, BeginStep, GatewayStep, LedgerStep;
    match e
    case Create(r) => CreateKeepsInv(cfg, s, r);
    case Grant(r) => GrantKeepsInv(cfg, s, r);
    case Reject(id, _, p) => RejectKeepsInv(cfg, s, id, p);
    case Begin(r) => BeginKeepsInv(cfg, s, r);
    case GatewayReturns(h, ok) => GatewayKeepsInv(cfg, s, h, ok);
    case LedgerReturns(h) => LandingKeepsInv(cfg, s, h);
    case Abandon(h) => LandingKeepsInv(cfg, s, h);
  }

  lemma {:induction false} RunKeepsInv(cfg: Config, s: State, es: seq<Event>)
    requires Inv(cfg, s) && Runnable(cfg, s, es)
    ensures Inv(cfg, Run(cfg, s, es))
    decreases |es|
  {
    if es != [] {
      StepKeepsInv(cfg, s, es[0]);
      RunKeepsInv(cfg, Step(cfg, s, es[0]).0, es[1..]);
    }
  }

  lemma ReachableInv(cfg: Config, es: seq<Event>)
    requires Runnable(cfg, INITIAL, es)
    ensures Inv(cfg, Run(cfg, INITIAL, es))
  {
    hide Run, Runnable;
    RunKeepsInv(cfg, INITIAL, es);
  }

  // ---------------------------------------------------------------- what every interleaving guarantees

  /** How many of the calls are for an approval. */
  ghost function CallsFor(calls: seq<GatewayCall>, id: string): nat {
    if calls == [] then 0 else CallsFor(calls[..|calls|-1], id) + if calls[|calls|-1].approval == id then 1 else 0
  }

  /** The gateway is invoked at most once per approval. */
  lemma GatewayAtMostOnce(cfg: Config, es: seq<Event>, id: string)
    requires Runnable(cfg, INITIAL, es)
    ensures CallsFor(Run(cfg, INITIAL, es).calls, id) <= 1
    ensures var calls := Run(cfg, INITIAL, es).calls;
      forall i, j :: 0 <= i < j < |calls| ==> calls[i].approval != calls[j].approval
  {
    hide Run, Runnable, WritesBounded, FlightsHoldTheirRecord, SignaturesHold, WritesAreEdges;
    ReachableInv(cfg, es);
    CountOfDistinct(Run(cfg, INITIAL, es).calls, id);
  }

  lemma {:induction false} CountOfDistinct(calls: seq<GatewayCall>, id: string)
    requires forall i, j :: 0 <= i < j < |calls| ==> calls[i].approval != calls[j].approval
    ensures CallsFor(calls, id) <= 1
    ensures (forall i :: 0 <= i < |calls| ==> calls[i].approval != id) ==> CallsFor(calls, id) == 0
  {
    if calls != [] {
      CountOfDistinct(calls[..|calls|-1], id);
    }
  }

  /** What reaches the gateway is what the record's artifact seals, for the tenant it was created for. */
  lemma CallsCarrySealedArtifact(cfg: Config, es: seq<Event>, i: nat)
    requires Runnable(cfg, INITIAL, es) && i < |Run(cfg, INITIAL, es).calls|
    ensures var s := Run(cfg, INITIAL, es);
      var c := s.calls[i];
      && c.approval in s.cache && s.cache[c.approval].artifact.Some?
      && var a := s.cache[c.approval].artifact.value;
      && c.action == a.action && c.targets == a.targets && c.payload == a.payload && c.digest == cfg.hash(a)
      && (a.tenant != "" ==> c.tenant == a.tenant)
  {
    hide Run, Runnable, WritesBounded, FlightsHoldTheirRecord, WritesAreEdges;
    ReachableInv(cfg, es);
    var s := Run(cfg, INITIAL, es);
    assert CallHolds(s, s.calls[i]) && Sealed(cfg, s.cache[s.calls[i].approval]);
  }

  /**
   * A handler that waits for the gateway finds its record DISPATCHING when it resumes, and no other handler holds it.
   */
  lemma WaitingRecordIsDispatching(cfg: Config, es: seq<Event>, h: nat, k: nat)
    requires Runnable(cfg, INITIAL, es)
    requires var s := Run(cfg, INITIAL, es); h in s.flights && AtGateway(s, h)
    ensures var s := Run(cfg, INITIAL, es);
      s.flights[h].approval in s.cache && s.cache[s.flights[h].approval].status == Dispatching
    ensures var s := Run(cfg, INITIAL, es);
      k in s.flights && k != h && AtGateway(s, k) ==> s.flights[k].approval != s.flights[h].approval
  {
    hide Run, Runnable, WritesBounded, CallsOnce, SignaturesHold, WritesAreEdges;
    ReachableInv(cfg, es);
  }

  /** Every status write is an edge of the table, and a record sees at most three of them. */
  lemma StatusWritesFollowTable(cfg: Config, es: seq<Event>, id: string)
    requires Runnable(cfg, INITIAL, es)
    ensures var s := Run(cfg, INITIAL, es); WritesAreEdges(s) && WritesOf(s.writes, id) <= 3
  {
    hide Run, Runnable, FlightsHoldTheirRecord, CallsOnce, SignaturesHold, WritesAreEdges;
    ReachableInv(cfg, es);
  }

  /** Every record at or past APPROVED carries a signature that passed all checks, and its seal still matches. */
  lemma SignedRecordsAreProper(cfg: Config, es: seq<Event>, id: string)
    requires Runnable(cfg, INITIAL, es)
    requires id in Run(cfg, INITIAL, es).cache
    ensures var s := Run(cfg, INITIAL, es);
      && Sealed(cfg, s.cache[id])
      && (Signed(s.cache[id].status) ==> id in s.signatures && ProperlySigned(s.cache[id], s.signatures[id]))
  {
    hide Run, Runnable, WritesBounded, FlightsHoldTheirRecord, CallsOnce, WritesAreEdges, ProperlySigned, Sealed;
    ReachableInv(cfg, es);
  }

  /** The fields under the seal, which no handler may touch. */
  predicate SameTerms(a: Record, b: Record) {
    && a.tenant == b.tenant && a.expiry == b.expiry && a.requester == b.requester
    && a.tier == b.tier && a.cost == b.cost
    && a.action == b.action && a.targets == b.targets && a.payload == b.payload
    && a.digest == b.digest && a.policyDigest == b.policyDigest && a.artifact == b.artifact
  }

  lemma StepKeepsRecords(cfg: Config, s: State, e: Event, id: string)
    requires Inv(cfg, s) && Enabled(s, e) && id in s.cache
    ensures var t := Step(cfg, s, e).0;
      && id in t.cache && SameTerms(s.cache[id], t.cache[id])
      && (Terminal(s.cache[id].status) ==> t.cache[id] == s.cache[id])
      && (t.cache[id].status == s.cache[id].status || ValidTransition(s.cache[id].status, t.cache[id].status))
  {
    hide WritesBounded, CallsOnce, SignaturesHold, WritesAreEdges, FlightsHoldTheirRecord;
    match e
    case Grant(r) => GrantKeepsRecords(s, r, id);
    case Begin(r) => BeginKeepsRecords(cfg, s, r, id);
    case GatewayReturns(h, ok) => HeldRecord(s, h);
    case _ =>
  }

  /** What a grant can do to the cache. */
  lemma GrantOutcome(s: State, r: GrantRequest)
    ensures var t := GrantStep(s, r).0;
      t == s || (r.id in s.cache && s.cache[r.id].status == Pending
        && var rec := s.cache[r.id];
        t.cache == s.cache[r.id := rec.(status := Expired)]
        || t.cache == s.cache[r.id := rec.(status := Approved, approver := Some(r.principal.id))])
  {
    hide MayDecide, Level, RequiredLevel, OverLimit;
  }

  lemma GrantKeepsRecords(s: State, r: GrantRequest, id: string)
    requires id in s.cache
    ensures var t := GrantStep(s, r).0;
      && id in t.cache && SameTerms(s.cache[id], t.cache[id])
      && (Terminal(s.cache[id].status) ==> t.cache[id] == s.cache[id])
      && (t.cache[id].status == s.cache[id].status || ValidTransition(s.cache[id].status, t.cache[id].status))
  {
    GrantOutcome(s, r);
    hide GrantStep;
  }

  /** What the begin of a dispatch can do to the cache. */
  lemma BeginOutcome(cfg: Config, s: State, r: DispatchRequest)
    ensures var t := BeginStep(cfg, s, r).0;
      t.cache == s.cache || (r.id in s.cache && s.cache[r.id].status == Approved
        && (t.cache == s.cache[r.id := s.cache[r.id].(status := Expired)]
            || t.cache == s.cache[r.id := s.cache[r.id].(status := Dispatching)]))
  {
    hide MayDispatch;
  }

  lemma BeginKeepsRecords(cfg: Config, s: State, r: DispatchRequest, id: string)
    requires id in s.cache
    ensures var t := BeginStep(cfg, s, r).0;
      && id in t.cache && SameTerms(s.cache[id], t.cache[id])
      && (Terminal(s.cache[id].status) ==> t.cache[id] == s.cache[id])
      && (t.cache[id].status == s.cache[id].status || ValidTransition(s.cache[id].status, t.cache[id].status))
  {
    BeginOutcome(cfg, s, r);
    hide BeginStep;
  }

  /** A later form of a record: same terms, no higher rank, and unchanged once terminal. */
  predicate Later(a: Record, b: Record) {
    SameTerms(a, b) && (Terminal(a.status) ==> b == a) && Rank(b.status) <= Rank(a.status)
  }

  lemma LaterTransitive(a: Record, b: Record, c: Record)
    requires Later(a, b) && Later(b, c)
    ensures Later(a, c)
  {
    hide SameTerms;
    SameTermsTransitive(a, b, c);
  }

  lemma StepIsLater(cfg: Config, s: State, e: Event, id: string)
    requires Inv(cfg, s) && Enabled(s, e) && id in s.cache
    ensures id in Step(cfg, s, e).0.cache && Later(s.cache[id], Step(cfg, s, e).0.cache[id])
  {
    hide Inv, Step, SameTerms;
    StepKeepsRecords(cfg, s, e, id);
  }

  /** Records never disappear, their terms never change, and a terminal record stays exactly as it is. */
  lemma {:induction false} RunKeepsRecords(cfg: Config, s: State, es: seq<Event>, id: string)
    requires Inv(cfg, s) && Runnable(cfg, s, es) && id in s.cache
    ensures var t := Run(cfg, s, es);
      id in t.cache && Later(s.cache[id], t.cache[id])
    decreases |es|
  {
    hide Inv, Later, Step, Enabled;
    if es == [] {
      assert Later(s.cache[id], s.cache[id]) by { LaterReflexive(s.cache[id]); }
    } else {
      var t := Step(cfg, s, es[0]).0;
      StepKeepsInv(cfg, s, es[0]);
      StepIsLater(cfg, s, es[0], id);
      RunKeepsRecords(cfg, t, es[1..], id);
      LaterTransitive(s.cache[id], t.cache[id], Run(cfg, t, es[1..]).cache[id]);
    }
  }

  lemma LaterReflexive(a: Record)
    ensures Later(a, a)
  {
  }

  lemma SameTermsTransitive(a: Record, b: Record, c: Record)
    requires SameTerms(a, b) && SameTerms(b, c)
    ensures SameTerms(a, c)
  {
  }
}
