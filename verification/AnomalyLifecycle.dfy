/** The anomaly aggregate: state machine, audit trail, version and outbox in lockstep. */
module AnomalyLifecycle {
  import opened Wrappers

  datatype AnomalyState = Detected | Validated | Localized | Acknowledged | Suppressed | Resolved | Reopened

  datatype Freshness = Fresh | Recalculating | Degraded

  datatype Principal = Principal(id: string, tenant: string, isSystem: bool)

  datatype Audit = Audit(from: AnomalyState, to: AnomalyState, actor: string, bySystem: bool, reason: string, at: int)

  datatype OutboxEvent = OutboxEvent(kind: string, at: int, version: int, key: string)

  datatype LifecycleError = Unauthorized | TenancyViolation | AlreadyResolved | InvalidTransition

  /** The value of an aggregate at one moment. */
  datatype Anomaly = Anomaly(
    id: string, tenant: string, metric: string, metricVersion: string, windowStart: int, windowEnd: int,
    scope: map<string, string>, lower: real, upper: real,
    actual: real, freshness: Freshness, state: AnomalyState, version: nat,
    effectiveTo: Option<int>, suppressionReason: Option<string>, updatedAt: int,
    transitions: seq<Audit>, outbox: seq<OutboxEvent>)

  predicate Legal(from: AnomalyState, to: AnomalyState) {
    match from
    case Detected => to.Validated? || to.Suppressed?
    case Validated => to.Localized? || to.Suppressed?
    case Localized => to.Acknowledged? || to.Suppressed?
    case Acknowledged => to.Resolved? || to.Suppressed?
    case Suppressed => false
    case Resolved => to.Reopened?
    case Reopened => to.Localized? || to.Acknowledged? || to.Resolved? || to.Suppressed?
  }

  function LowerName(s: AnomalyState): string {
    match s
    case Detected => "detected"
    case Validated => "validated"
    case Localized => "localized"
    case Acknowledged => "acknowledged"
    case Suppressed => "suppressed"
    case Resolved => "resolved"
    case Reopened => "reopened"
  }

  function EventType(s: AnomalyState): string {
    "anomaly." + LowerName(s) + ".v1"
  }

  // ---------------------------------------------------------------- idempotency keys

  predicate IsDigit(c: char) {
    '0' <= c <= '9'
  }

  function Decimal(n: nat): (d: string)
    ensures d != "" && forall k :: 0 <= k < |d| ==> IsDigit(d[k])
  {
    if n < 10 then ["0123456789"[n]] else Decimal(n / 10) + ["0123456789"[n % 10]]
  }

  function FirstKey(id: string): string {
    "anm_detect_" + id + "_v" + Decimal(1)
  }

  function TransitionKey(id: string, to: AnomalyState, version: nat): string {
    "anm_" + id + "_" + LowerName(to) + "_v" + Decimal(version)
  }

  lemma {:induction false} DecimalInjective(m: nat, n: nat)
    requires Decimal(m) == Decimal(n)
    ensures m == n
    decreases m
  {
    var d, e := Decimal(m), Decimal(n);
    assert d[|d|-1] == "0123456789"[m % 10] && e[|e|-1] == "0123456789"[n % 10];
    DigitInjective(m % 10, n % 10);
    if m >= 10 && n >= 10 {
      assert Decimal(m / 10) == d[..|d|-1] && Decimal(n / 10) == e[..|e|-1];
      DecimalInjective(m / 10, n / 10);
    }
  }

  lemma DigitInjective(a: nat, b: nat)
    requires a < 10 && b < 10 && "0123456789"[a] == "0123456789"[b]
    ensures a == b
  {
  }

  /** The version is read off the end of a key: digits back to the last letter. */
  lemma VersionReadable(p: string, q: string, m: nat, n: nat)
    requires p + "_v" + Decimal(m) == q + "_v" + Decimal(n)
    ensures m == n
  {
    hide Decimal;
    var d, e := Decimal(m), Decimal(n);
    var s, t := p + "_v" + d, q + "_v" + e;
    assert s[|s| - |d| - 1] == 'v' && t[|t| - |e| - 1] == 'v';
    assert forall k :: |t| - |e| <= k < |t| ==> t[k] == e[k - (|t| - |e|)] && IsDigit(t[k]);
    assert forall k :: |s| - |d| <= k < |s| ==> s[k] == d[k - (|s| - |d|)] && IsDigit(s[k]);
    assert |d| == |e|;
    assert d == s[|s| - |d|..] && e == t[|t| - |e|..];
    DecimalInjective(m, n);
  }

  // ---------------------------------------------------------------- the operations on values

  /** The latest entry to SUPPRESSED or RESOLVED. */
  function LastClose(ts: seq<Audit>): Option<int> {
    if ts == [] then None
    else if ts[|ts|-1].to.Suppressed? || ts[|ts|-1].to.Resolved? then Some(ts[|ts|-1].at)
    else LastClose(ts[..|ts|-1])
  }

  /** A legal transition: the new state, its audit record and its event. */
  function Moved(a: Anomaly, target: AnomalyState, who: Principal, reason: string, now: int): Anomaly {
    var version := a.version + 1;
    a.(
      state := target,
      version := version,
      updatedAt := now,
      suppressionReason := if target == Suppressed then Some(reason) else a.suppressionReason,
      effectiveTo := if target == Suppressed || target == Resolved then Some(now) else a.effectiveTo,
      transitions := a.transitions + [Audit(a.state, target, who.id, who.isSystem, reason, now)],
      outbox := a.outbox + [OutboxEvent(EventType(target), now, version, TransitionKey(a.id, target, version))])
  }

  function Apply(a: Anomaly, target: AnomalyState, actor: Option<Principal>, reason: string,
                 now: int): Result<Anomaly, LifecycleError>
  {
    if actor.None? then Failure(Unauthorized)
    else if !actor.value.isSystem && actor.value.tenant != a.tenant then Failure(TenancyViolation)
    else if a.state == Resolved && target != Reopened then Failure(AlreadyResolved)
    else if !Legal(a.state, target) then Failure(InvalidTransition)
    else
      Success(Moved(a, target, actor.value, reason, now))
  }

  // ---------------------------------------------------------------- the aggregate

  class AnomalyAggregate {
    const id: string
    const tenant: string
    const metric: string
    const metricVersion: string
    const windowStart: int
    const windowEnd: int
    const scope: map<string, string>
    const lower: real
    const upper: real
    var actual: real
    var freshness: Freshness
    var state: AnomalyState
    var version: nat
    var effectiveTo: Option<int>
    var suppressionReason: Option<string>
    var updatedAt: int
    var transitions: seq<Audit>
    var outbox: seq<OutboxEvent>

    ghost function Value(): Anomaly
      reads this
    {
      Anomaly(id, tenant, metric, metricVersion, windowStart, windowEnd, scope, lower, upper, actual, freshness, state,
              version, effectiveTo, suppressionReason, updatedAt, transitions, outbox)
    }

    /** A new aggregate in DETECTED, with its first audit record and its first event. */
    constructor Detect(id: string, tenant: string, metric: string, metricVersion: string, windowStart: int,
                       windowEnd: int, scope: map<string, string>, lower: real, upper: real, actual: real,
                       actor: Option<Principal>, now: int)
      ensures Consistent(Value()) && state == Detected && freshness == Fresh
      ensures this.id == id && this.tenant == tenant && this.metric == metric && this.actual == actual
      ensures this.windowStart == windowStart && this.windowEnd == windowEnd && this.lower == lower
        && this.upper == upper && this.metricVersion == metricVersion && this.scope == scope
      ensures effectiveTo == None && suppressionReason == None && updatedAt == now
      ensures transitions == [Audit(Detected, Detected,
                                    if actor.Some? then actor.value.id else "system_detector_worker",
                                    actor.None? || actor.value.isSystem, "INITIAL_DETECTION", now)]
    {
      this.id, this.tenant, this.metric, this.metricVersion := id, tenant, metric, metricVersion;
      this.windowStart, this.windowEnd, this.scope, this.lower, this.upper :=
        windowStart, windowEnd, scope, lower, upper;
      this.actual, freshness, state, version := actual, Fresh, Detected, 1;
      effectiveTo, suppressionReason, updatedAt := None, None, now;
      var actorId := if actor.Some? then actor.value.id else "system_detector_worker";
      transitions := [Audit(Detected, Detected, actorId,
                            actor.None? || actor.value.isSystem, "INITIAL_DETECTION", now)];
      outbox := [OutboxEvent(EventType(Detected), now, 1, FirstKey(id))];
      new;
      assert transitions[..0] == [];
    }

    method TransitionTo(target: AnomalyState, actor: Option<Principal>, reason: string, now: int)
      returns (r: Result<Audit, LifecycleError>)
      modifies this
      ensures var applied := Apply(old(Value()), target, actor, reason, now);
        && (r.Success? <==> applied.Success?)
        && (r.Success? ==> Value() == applied.value && r.value == transitions[|transitions|-1])
        && (r.Failure? ==> Value() == old(Value()) && r.error == applied.error)
    {
      hide Consistent, TransitionKey, EventType, Legal;
      if actor.None? {
        return Failure(Unauthorized);
      }
      var who := actor.value;
      if !who.isSystem && who.tenant != tenant {
        return Failure(TenancyViolation);
      }
      if state == Resolved && target != Reopened {
        return Failure(AlreadyResolved);
      }
      if !Legal(state, target) {
        return Failure(InvalidTransition);
      }
      hide Moved;
      var record := MoveTo(target, who, reason, now);
      r := Success(record);
    }

    /** The update behind a legal transition. */
    method MoveTo(target: AnomalyState, who: Principal, reason: string, now: int) returns (record: Audit)
      modifies this
      ensures Value() == Moved(old(Value()), target, who, reason, now)
      ensures record == transitions[|transitions|-1]
    {
      hide TransitionKey, EventType;
      var from := state;
      state := target;
      version := version + 1;
      updatedAt := now;
      if target == Suppressed {
        suppressionReason := Some(reason);
        effectiveTo := Some(now);
      } else if target == Resolved {
        effectiveTo := Some(now);
      }
      record := Audit(from, target, who.id, who.isSystem, reason, now);
      transitions := transitions + [record];
      outbox := outbox + [OutboxEvent(EventType(target), now, version, TransitionKey(id, target, version))];
    }
  }

  // ---------------------------------------------------------------- what every run keeps

  ghost predicate Lockstep(a: Anomaly) {
    && a.version == |a.transitions| == |a.outbox| >= 1
    && forall i :: 0 <= i < |a.outbox| ==>
      a.outbox[i] == OutboxEvent(EventType(a.transitions[i].to), a.transitions[i].at, i + 1, KeyAt(a, i))
  }

  function KeyAt(a: Anomaly, i: nat): string
    requires i < |a.transitions|
  {
    if i == 0 then FirstKey(a.id) else TransitionKey(a.id, a.transitions[i].to, i + 1)
  }

  /** The audit trail starts in DETECTED, follows the table, links state to state, and ends in the current state. */
  ghost predicate Chained(a: Anomaly) {
    && |a.transitions| >= 1
    && a.transitions[0].from == a.transitions[0].to == Detected
    && a.transitions[|a.transitions|-1].to == a.state
    && forall i :: 1 <= i < |a.transitions| ==>
      a.transitions[i].from == a.transitions[i-1].to && Legal(a.transitions[i].from, a.transitions[i].to)
  }

  ghost predicate Consistent(a: Anomaly) {
    Lockstep(a) && Chained(a) && a.effectiveTo == LastClose(a.transitions)
  }

  lemma MovedKeepsLockstep(a: Anomaly, target: AnomalyState, who: Principal, reason: string, now: int)
    requires Lockstep(a)
    ensures Lockstep(Moved(a, target, who, reason, now))
  {
    hide TransitionKey, FirstKey, EventType;
    var b := Moved(a, target, who, reason, now);
    forall i | 0 <= i < |b.outbox|
      ensures b.outbox[i] == OutboxEvent(EventType(b.transitions[i].to), b.transitions[i].at, i + 1, KeyAt(b, i))
    {
      if i < |a.outbox| {
        assert b.outbox[i] == a.outbox[i] && b.transitions[i] == a.transitions[i] && KeyAt(b, i) == KeyAt(a, i);
      }
    }
  }

  lemma MovedKeepsChain(a: Anomaly, target: AnomalyState, who: Principal, reason: string, now: int)
    requires Chained(a) && Legal(a.state, target)
    ensures Chained(Moved(a, target, who, reason, now))
  {
    hide TransitionKey, EventType, Legal;
  }

  lemma MovedKeepsClose(a: Anomaly, target: AnomalyState, who: Principal, reason: string, now: int)
    requires a.effectiveTo == LastClose(a.transitions)
    ensures var b := Moved(a, target, who, reason, now);
      b.effectiveTo == LastClose(b.transitions)
  {
    hide TransitionKey, EventType;
    var b := Moved(a, target, who, reason, now);
    assert b.transitions[..|b.transitions|-1] == a.transitions;
  }

  lemma ApplyKeepsConsistent(a: Anomaly, target: AnomalyState, actor: Option<Principal>, reason: string, now: int)
    requires Consistent(a) && Apply(a, target, actor, reason, now).Success?
    ensures Consistent(Apply(a, target, actor, reason, now).value)
  {
    assert Apply(a, target, actor, reason, now).value == Moved(a, target, actor.value, reason, now);
    MovedKeepsLockstep(a, target, actor.value, reason, now);
    MovedKeepsChain(a, target, actor.value, reason, now);
    MovedKeepsClose(a, target, actor.value, reason, now);
  }

  /** One call of transition_to. */
  datatype Call = Call(target: AnomalyState, actor: Option<Principal>, reason: string, now: int)

  ghost function Run(a: Anomaly, calls: seq<Call>): Anomaly
    decreases |calls|
  {
    if calls == [] then a else
    var r := Apply(a, calls[0].target, calls[0].actor, calls[0].reason, calls[0].now);
    Run(if r.Success? then r.value else a, calls[1..])
  }

  /** Over every run version, audit trail, outbox and effective end stay in lockstep. */
  lemma {:induction false} RunKeepsConsistent(a: Anomaly, calls: seq<Call>)
    requires Consistent(a)
    ensures Consistent(Run(a, calls))
    decreases |calls|
  {
    if calls != [] {
      hide Consistent;
      var c := calls[0];
      var r := Apply(a, c.target, c.actor, c.reason, c.now);
      if r.Success? { ApplyKeepsConsistent(a, c.target, c.actor, c.reason, c.now); }
      RunKeepsConsistent(if r.Success? then r.value else a, calls[1..]);
    }
  }

  /** History is only ever extended, and SUPPRESSED is final: not even a field changes afterwards. */
  lemma {:induction false} RunExtendsHistory(a: Anomaly, calls: seq<Call>)
    ensures a.transitions <= Run(a, calls).transitions && a.outbox <= Run(a, calls).outbox
    ensures a.state == Suppressed ==> Run(a, calls) == a
    decreases |calls|
  {
    if calls != [] {
      var c := calls[0];
      var r := Apply(a, c.target, c.actor, c.reason, c.now);
      RunExtendsHistory(if r.Success? then r.value else a, calls[1..]);
    }
  }

  /** The seven states have seven names, so the event of a state is published under no other state's name. */
  lemma StateNames(s: AnomalyState, t: AnomalyState)
    ensures LowerName(s) == match s
      case Detected => "detected"
      case Validated => "validated"
      case Localized => "localized"
      case Acknowledged => "acknowledged"
      case Suppressed => "suppressed"
      case Resolved => "resolved"
      case Reopened => "reopened"
    ensures EventType(s) == EventType(t) ==> s == t
  {
    assert EventType(s)[8..|EventType(s)|-3] == LowerName(s) && EventType(t)[8..|EventType(t)|-3] == LowerName(t);
    hide EventType;
    if LowerName(s) == LowerName(t) {
      assert |LowerName(s)| == |LowerName(t)| && LowerName(s)[0] == LowerName(t)[0]
        && LowerName(s)[2] == LowerName(t)[2];
    }
  }

  const TABLE := {
    (Detected, Validated), (Detected, Suppressed), (Validated, Localized), (Validated, Suppressed),
    (Localized, Acknowledged), (Localized, Suppressed), (Acknowledged, Resolved), (Acknowledged, Suppressed),
    (Resolved, Reopened), (Reopened, Localized), (Reopened, Acknowledged), (Reopened, Resolved), (Reopened, Suppressed)
  }

  /** A transition succeeds for somebody of the tenant, or the system, along an edge of the table. */
  lemma TransitionSucceedsIff(a: Anomaly, target: AnomalyState, actor: Option<Principal>, reason: string, now: int)
    ensures Apply(a, target, actor, reason, now).Success? <==>
      actor.Some? && (actor.value.isSystem || actor.value.tenant == a.tenant) && (a.state, target) in TABLE
    ensures Apply(a, target, actor, reason, now) == Failure(AlreadyResolved) <==>
      actor.Some? && (actor.value.isSystem || actor.value.tenant == a.tenant) && a.state == Resolved
      && target != Reopened
  {
  }

  /** The calls of a run that succeed, in order. */
  ghost function Successes(a: Anomaly, calls: seq<Call>): seq<Call>
    decreases |calls|
  {
    if calls == [] then [] else
    var r := Apply(a, calls[0].target, calls[0].actor, calls[0].reason, calls[0].now);
    (if r.Success? then [calls[0]] else []) + Successes(if r.Success? then r.value else a, calls[1..])
  }

  /** An audit record tells of a call: where it led, who made it, why and when. */
  predicate TellsOf(t: Audit, c: Call) {
    && t.to == c.target && t.reason == c.reason && t.at == c.now
    && c.actor.Some? && t.actor == c.actor.value.id && t.bySystem == c.actor.value.isSystem
  }

  lemma ApplyTells(a: Anomaly, c: Call)
    requires Apply(a, c.target, c.actor, c.reason, c.now).Success?
    ensures var b := Apply(a, c.target, c.actor, c.reason, c.now).value;
      && |b.transitions| == |a.transitions| + 1 && a.transitions <= b.transitions
      && TellsOf(b.transitions[|a.transitions|], c)
      && b.state == c.target && b.updatedAt == c.now
      && b.suppressionReason == (if c.target.Suppressed? then Some(c.reason) else a.suppressionReason)
      && b.(state := a.state, version := a.version, updatedAt := a.updatedAt, effectiveTo := a.effectiveTo,
            suppressionReason := a.suppressionReason, transitions := a.transitions, outbox := a.outbox) == a
  {
  }

  /** What is new in `b`, compared to `a`, is what the calls of `log` did. */
  ghost predicate Grown(a: Anomaly, b: Anomaly, log: seq<Call>) {
    && |b.transitions| == |a.transitions| + |log| && a.transitions <= b.transitions
    && (forall i :: 0 <= i < |log| ==> TellsOf(b.transitions[|a.transitions| + i], log[i]))
    && (log == [] ==> b == a)
    && (log != [] ==> b.state == log[|log|-1].target && b.updatedAt == log[|log|-1].now)
    && (log != [] && b.state == Suppressed ==> b.suppressionReason == Some(log[|log|-1].reason))
    && (b.state != Suppressed ==> b.suppressionReason == a.suppressionReason)
  }

  /** The audit trail grows by one record for each call that succeeds, in order, and by nothing else. */
  lemma {:induction false} TrailIsSuccesses(a: Anomaly, calls: seq<Call>)
    ensures Grown(a, Run(a, calls), Successes(a, calls))
    decreases |calls|
  {
    if calls != [] {
      var c := calls[0];
      var r := Apply(a, c.target, c.actor, c.reason, c.now);
      if r.Success? {
        TrailIsSuccesses(r.value, calls[1..]);
        if r.value.state == Suppressed { SuppressedStays(r.value, calls[1..]); }
        ApplyTells(a, c);
        hide Apply, TellsOf, Grown;
        Grow(a, r.value, Run(r.value, calls[1..]), c, Successes(r.value, calls[1..]));
      } else {
        TrailIsSuccesses(a, calls[1..]);
        hide Apply, Grown;
        assert Successes(a, calls) == Successes(a, calls[1..]);
      }
    }
  }

  lemma Grow(a: Anomaly, b: Anomaly, d: Anomaly, c: Call, rest: seq<Call>)
    requires Grown(b, d, rest) && |b.transitions| == |a.transitions| + 1 && a.transitions <= b.transitions
    requires TellsOf(b.transitions[|a.transitions|], c) && b.state == c.target && b.updatedAt == c.now
    requires b.suppressionReason == (if c.target.Suppressed? then Some(c.reason) else a.suppressionReason)
    requires b.state == Suppressed ==> rest == []
    ensures Grown(a, d, [c] + rest)
  {
    hide TellsOf;
    var log := [c] + rest;
    forall i | 0 <= i < |log| ensures TellsOf(d.transitions[|a.transitions| + i], log[i]) {
      if i > 0 { assert TellsOf(d.transitions[|b.transitions| + (i - 1)], rest[i-1]); }
    }
  }

  lemma SuppressedStays(a: Anomaly, calls: seq<Call>)
    requires a.state == Suppressed
    ensures Run(a, calls) == a && Successes(a, calls) == []
  {
  }

  /** No two events of an aggregate share an idempotency key. */
  lemma IdempotencyKeysDistinct(a: Anomaly, i: nat, j: nat)
    requires Consistent(a) && i < |a.outbox| && j < |a.outbox| && i != j
    ensures a.outbox[i].key != a.outbox[j].key
  {
    hide KeyAt, EventType;
    StemsDiffer(a, i, j);
  }

  lemma StemsDiffer(a: Anomaly, i: nat, j: nat)
    requires i < |a.transitions| && j < |a.transitions| && i != j
    ensures KeyAt(a, i) != KeyAt(a, j)
  {
    hide KeyAt, Decimal;
    var p := KeyStem(a, i);
    var q := KeyStem(a, j);
    if p + "_v" + Decimal(i + 1) == q + "_v" + Decimal(j + 1) {
      VersionReadable(p, q, i + 1, j + 1);
    }
  }

  lemma KeyStem(a: Anomaly, i: nat) returns (p: string)
    requires i < |a.transitions|
    ensures KeyAt(a, i) == p + "_v" + Decimal(i + 1)
  {
    p := if i == 0 then "anm_detect_" + a.id else "anm_" + a.id + "_" + LowerName(a.transitions[i].to);
  }
}
