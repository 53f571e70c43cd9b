/** The metric query: checks, the cut to tenant and watermark, slices, groups, and one point for each. */
module MetricGateway {
  import opened Wrappers
  import opened TimeSlices
  import opened MetricData
  import opened MetricGroups

  datatype Value = Value(value: real, numerator: Option<real>, denominator: Option<real>, zeroSample: bool)

  /** A registered metric; its calculation is left uninterpreted. */
  datatype Definition = Definition(id: string, allowed: set<string>,
                                   calculate: (string, Dataset, int, map<string, string>) -> Value)

  type Registry = string -> Option<Definition>

  datatype Request = Request(metric: string, start: int, end: int, grain: Grain, dims: seq<string>,
                             filters: map<string, string>, asOf: int)

  datatype Context = Context(tenant: string, active: bool)

  datatype Point = Point(start: int, end: int, dims: map<string, string>, actual: real, numerator: real,
                         denominator: real, sample: int, zeroVolume: bool)

  datatype QueryError = TenancyViolation | TemporalLeakage | NotRegistered | InvalidDimension

  // ---------------------------------------------------------------- one point

  /** Conversion to an integer cuts towards zero. */
  function Truncate(x: real): int {
    if x >= 0.0 then x.Floor else -((-x).Floor)
  }

  function Or(x: Option<real>, default: real): real {
    match x case Some(v) => v case None => default
  }

  /** Without a denominator there is no volume, whatever the calculation says. */
  function ToPoint(s: Slice, dims: map<string, string>, v: Value): (p: Point)
    ensures p.zeroVolume <==> v.zeroSample || v.denominator == None || v.denominator == Some(0.0)
    ensures p.zeroVolume ==> p.actual == 0.0 && p.sample == 0
    ensures !p.zeroVolume ==> p.actual == v.value && p.denominator != 0.0
  {
    var den := Or(v.denominator, 0.0);
    var num := Or(v.numerator, v.value);
    if den == 0.0 || v.zeroSample then Point(s.start, s.end, dims, 0.0, num, den, 0, true)
    else Point(s.start, s.end, dims, v.value, num, den, Truncate(den), false)
  }

  function Placeholder(s: Slice, dims: seq<string>): Point {
    Point(s.start, s.end, map d | d in dims :: UNKNOWN, 0.0, 0.0, 0.0, 0, true)
  }

  // ---------------------------------------------------------------- the series, as a specification

  /** What stays fixed over the slices of one query; `data` is already cut to tenant and watermark. */
  datatype Job = Job(def: Definition, tenant: string, data: Dataset, dims: seq<string>, filters: map<string, string>,
                     asOf: int)

  function SliceValue(j: Job, s: Slice, filters: map<string, string>): Value {
    j.def.calculate(j.tenant, SliceDataset(j.data, j.def.id, s), Min(s.end, j.asOf), filters)
  }

  function GroupPoint(j: Job, s: Slice, g: Combo): Point {
    ToPoint(s, DictOf(g), SliceValue(j, s, j.filters + DictOf(g)))
  }

  function GroupPoints(j: Job, s: Slice, groups: seq<Combo>): seq<Point> {
    if groups == [] then [Placeholder(s, j.dims)]
    else seq(|groups|, i requires 0 <= i < |groups| => GroupPoint(j, s, groups[i]))
  }

  /** The points of one slice. */
  ghost predicate SlicePoints(j: Job, s: Slice, ps: seq<Point>) {
    if j.dims == [] then ps == [ToPoint(s, map[], SliceValue(j, s, j.filters))]
    else exists groups ::
      ListsGroups(groups, SliceDataset(j.data, j.def.id, s), j.def.id, j.dims, j.filters)
        && ps == GroupPoints(j, s, groups)
  }

  /** The points of all slices, slice after slice. */
  ghost predicate SeriesPoints(j: Job, slices: seq<Slice>, ps: seq<Point>)
    decreases |slices|
  {
    if slices == [] then ps == []
    else exists n ::
      0 <= n <= |ps| && SeriesPoints(j, slices[..|slices|-1], ps[..n])
      && SlicePoints(j, slices[|slices|-1], ps[n..])
  }

  function CleanFilters(q: Request): map<string, string> {
    q.filters - {"tenant_id"}
  }

  function JobOf(def: Definition, q: Request, tenant: string, d: Dataset): Job {
    Job(def, tenant, FilterTenantAndAsOf(d, tenant, q.asOf), q.dims, CleanFilters(q), q.asOf)
  }

  /** The request is refused, and why; the first reason that applies counts. */
  ghost function Rejection(q: Request, ctx: Context, now: int, registry: Registry): Option<QueryError> {
    if !ctx.active || ("tenant_id" in q.filters && q.filters["tenant_id"] != ctx.tenant) then Some(TenancyViolation)
    else if q.asOf > now then Some(TemporalLeakage)
    else if registry(q.metric).None? then Some(NotRegistered)
    else if exists dim :: (dim in q.dims || dim in CleanFilters(q)) && dim !in registry(q.metric).value.allowed then
      Some(InvalidDimension)
    else None
  }

  /** The series that answers a request that is not refused. */
  ghost predicate Answers(q: Request, def: Definition, tenant: string, d: Dataset, series: seq<Point>) {
    exists slices :: Cuts(slices, q.start, q.end, q.grain) && SeriesPoints(JobOf(def, q, tenant, d), slices, series)
  }

  // ---------------------------------------------------------------- the query

  method EvaluateSlice(j: Job, s: Slice) returns (ps: seq<Point>)
    ensures SlicePoints(j, s, ps)
  {
    var data := SliceDataset(j.data, j.def.id, s);
    var effective := if s.end < j.asOf then s.end else j.asOf;
    if j.dims == [] {
      return [ToPoint(s, map[], j.def.calculate(j.tenant, data, effective, j.filters))];
    }
    var groups := ExtractGroups(data, j.def.id, j.dims, j.filters);
    if groups == [] {
      return [Placeholder(s, j.dims)];
    }
    ps := [];
    for i := 0 to |groups|
      invariant ps == seq(i, k requires 0 <= k < i => GroupPoint(j, s, groups[k]))
    {
      var combined := j.filters + DictOf(groups[i]);
      ps := ps + [ToPoint(s, DictOf(groups[i]), j.def.calculate(j.tenant, data, effective, combined))];
    }
    assert ps == GroupPoints(j, s, groups);
  }

  method Query(q: Request, ctx: Context, now: int, registry: Registry, d: Dataset)
    returns (r: Result<seq<Point>, QueryError>)
    ensures r.Failure? <==> Rejection(q, ctx, now, registry).Some?
    ensures r.Failure? ==> Rejection(q, ctx, now, registry) == Some(r.error)
    ensures r.Success? ==> Answers(q, registry(q.metric).value, ctx.tenant, d, r.value)
  {
    hide Cuts, SlicePoints, FilterTenantAndAsOf;
    if !ctx.active { return Failure(TenancyViolation); }
    if "tenant_id" in q.filters && q.filters["tenant_id"] != ctx.tenant { return Failure(TenancyViolation); }
    var filters := q.filters - {"tenant_id"};
    if q.asOf > now { return Failure(TemporalLeakage); }
    var found := registry(q.metric);
    if found.None? { return Failure(NotRegistered); }
    var def := found.value;
    for i := 0 to |q.dims|
      invariant forall k :: 0 <= k < i ==> q.dims[k] in def.allowed
    {
      if q.dims[i] !in def.allowed { return Failure(InvalidDimension); }
    }
    if dim :| dim in filters.Keys && dim !in def.allowed { return Failure(InvalidDimension); }
    var j := Job(def, ctx.tenant, FilterTenantAndAsOf(d, ctx.tenant, q.asOf), q.dims, filters, q.asOf);
    var slices := GenerateTimeSlices(q.start, q.end, q.grain);
    var series: seq<Point> := [];
    for i := 0 to |slices|
      invariant SeriesPoints(j, slices[..i], series)
    {
      var ps := EvaluateSlice(j, slices[i]);
      SeriesGrows(j, slices, i, series, ps);
      series := series + ps;
    }
    assert slices[..|slices|] == slices;
    r := Success(series);
  }

  lemma SeriesGrows(j: Job, slices: seq<Slice>, i: nat, series: seq<Point>, ps: seq<Point>)
    requires i < |slices| && SeriesPoints(j, slices[..i], series) && SlicePoints(j, slices[i], ps)
    ensures SeriesPoints(j, slices[..i+1], series + ps)
  {
    assert slices[..i+1][..i] == slices[..i];
    var n := |series|;
    assert (series + ps)[..n] == series && (series + ps)[n..] == ps;
  }

  // ---------------------------------------------------------------- the answer is determined

  lemma SlicePointsAreUnique(j: Job, s: Slice, a: seq<Point>, b: seq<Point>)
    requires SlicePoints(j, s, a) && SlicePoints(j, s, b)
    ensures a == b
  {
    if j.dims != [] {
      var data := SliceDataset(j.data, j.def.id, s);
      var g :| ListsGroups(g, data, j.def.id, j.dims, j.filters) && a == GroupPoints(j, s, g);
      var h :| ListsGroups(h, data, j.def.id, j.dims, j.filters) && b == GroupPoints(j, s, h);
      GroupsAreUnique(g, h, data, j.def.id, j.dims, j.filters);
    }
  }

  /** A series ends with the points of the last slice, behind the series of the slices before it. */
  lemma LastSlice(j: Job, slices: seq<Slice>, ps: seq<Point>) returns (n: nat)
    requires slices != [] && SeriesPoints(j, slices, ps)
    ensures n <= |ps| && ps == ps[..n] + ps[n..]
    ensures SeriesPoints(j, slices[..|slices|-1], ps[..n]) && SlicePoints(j, slices[|slices|-1], ps[n..])
  {
    hide SlicePoints;
    var last := |slices| - 1;
    n :| 0 <= n <= |ps| && SeriesPoints(j, slices[..last], ps[..n]) && SlicePoints(j, slices[last], ps[n..]);
  }

  lemma {:induction false} SeriesIsUnique(j: Job, slices: seq<Slice>, a: seq<Point>, b: seq<Point>)
    requires SeriesPoints(j, slices, a) && SeriesPoints(j, slices, b)
    ensures a == b
    decreases |slices|
  {
    if slices != [] {
      var last := |slices| - 1;
      var m := LastSlice(j, slices, a);
      var n := LastSlice(j, slices, b);
      hide SlicePoints, SeriesPoints;
      SeriesIsUnique(j, slices[..last], a[..m], b[..n]);
      SlicePointsAreUnique(j, slices[last], a[m..], b[n..]);
    }
  }

  /** The series depends on nothing but the tenant's own records up to the watermark. */
  lemma AnswerSeesOnlyOwnPast(q: Request, def: Definition, tenant: string, d: Dataset, e: Dataset, a: seq<Point>,
                              b: seq<Point>)
    requires FilterTenantAndAsOf(d, tenant, q.asOf) == FilterTenantAndAsOf(e, tenant, q.asOf)
    requires Answers(q, def, tenant, d, a) && Answers(q, def, tenant, e, b)
    ensures a == b
  {
    hide Cuts, SeriesPoints, FilterTenantAndAsOf;
    var s :| Cuts(s, q.start, q.end, q.grain) && SeriesPoints(JobOf(def, q, tenant, d), s, a);
    var t :| Cuts(t, q.start, q.end, q.grain) && SeriesPoints(JobOf(def, q, tenant, e), t, b);
    CutsAreUnique(s, t, q.start, q.end, q.grain);
    SeriesIsUnique(JobOf(def, q, tenant, d), s, a, b);
  }

  /** An order of another tenant, or after the watermark, may be added anywhere: the answer stays the same. */
  lemma HiddenOrderIsIgnored(q: Request, def: Definition, tenant: string, d: Dataset, n: nat, o: Order, a: seq<Point>,
                             b: seq<Point>)
    requires n <= |d.orders| && (o.tenant != tenant || o.at > q.asOf)
    requires Answers(q, def, tenant, d, a)
    requires Answers(q, def, tenant, d.(orders := d.orders[..n] + [o] + d.orders[n..]), b)
    ensures a == b
  {
    hide Answers, Keep;
    KeepSkips(d.orders, n, o, OrderSeen(tenant, q.asOf));
    AnswerSeesOnlyOwnPast(q, def, tenant, d, d.(orders := d.orders[..n] + [o] + d.orders[n..]), a, b);
  }

  /** What answers a request over the whole dataset is what answers it over the tenant's own past records alone. */
  lemma OwnPastAloneAnswers(q: Request, def: Definition, tenant: string, d: Dataset, series: seq<Point>)
    ensures Answers(q, def, tenant, d, series)
       <==> Answers(q, def, tenant, FilterTenantAndAsOf(d, tenant, q.asOf), series)
  {
    hide Cuts, SeriesPoints, FilterTenantAndAsOf;
    FilteringTwiceIsOnce(d, tenant, q.asOf);
  }

  /** Whatever a calculation is given belongs to the tenant and lies before the watermark. */
  lemma CalculationSeesOnlyOwnPast(q: Request, def: Definition, tenant: string, d: Dataset, s: Slice)
    ensures OwnAndPast(SliceDataset(JobOf(def, q, tenant, d).data, def.id, s), tenant, q.asOf)
  {
    hide OwnAndPast, SliceDataset;
    FilteredIsOwnAndPast(d, tenant, q.asOf);
    SliceIsOwnAndPast(FilterTenantAndAsOf(d, tenant, q.asOf), def.id, s, tenant, q.asOf);
  }

  ghost predicate PointsFollow(ps: seq<Point>, slices: seq<Slice>) {
    |ps| == |slices| && forall i :: 0 <= i < |ps| ==> ps[i].start == slices[i].start && ps[i].end == slices[i].end
  }

  /** Without grouping there is one point per slice, in order, so the windows of the points cut the queried window. */
  lemma {:induction false} UngroupedPointsFollowSlices(j: Job, slices: seq<Slice>, ps: seq<Point>)
    requires j.dims == [] && SeriesPoints(j, slices, ps)
    ensures PointsFollow(ps, slices)
    decreases |slices|
  {
    if slices != [] {
      hide PointsFollow;
      var last := |slices| - 1;
      var n := LastSlice(j, slices, ps);
      UngroupedPointsFollowSlices(j, slices[..last], ps[..n]);
      OnePoint(j, slices[last], ps[n..]);
      assert slices[last..] == [slices[last]];
      OneMoreFollows(ps, slices, n);
    }
  }

  lemma OneMoreFollows(ps: seq<Point>, slices: seq<Slice>, n: nat)
    requires slices != [] && n <= |ps|
    requires PointsFollow(ps[..n], slices[..|slices|-1]) && PointsFollow(ps[n..], slices[|slices|-1..])
    ensures PointsFollow(ps, slices)
  {
    assert ps == ps[..n] + ps[n..] && slices == slices[..|slices|-1] + slices[|slices|-1..];
  }

  lemma OnePoint(j: Job, s: Slice, ps: seq<Point>)
    requires j.dims == [] && SlicePoints(j, s, ps)
    ensures PointsFollow(ps, [s])
  {
  }
}
