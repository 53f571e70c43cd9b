/** What reaches the calculation of a metric: which records of the data, how often, under which filters, until when. */
module SliceMeaning {
  import opened Wrappers
  import opened StableSort
  import opened TimeSlices
  import opened MetricData
  import opened MetricGroups
  import opened MetricGateway

  // ---------------------------------------------------------------- selecting

  predicate PickedAt<T(==)>(a: seq<T>, b: seq<T>, at: seq<nat>) {
    && |at| == |a| && (forall i, j :: 0 <= i < j < |at| ==> at[i] < at[j])
    && forall i :: 0 <= i < |at| ==> at[i] < |b| && a[i] == b[at[i]]
  }

  /** The elements of `a` stand in `b`, in the same order. */
  ghost predicate InOrder<T>(a: seq<T>, b: seq<T>) {
    exists at :: PickedAt(a, b, at)
  }

  /** What satisfies the test, as often as it is there, in the same order, and nothing else. */
  ghost predicate Selects<T(!new)>(kept: seq<T>, all: seq<T>, test: T -> bool) {
    InOrder(kept, all) && forall x :: multiset(kept)[x] == if test(x) then multiset(all)[x] else 0
  }

  lemma {:induction false} KeepsOrder<T>(s: seq<T>, test: T -> bool) returns (at: seq<nat>)
    ensures PickedAt(Keep(s, test), s, at)
  {
    if s == [] {
      at := [];
    } else {
      var n: nat := |s| - 1;
      at := KeepsOrder(s[..n], test);
      Picks(Keep(s[..n], test), s, n, at);
      hide PickedAt;
      at := if test(s[n]) then at + [n] else at;
    }
  }

  lemma {:induction false} KeepCounts<T(!new)>(s: seq<T>, test: T -> bool)
    ensures forall x :: multiset(Keep(s, test))[x] == if test(x) then multiset(s)[x] else 0
  {
    if s != [] {
      KeepCounts(s[..|s|-1], test);
      assert s == s[..|s|-1] + [s[|s|-1]];
    }
  }

  lemma KeepSelects<T(!new)>(s: seq<T>, test: T -> bool)
    ensures Selects(Keep(s, test), s, test)
  {
    var at := KeepsOrder(s, test);
    KeepCounts(s, test);
    hide PickedAt, Keep;
  }

  lemma Picks<T>(kept: seq<T>, all: seq<T>, n: nat, at: seq<nat>)
    requires n < |all| && PickedAt(kept, all[..n], at)
    ensures PickedAt(kept, all, at) && PickedAt(kept + [all[n]], all, at + [n])
  {
  }

  // ---------------------------------------------------------------- the cut to tenant and watermark

  /** Every own record up to the watermark is kept, as often as it is there, and nothing else, in all nine tables. */
  lemma FilterKeepsOwnPast(d: Dataset, tenant: string, asOf: int)
    ensures var e := FilterTenantAndAsOf(d, tenant, asOf);
      && Selects(e.customers, d.customers, (x: Customer) => x.tenant == tenant && x.at <= asOf)
      && Selects(e.orders, d.orders, (x: Order) => x.tenant == tenant && x.at <= asOf)
      && Selects(e.lines, d.lines, (x: OrderLine) => x.tenant == tenant && x.at <= asOf)
      && Selects(e.shipments, d.shipments, (x: Shipment) => x.tenant == tenant && x.at <= asOf)
      && Selects(e.tickets, d.tickets, (x: Ticket) => x.tenant == tenant && x.at <= asOf)
      && Selects(e.maintenance, d.maintenance, (x: Other) => x.tenant == tenant && x.at <= asOf)
      && Selects(e.contracts, d.contracts, (x: Other) => x.tenant == tenant && x.at <= asOf)
      && Selects(e.clauses, d.clauses, (x: Other) => x.tenant == tenant && x.at <= asOf)
      && Selects(e.payments, d.payments, (x: Payment) => x.tenant == tenant && x.processedAt <= asOf)
  {
    hide Keep, InOrder;
    KeepSelects(d.customers, CustomerSeen(tenant, asOf));
    KeepSelects(d.orders, OrderSeen(tenant, asOf));
    KeepSelects(d.lines, LineSeen(tenant, asOf));
    KeepSelects(d.shipments, ShipmentSeen(tenant, asOf));
    KeepSelects(d.tickets, TicketSeen(tenant, asOf));
    KeepSelects(d.maintenance, OtherSeen(tenant, asOf));
    KeepSelects(d.contracts, OtherSeen(tenant, asOf));
    KeepSelects(d.clauses, OtherSeen(tenant, asOf));
    KeepSelects(d.payments, PaymentSeen(tenant, asOf));
  }

  // ---------------------------------------------------------------- one slice

  /** The snapshot of revenue at risk: orders, shipments and tickets up to the slice's end, the rest as it is. */
  lemma SnapshotTables(d: Dataset, s: Slice)
    ensures var e := SliceDataset(d, "METRIC-002", s);
      && Selects(e.orders, d.orders, (x: Order) => x.at <= s.end)
      && Selects(e.shipments, d.shipments, (x: Shipment) => x.at <= s.end)
      && Selects(e.tickets, d.tickets, (x: Ticket) => x.at <= s.end)
      && e == d.(orders := e.orders, shipments := e.shipments, tickets := e.tickets)
  {
    hide Keep, InOrder;
    KeepSelects(d.orders, OrdersBy(s.end));
    KeepSelects(d.shipments, ShipmentsBy(s.end));
    KeepSelects(d.tickets, TicketsBy(s.end));
  }

  /**
   * Every other metric: what happened within the slice, bounds included, as often as it is there; all customers when
   * none of them falls into it; and the other tables as they are.
   */
  lemma SliceTables(d: Dataset, metric: string, s: Slice)
    requires metric != "METRIC-002"
    ensures var e := SliceDataset(d, metric, s);
      && Selects(e.orders, d.orders, (x: Order) => s.start <= x.at <= s.end)
      && Selects(e.shipments, d.shipments, (x: Shipment) => s.start <= x.at <= s.end)
      && Selects(e.tickets, d.tickets, (x: Ticket) => s.start <= x.at <= s.end)
      && Selects(e.payments, d.payments, (x: Payment) => s.start <= x.processedAt <= s.end)
      && (if exists c :: c in d.customers && s.start <= c.at <= s.end
          then Selects(e.customers, d.customers, (x: Customer) => s.start <= x.at <= s.end)
          else e.customers == d.customers)
      && e == d.(orders := e.orders, shipments := e.shipments, tickets := e.tickets, payments := e.payments,
                 customers := e.customers)
  {
    hide Keep, InOrder;
    KeepSelects(d.orders, OrdersWithin(s));
    KeepSelects(d.shipments, ShipmentsWithin(s));
    KeepSelects(d.tickets, TicketsWithin(s));
    KeepSelects(d.payments, PaymentsWithin(s));
    KeepSelects(d.customers, CustomersWithin(s));
    KeepMembers(d.customers, CustomersWithin(s));
  }

  // ---------------------------------------------------------------- over all slices

  /** How often something is met over the slices. */
  function Total(slices: seq<Slice>, count: Slice -> nat): nat {
    if slices == [] then 0 else Total(slices[..|slices|-1], count) + count(slices[|slices|-1])
  }

  lemma {:induction false} TotalIsHits(slices: seq<Slice>, count: Slice -> nat, n: nat, t: int)
    requires forall s :: count(s) == if s.start <= t <= s.end then n else 0
    ensures Total(slices, count) == n * Hits(slices, t)
  {
    if slices != [] {
      TotalIsHits(slices[..|slices|-1], count, n, t);
    }
  }

  /** How often a record is handed to the calculation for a slice. */
  function OrderIn(j: Job, x: Order): Slice -> nat {
    (s: Slice) => multiset(SliceDataset(j.data, j.def.id, s).orders)[x]
  }

  function ShipmentIn(j: Job, x: Shipment): Slice -> nat {
    (s: Slice) => multiset(SliceDataset(j.data, j.def.id, s).shipments)[x]
  }

  function TicketIn(j: Job, x: Ticket): Slice -> nat {
    (s: Slice) => multiset(SliceDataset(j.data, j.def.id, s).tickets)[x]
  }

  function PaymentIn(j: Job, x: Payment): Slice -> nat {
    (s: Slice) => multiset(SliceDataset(j.data, j.def.id, s).payments)[x]
  }

  /** Once for a moment of the window, twice where two slices meet, and not at all outside. */
  function Times(t: int, start: int, end: int, step: int): nat
    requires step > 0
  {
    if t < start || end < t then 0 else if start < t < end && (t - start) % step == 0 then 2 else 1
  }

  lemma TotalIsTimes(slices: seq<Slice>, count: Slice -> nat, n: nat, t: int, start: int, end: int, step: int)
    requires forall s :: count(s) == if s.start <= t <= s.end then n else 0
    requires step > 0 && Tiles(slices, start, end, step)
    ensures Total(slices, count) == n * Times(t, start, end, step)
  {
    hide Tiles, Hits, Total;
    TotalIsHits(slices, count, n, t);
    HitsInWindow(slices, start, end, step, t);
  }

  lemma OrdersHanded(j: Job, slices: seq<Slice>, start: int, end: int, step: int, x: Order)
    requires step > 0 && Tiles(slices, start, end, step) && j.def.id != "METRIC-002"
    ensures Total(slices, OrderIn(j, x)) == multiset(j.data.orders)[x] * Times(x.at, start, end, step)
  {
    hide SliceDataset, Tiles, InOrder, Total, Times;
    forall s ensures OrderIn(j, x)(s) == if s.start <= x.at <= s.end then multiset(j.data.orders)[x] else 0 {
      SliceTables(j.data, j.def.id, s);
    }
    TotalIsTimes(slices, OrderIn(j, x), multiset(j.data.orders)[x], x.at, start, end, step);
  }

  lemma ShipmentsHanded(j: Job, slices: seq<Slice>, start: int, end: int, step: int, x: Shipment)
    requires step > 0 && Tiles(slices, start, end, step) && j.def.id != "METRIC-002"
    ensures Total(slices, ShipmentIn(j, x)) == multiset(j.data.shipments)[x] * Times(x.at, start, end, step)
  {
    hide SliceDataset, Tiles, InOrder, Total, Times;
    forall s ensures ShipmentIn(j, x)(s) == if s.start <= x.at <= s.end then multiset(j.data.shipments)[x] else 0 {
      SliceTables(j.data, j.def.id, s);
    }
    TotalIsTimes(slices, ShipmentIn(j, x), multiset(j.data.shipments)[x], x.at, start, end, step);
  }

  lemma TicketsHanded(j: Job, slices: seq<Slice>, start: int, end: int, step: int, x: Ticket)
    requires step > 0 && Tiles(slices, start, end, step) && j.def.id != "METRIC-002"
    ensures Total(slices, TicketIn(j, x)) == multiset(j.data.tickets)[x] * Times(x.at, start, end, step)
  {
    hide SliceDataset, Tiles, InOrder, Total, Times;
    forall s ensures TicketIn(j, x)(s) == if s.start <= x.at <= s.end then multiset(j.data.tickets)[x] else 0 {
      SliceTables(j.data, j.def.id, s);
    }
    TotalIsTimes(slices, TicketIn(j, x), multiset(j.data.tickets)[x], x.at, start, end, step);
  }

  lemma PaymentsHanded(j: Job, slices: seq<Slice>, start: int, end: int, step: int, x: Payment)
    requires step > 0 && Tiles(slices, start, end, step) && j.def.id != "METRIC-002"
    ensures Total(slices, PaymentIn(j, x)) == multiset(j.data.payments)[x] * Times(x.processedAt, start, end, step)
  {
    hide SliceDataset, Tiles, InOrder, Total, Times;
    forall s
      ensures PaymentIn(j, x)(s) == if s.start <= x.processedAt <= s.end then multiset(j.data.payments)[x] else 0
    {
      SliceTables(j.data, j.def.id, s);
    }
    TotalIsTimes(slices, PaymentIn(j, x), multiset(j.data.payments)[x], x.processedAt, start, end, step);
  }

  /**
   * Over the slices of a query each own order, shipment, ticket and payment up to the watermark is handed to the
   * calculation once, and twice exactly when it sits where two slices meet; nothing else ever is.
   */
  lemma RecordsAreConserved(q: Request, def: Definition, tenant: string, d: Dataset, slices: seq<Slice>,
                            o: Order, s: Shipment, t: Ticket, p: Payment)
    requires Cuts(slices, q.start, q.end, q.grain) && q.start < q.end && !q.grain.AsOfSnapshot?
    requires def.id != "METRIC-002"
    ensures var j, step := JobOf(def, q, tenant, d), StepOf(q.grain);
      && Total(slices, OrderIn(j, o)) == (
        if o.tenant == tenant && o.at <= q.asOf then multiset(d.orders)[o] * Times(o.at, q.start, q.end, step) else 0)
      && Total(slices, ShipmentIn(j, s)) == (
        if s.tenant == tenant && s.at <= q.asOf then multiset(d.shipments)[s] * Times(s.at, q.start, q.end, step)
        else 0)
      && Total(slices, TicketIn(j, t)) == (
        if t.tenant == tenant && t.at <= q.asOf then multiset(d.tickets)[t] * Times(t.at, q.start, q.end, step) else 0)
      && Total(slices, PaymentIn(j, p)) == (
        if p.tenant == tenant && p.processedAt <= q.asOf
        then multiset(d.payments)[p] * Times(p.processedAt, q.start, q.end, step) else 0)
  {
    hide FilterTenantAndAsOf, Tiles, Total, Times, StepOf, Selects;
    var j, step := JobOf(def, q, tenant, d), StepOf(q.grain);
    OrdersHanded(j, slices, q.start, q.end, step, o);
    ShipmentsHanded(j, slices, q.start, q.end, step, s);
    TicketsHanded(j, slices, q.start, q.end, step, t);
    PaymentsHanded(j, slices, q.start, q.end, step, p);
    OwnPastCounts(d, tenant, q.asOf, o, s, t, p);
  }

  lemma OwnPastCounts(d: Dataset, tenant: string, asOf: int, o: Order, s: Shipment, t: Ticket, p: Payment)
    ensures var e := FilterTenantAndAsOf(d, tenant, asOf);
      && multiset(e.orders)[o] == (if o.tenant == tenant && o.at <= asOf then multiset(d.orders)[o] else 0)
      && multiset(e.shipments)[s] == (if s.tenant == tenant && s.at <= asOf then multiset(d.shipments)[s] else 0)
      && multiset(e.tickets)[t] == (if t.tenant == tenant && t.at <= asOf then multiset(d.tickets)[t] else 0)
      && multiset(e.payments)[p] ==
         (if p.tenant == tenant && p.processedAt <= asOf then multiset(d.payments)[p] else 0)
  {
    hide FilterTenantAndAsOf, InOrder;
    FilterKeepsOwnPast(d, tenant, asOf);
  }

  /** The steps in microseconds: an hour, a week, thirty days, and a day for everything else. */
  lemma StepLengths(g: Grain)
    ensures StepOf(g) == match g
      case Hourly => 60 * 60 * 1_000_000
      case Weekly => 7 * 24 * 60 * 60 * 1_000_000
      case Monthly => 30 * 24 * 60 * 60 * 1_000_000
      case _ => 24 * 60 * 60 * 1_000_000
  {
  }

  /** A snapshot, or a window that does not run forward, is one slice: the window itself. */
  lemma OneSlice(slices: seq<Slice>, start: int, end: int, grain: Grain)
    requires Cuts(slices, start, end, grain) && (grain.AsOfSnapshot? || end <= start)
    ensures |slices| == 1 && slices[0].start == start && slices[0].end == end
  {
  }

  // ---------------------------------------------------------------- refusals

  predicate OwnRequest(q: Request, ctx: Context) {
    ctx.active && ("tenant_id" !in q.filters || q.filters["tenant_id"] == ctx.tenant)
  }

  /** Every dimension that is grouped or filtered by, the tenant's own aside, is one that the metric allows. */
  predicate Permitted(q: Request, allowed: set<string>) {
    && (forall dim :: dim in q.dims ==> dim in allowed)
    && (forall dim :: dim in q.filters && dim != "tenant_id" ==> dim in allowed)
  }

  /** When a request is refused, and for which reason. */
  lemma RefusalIs(q: Request, ctx: Context, now: int, registry: Registry)
    ensures var (r, m) := (Rejection(q, ctx, now, registry), registry(q.metric));
      && (r == Some(TenancyViolation) <==> !OwnRequest(q, ctx))
      && (r == Some(TemporalLeakage) <==> OwnRequest(q, ctx) && now < q.asOf)
      && (r == Some(NotRegistered) <==> OwnRequest(q, ctx) && q.asOf <= now && m == None)
      && (r == Some(InvalidDimension) <==>
            OwnRequest(q, ctx) && q.asOf <= now && m.Some? && !Permitted(q, m.value.allowed))
      && (r == None <==> OwnRequest(q, ctx) && q.asOf <= now && m.Some? && Permitted(q, m.value.allowed))
  {
  }

  // ---------------------------------------------------------------- one point

  /** What a point says of a calculated value. */
  predicate Tells(p: Point, s: Slice, dims: map<string, string>, v: Value) {
    && p.start == s.start && p.end == s.end && p.dims == dims
    && (v.denominator == Some(p.denominator) || (v.denominator == None && p.denominator == 0.0))
    && (v.numerator == Some(p.numerator) || (v.numerator == None && p.numerator == v.value))
    && (p.zeroVolume <==> v.zeroSample || p.denominator == 0.0)
    && (if p.zeroVolume then p.actual == 0.0 && p.sample == 0
        else
          && p.actual == v.value
          && (p.denominator > 0.0 ==> (p.sample as real) <= p.denominator < (p.sample as real) + 1.0)
          && (p.denominator < 0.0 ==> (p.sample as real) - 1.0 < p.denominator <= (p.sample as real)))
  }

  /** The filters of a group: its own value where it has one, else that of the request. */
  ghost predicate Combined(filters: map<string, string>, group: map<string, string>, both: map<string, string>) {
    forall k :: (k in both <==> k in filters || k in group)
      && (k in group ==> both[k] == group[k]) && (k in filters && k !in group ==> both[k] == filters[k])
  }

  /**
   * Each point of a slice tells what one calculation over the slice's dataset gives, seen from the earlier of the
   * slice's end and the watermark: one point without grouping, else one for each group, or a placeholder for none.
   */
  lemma PointsTellCalculations(j: Job, s: Slice, ps: seq<Point>, i: nat)
    returns (groups: seq<Combo>, group: map<string, string>, both: map<string, string>, until: int)
    requires SlicePoints(j, s, ps) && i < |ps|
    ensures until <= s.end && until <= j.asOf && (until == s.end || until == j.asOf)
    ensures Combined(j.filters, group, both)
    ensures if j.dims == [] then |ps| == 1 && group == map[]
            else ListsGroups(groups, SliceDataset(j.data, j.def.id, s), j.def.id, j.dims, j.filters)
    ensures if j.dims != [] && groups == [] then
              |ps| == 1
              && ps[0] == Point(s.start, s.end, map k | k in j.dims :: NONE, 0.0, 0.0, 0.0, 0, true)
            else
              (j.dims != [] ==> |ps| == |groups| && group == DictOf(groups[i]))
              && Tells(ps[i], s, group, j.def.calculate(j.tenant, SliceDataset(j.data, j.def.id, s), until, both))
  {
    hide ListsGroups, SliceDataset;
    until := if s.end <= j.asOf then s.end else j.asOf;
    group, groups := map[], [];
    if j.dims != [] {
      groups :| ListsGroups(groups, SliceDataset(j.data, j.def.id, s), j.def.id, j.dims, j.filters)
        && ps == GroupPoints(j, s, groups);
      if groups != [] { group := DictOf(groups[i]); }
    }
    both := j.filters + group;
    assert group == map[] ==> both == j.filters;
    PointTells(s, group, SliceValue(j, s, both));
    hide Tells, ToPoint;
  }

  /** No slice goes unanswered. */
  lemma EverySliceHasPoints(j: Job, s: Slice, ps: seq<Point>)
    requires SlicePoints(j, s, ps)
    ensures |ps| >= 1
  {
    hide ListsGroups;
  }

  lemma PointTells(s: Slice, dims: map<string, string>, v: Value)
    ensures Tells(ToPoint(s, dims, v), s, dims, v)
  {
  }

  // ---------------------------------------------------------------- what a record shows

  /** The value that stands for none, spelled out. */
  const NONE := "UNKNOWN_OR_UNSPECIFIED"

  /** The last customer with the id tells the tier. */
  lemma {:induction false} TierIsLast(customers: seq<Customer>, id: string, i: nat)
    requires i < |customers| && customers[i].id == id
    requires forall k :: i < k < |customers| ==> customers[k].id != id
    ensures TierOf(customers, id) == customers[i].tier
  {
    if i < |customers| - 1 { TierIsLast(customers[..|customers|-1], id, i); }
  }

  lemma {:induction false} TierUnknown(customers: seq<Customer>, id: string)
    requires forall c :: c in customers ==> c.id != id
    ensures TierOf(customers, id) == NONE
  {
    if customers != [] { TierUnknown(customers[..|customers|-1], id); }
  }

  /** A value of an order: that of one of its shipments, or unknown when it has none. */
  predicate FromShipments(d: Dataset, o: Order, field: Shipment -> string, v: string) {
    if exists s :: s in d.shipments && s.order == o.id
    then exists s :: s in d.shipments && s.order == o.id && field(s) == v
    else v == NONE
  }

  predicate FromLines(d: Dataset, o: Order, v: string) {
    if exists l :: l in d.lines && l.order == o.id
    then exists l :: l in d.lines && l.order == o.id && l.category == v
    else v == NONE
  }

  lemma OrdersShow(d: Dataset, o: Order, v: string)
    ensures v in OrderDim(d, o, "carrier_id") <==> FromShipments(d, o, (s: Shipment) => s.carrier, v)
    ensures v in OrderDim(d, o, "warehouse_id") <==> FromShipments(d, o, (s: Shipment) => s.warehouse, v)
    ensures v in OrderDim(d, o, "origin_region") <==> FromShipments(d, o, (s: Shipment) => s.origin, v)
    ensures v in OrderDim(d, o, "destination_region") <==> FromShipments(d, o, (s: Shipment) => s.destination, v)
    ensures v in OrderDim(d, o, "product_category") <==> FromLines(d, o, v)
    ensures v in OrderDim(d, o, "customer_tier") <==> v == TierOf(d.customers, o.customer)
  {
    ShipmentsShow(d, o, "carrier_id", (s: Shipment) => s.carrier, v);
    ShipmentsShow(d, o, "warehouse_id", (s: Shipment) => s.warehouse, v);
    ShipmentsShow(d, o, "origin_region", (s: Shipment) => s.origin, v);
    ShipmentsShow(d, o, "destination_region", (s: Shipment) => s.destination, v);
    LinesShow(d, o, v);
    hide Keep, TierOf, FromShipments, FromLines;
  }

  lemma OtherDimsAreUnknown(d: Dataset, o: Order, dim: string)
    requires dim !in {"carrier_id", "warehouse_id", "origin_region", "destination_region", "product_category",
                      "customer_tier"}
    ensures OrderDim(d, o, dim) == {NONE}
  {
    hide Keep, TierOf;
  }

  lemma ShipmentsShow(d: Dataset, o: Order, dim: string, field: Shipment -> string, v: string)
    requires dim in {"carrier_id", "warehouse_id", "origin_region", "destination_region"}
    requires forall s :: field(s) == ShipmentDim(s, dim)
    ensures v in OrderDim(d, o, dim) <==> FromShipments(d, o, field, v)
  {
    var ships := Keep(d.shipments, ShipmentOf(o.id));
    KeepMembers(d.shipments, ShipmentOf(o.id));
    hide Keep, TierOf, ShipmentDim;
    assert ships != [] ==> ships[0] in ships;
  }

  lemma LinesShow(d: Dataset, o: Order, v: string)
    ensures v in OrderDim(d, o, "product_category") <==> FromLines(d, o, v)
  {
    var lines := Keep(d.lines, LineOf(o.id));
    KeepMembers(d.lines, LineOf(o.id));
    hide Keep, TierOf, ShipmentDim;
    assert lines != [] ==> lines[0] in lines;
  }

  /** The other records show one value for each dimension: the field that it names. */
  lemma ShipmentShows(d: Dataset, s: Shipment, dim: string)
    ensures dim !in {"carrier_id", "warehouse_id", "origin_region", "destination_region"} ==>
      RowDim(d, ShipmentRow(s), dim) == {NONE}
    ensures RowDim(d, ShipmentRow(s), "carrier_id") == {s.carrier}
    ensures RowDim(d, ShipmentRow(s), "warehouse_id") == {s.warehouse}
    ensures RowDim(d, ShipmentRow(s), "origin_region") == {s.origin}
    ensures RowDim(d, ShipmentRow(s), "destination_region") == {s.destination}
  {
  }

  lemma PaymentShows(d: Dataset, p: Payment, dim: string)
    ensures dim !in {"gateway_provider", "transaction_type", "currency"} ==> RowDim(d, PaymentRow(p), dim) == {NONE}
    ensures RowDim(d, PaymentRow(p), "gateway_provider") == {p.provider}
    ensures RowDim(d, PaymentRow(p), "transaction_type") == {p.kind}
    ensures RowDim(d, PaymentRow(p), "currency") == {p.currency}
  {
  }

  lemma CustomerShows(d: Dataset, c: Customer, dim: string)
    ensures dim !in {"segment", "account_tier", "customer_tier", "billing_country"} ==>
      RowDim(d, CustomerRow(c), dim) == {NONE}
    ensures RowDim(d, CustomerRow(c), "segment") == {c.segment}
    ensures RowDim(d, CustomerRow(c), "account_tier") == RowDim(d, CustomerRow(c), "customer_tier") == {c.tier}
    ensures RowDim(d, CustomerRow(c), "billing_country") == {if c.country == "" then NONE else c.country}
  {
  }

  lemma TicketShows(d: Dataset, t: Ticket, dim: string)
    ensures dim !in {"topic", "priority", "customer_tier"} ==> RowDim(d, TicketRow(t), dim) == {NONE}
    ensures RowDim(d, TicketRow(t), "topic") == {t.topic}
    ensures RowDim(d, TicketRow(t), "priority") == {t.priority}
    ensures RowDim(d, TicketRow(t), "customer_tier") == {TierOf(d.customers, t.customer)}
  {
  }

  /** The record kind a metric is grouped by; other metrics have no groups. */
  lemma RoutedEntity(d: Dataset, metric: string, row: Row)
    ensures row in Rows(d, metric) <==>
      || (metric in {"METRIC-001", "METRIC-002", "METRIC-004", "METRIC-007"} && row.OrderRow? && row.order in d.orders)
      || (metric in {"METRIC-003", "METRIC-008"} && row.ShipmentRow? && row.shipment in d.shipments)
      || (metric == "METRIC-005" && row.PaymentRow? && row.payment in d.payments)
      || (metric == "METRIC-006" && row.CustomerRow? && row.customer in d.customers)
      || (metric == "METRIC-009" && row.TicketRow? && row.ticket in d.tickets)
  {
    var rows := Rows(d, metric);
    if row in rows {
      var i :| 0 <= i < |rows| && rows[i] == row;
    }
    match row {
      case OrderRow(o) =>
        if i :| 0 <= i < |d.orders| && d.orders[i] == o && i < |rows| { assert rows[i] in rows; }
      case ShipmentRow(s) =>
        if i :| 0 <= i < |d.shipments| && d.shipments[i] == s && i < |rows| { assert rows[i] in rows; }
      case PaymentRow(p) =>
        if i :| 0 <= i < |d.payments| && d.payments[i] == p && i < |rows| { assert rows[i] in rows; }
      case CustomerRow(c) =>
        if i :| 0 <= i < |d.customers| && d.customers[i] == c && i < |rows| { assert rows[i] in rows; }
      case TicketRow(t) =>
        if i :| 0 <= i < |d.tickets| && d.tickets[i] == t && i < |rows| { assert rows[i] in rows; }
    }
  }

  // ---------------------------------------------------------------- groups

  /** No pair behind this one has the same dimension. */
  predicate IsLastPair(c: Combo, i: nat) {
    i < |c| && forall k :: i < k < |c| ==> c[k].dim != c[i].dim
  }

  lemma {:induction false} DictHasLast(c: Combo, i: nat)
    requires IsLastPair(c, i)
    ensures c[i].dim in DictOf(c) && DictOf(c)[c[i].dim] == c[i].value
  {
    if i < |c| - 1 {
      assert c[..|c|-1][i] == c[i];
      DictHasLast(c[..|c|-1], i);
    }
  }

  lemma {:induction false} DictIsFromLast(c: Combo, dim: string) returns (i: nat)
    requires dim in DictOf(c)
    ensures IsLastPair(c, i) && c[i].dim == dim
  {
    var n := |c| - 1;
    if c[n].dim == dim {
      i := n;
    } else {
      i := DictIsFromLast(c[..n], dim);
      forall k | i < k < |c| ensures c[k].dim != c[i].dim {
        if k < n { assert c[..n][k] == c[k]; }
      }
    }
  }

  /** Where a dimension is filtered, the last pair of the combination with this dimension has the filter's value. */
  predicate Passes(c: Combo, filters: map<string, string>) {
    forall i :: 0 <= i < |c| && IsLastPair(c, i) && c[i].dim in filters ==> c[i].value == filters[c[i].dim]
  }

  lemma MatchesIffPasses(c: Combo, filters: map<string, string>)
    ensures Matches(c, filters) <==> Passes(c, filters)
  {
    hide DictOf, IsLastPair;
    forall i | 0 <= i < |c| && IsLastPair(c, i)
      ensures c[i].dim in DictOf(c) && DictOf(c)[c[i].dim] == c[i].value
    {
      DictHasLast(c, i);
    }
    forall k | k in DictOf(c) ensures exists i :: 0 <= i < |c| && IsLastPair(c, i) && c[i].dim == k {
      var i := DictIsFromLast(c, k);
      LastPairInRange(c, i);
    }
  }

  lemma LastPairInRange(c: Combo, i: nat)
    requires IsLastPair(c, i)
    ensures i < |c|
  {
  }

  /** Every group comes from a record of the metric's kind that shows its values and passes the filters. */
  lemma GroupComesFromRecord(groups: seq<Combo>, d: Dataset, metric: string, dims: seq<string>,
                             filters: map<string, string>, g: Combo)
    returns (row: Row, c: Combo)
    requires ListsGroups(groups, d, metric, dims, filters) && g in groups
    ensures row in Rows(d, metric) && Passes(c, filters) && multiset(g) == multiset(c) && SortedBy(g, PairLeq)
    ensures |c| == |dims|
    ensures forall i :: 0 <= i < |c| ==> c[i].dim == dims[i] && c[i].value in RowDim(d, row, dims[i])
  {
    hide DictOf, Sort, RowDim, Rows, Passes, Matches, PairLeq;
    var rows := Rows(d, metric);
    var n, shown :| 0 <= n < |rows| && Shows(d, rows[n], dims, shown) && Matches(shown, filters)
      && g == Sort(shown, PairLeq);
    row, c := rows[n], shown;
    MatchesIffPasses(c, filters);
    PairsAreOrdered();
    SortSorts(c, PairLeq);
    SortKeepsElements(c, PairLeq);
  }

  lemma PairsAreOrdered()
    ensures TotalPreorder(PairLeq)
  {
    forall a: Pair, b: Pair ensures PairLeq(a, b) || PairLeq(b, a) { PairTotal(a, b); }
    forall a: Pair, b: Pair, c: Pair | PairLeq(a, b) && PairLeq(b, c) ensures PairLeq(a, c) { PairTransitive(a, b, c); }
  }

  /** And every such record gives one of the groups. */
  lemma RecordGivesGroup(groups: seq<Combo>, d: Dataset, metric: string, dims: seq<string>,
                         filters: map<string, string>, row: Row, c: Combo)
    requires ListsGroups(groups, d, metric, dims, filters) && row in Rows(d, metric) && |c| == |dims|
    requires Passes(c, filters)
    requires forall i :: 0 <= i < |c| ==> c[i].dim == dims[i] && c[i].value in RowDim(d, row, dims[i])
    ensures exists g :: g in groups && multiset(g) == multiset(c)
  {
    hide DictOf, Sort, RowDim, Rows, Passes, Matches, PairLeq;
    var rows := Rows(d, metric);
    var n :| 0 <= n < |rows| && rows[n] == row;
    MatchesIffPasses(c, filters);
    assert Shows(d, rows[n], dims, c);
    SortKeepsElements(c, PairLeq);
    assert IsGroup(rows, d, dims, filters, Sort(c, PairLeq));
  }
}
