/** The records behind a metric, and the cuts the gateway makes before anything is computed. */
module MetricData {
  import opened TimeSlices

  /** `rest` stands for the attributes that only a metric's own calculation reads. */
  datatype Customer = Customer(tenant: string, id: string, at: int, segment: string, tier: string, country: string,
                               rest: string)

  datatype Order = Order(tenant: string, id: string, at: int, customer: string, rest: string)

  datatype OrderLine = OrderLine(tenant: string, id: string, at: int, order: string, category: string, rest: string)

  datatype Shipment = Shipment(tenant: string, id: string, at: int, order: string, carrier: string, warehouse: string,
                               origin: string, destination: string, rest: string)

  datatype Ticket = Ticket(tenant: string, id: string, at: int, customer: string, topic: string, priority: string,
                           rest: string)

  datatype Payment = Payment(tenant: string, id: string, at: int, processedAt: int, provider: string, kind: string,
                             currency: string, rest: string)

  /** Maintenance events, contracts and contract clauses. */
  datatype Other = Other(tenant: string, id: string, at: int, rest: string)

  datatype Dataset = Dataset(
    customers: seq<Customer>, orders: seq<Order>, lines: seq<OrderLine>, shipments: seq<Shipment>, tickets: seq<Ticket>,
    maintenance: seq<Other>, contracts: seq<Other>, clauses: seq<Other>, payments: seq<Payment>)

  /** The elements that satisfy a test, in order. */
  function Keep<T>(s: seq<T>, test: T -> bool): seq<T> {
    if s == [] then [] else Keep(s[..|s|-1], test) + (if test(s[|s|-1]) then [s[|s|-1]] else [])
  }

  lemma {:induction false} KeepMembers<T>(s: seq<T>, test: T -> bool)
    ensures forall x :: x in Keep(s, test) <==> x in s && test(x)
  {
    if s != [] {
      KeepMembers(s[..|s|-1], test);
      assert s == s[..|s|-1] + [s[|s|-1]];
    }
  }

  lemma KeepLast<T>(s: seq<T>, x: T, test: T -> bool)
    ensures Keep(s + [x], test) == Keep(s, test) + (if test(x) then [x] else [])
  {
    assert (s + [x])[..|s|] == s;
  }

  lemma {:induction false} KeepSplits<T>(s: seq<T>, t: seq<T>, test: T -> bool)
    ensures Keep(s + t, test) == Keep(s, test) + Keep(t, test)
  {
    if t == [] {
      assert s + t == s;
    } else {
      var init, x := t[..|t|-1], t[|t|-1];
      KeepSplits(s, init, test);
      KeepLast(s + init, x, test);
      assert s + t == s + init + [x];
    }
  }

  lemma KeepSkips<T>(s: seq<T>, n: nat, x: T, test: T -> bool)
    requires n <= |s| && !test(x)
    ensures Keep(s[..n] + [x] + s[n..], test) == Keep(s, test)
  {
    assert s == s[..n] + s[n..];
    KeepSplits(s[..n], s[n..], test);
    KeepSplits(s[..n] + [x], s[n..], test);
    KeepLast(s[..n], x, test);
  }

  lemma {:induction false} KeepTwice<T>(s: seq<T>, test: T -> bool)
    ensures Keep(Keep(s, test), test) == Keep(s, test)
  {
    if s != [] {
      var init, x := s[..|s|-1], s[|s|-1];
      KeepTwice(init, test);
      if test(x) {
        KeepLast(Keep(init, test), x, test);
      } else {
        assert Keep(s, test) == Keep(init, test);
      }
    }
  }

  // ---------------------------------------------------------------- tenant and watermark

  function CustomerSeen(tenant: string, asOf: int): Customer -> bool {
    (c: Customer) => c.tenant == tenant && c.at <= asOf
  }

  function OrderSeen(tenant: string, asOf: int): Order -> bool {
    (o: Order) => o.tenant == tenant && o.at <= asOf
  }

  function LineSeen(tenant: string, asOf: int): OrderLine -> bool {
    (l: OrderLine) => l.tenant == tenant && l.at <= asOf
  }

  function ShipmentSeen(tenant: string, asOf: int): Shipment -> bool {
    (s: Shipment) => s.tenant == tenant && s.at <= asOf
  }

  function TicketSeen(tenant: string, asOf: int): Ticket -> bool {
    (t: Ticket) => t.tenant == tenant && t.at <= asOf
  }

  function OtherSeen(tenant: string, asOf: int): Other -> bool {
    (x: Other) => x.tenant == tenant && x.at <= asOf
  }

  function PaymentSeen(tenant: string, asOf: int): Payment -> bool {
    (p: Payment) => p.tenant == tenant && p.processedAt <= asOf
  }

  function FilterTenantAndAsOf(d: Dataset, tenant: string, asOf: int): Dataset {
    Dataset(
      Keep(d.customers, CustomerSeen(tenant, asOf)),
      Keep(d.orders, OrderSeen(tenant, asOf)),
      Keep(d.lines, LineSeen(tenant, asOf)),
      Keep(d.shipments, ShipmentSeen(tenant, asOf)),
      Keep(d.tickets, TicketSeen(tenant, asOf)),
      Keep(d.maintenance, OtherSeen(tenant, asOf)),
      Keep(d.contracts, OtherSeen(tenant, asOf)),
      Keep(d.clauses, OtherSeen(tenant, asOf)),
      Keep(d.payments, PaymentSeen(tenant, asOf)))
  }

  /** Every record belongs to the tenant and happened by the watermark. */
  ghost predicate OwnAndPast(d: Dataset, tenant: string, asOf: int) {
    && (forall c :: c in d.customers ==> c.tenant == tenant && c.at <= asOf)
    && (forall o :: o in d.orders ==> o.tenant == tenant && o.at <= asOf)
    && (forall l :: l in d.lines ==> l.tenant == tenant && l.at <= asOf)
    && (forall s :: s in d.shipments ==> s.tenant == tenant && s.at <= asOf)
    && (forall t :: t in d.tickets ==> t.tenant == tenant && t.at <= asOf)
    && (forall x :: x in d.maintenance ==> x.tenant == tenant && x.at <= asOf)
    && (forall x :: x in d.contracts ==> x.tenant == tenant && x.at <= asOf)
    && (forall x :: x in d.clauses ==> x.tenant == tenant && x.at <= asOf)
    && (forall p :: p in d.payments ==> p.tenant == tenant && p.processedAt <= asOf)
  }

  lemma FilteredIsOwnAndPast(d: Dataset, tenant: string, asOf: int)
    ensures OwnAndPast(FilterTenantAndAsOf(d, tenant, asOf), tenant, asOf)
  {
    hide Keep;
    KeepMembers(d.customers, CustomerSeen(tenant, asOf));
    KeepMembers(d.orders, OrderSeen(tenant, asOf));
    KeepMembers(d.lines, LineSeen(tenant, asOf));
    KeepMembers(d.shipments, ShipmentSeen(tenant, asOf));
    KeepMembers(d.tickets, TicketSeen(tenant, asOf));
    KeepMembers(d.maintenance, OtherSeen(tenant, asOf));
    KeepMembers(d.contracts, OtherSeen(tenant, asOf));
    KeepMembers(d.clauses, OtherSeen(tenant, asOf));
    KeepMembers(d.payments, PaymentSeen(tenant, asOf));
  }

  /** Cutting a second time takes nothing more away, from any of the nine tables. */
  lemma FilteringTwiceIsOnce(d: Dataset, tenant: string, asOf: int)
    ensures var cut := FilterTenantAndAsOf(d, tenant, asOf);
      FilterTenantAndAsOf(cut, tenant, asOf) == cut
  {
    hide Keep;
    KeepTwice(d.customers, CustomerSeen(tenant, asOf));
    KeepTwice(d.orders, OrderSeen(tenant, asOf));
    KeepTwice(d.lines, LineSeen(tenant, asOf));
    KeepTwice(d.shipments, ShipmentSeen(tenant, asOf));
    KeepTwice(d.tickets, TicketSeen(tenant, asOf));
    KeepTwice(d.maintenance, OtherSeen(tenant, asOf));
    KeepTwice(d.contracts, OtherSeen(tenant, asOf));
    KeepTwice(d.clauses, OtherSeen(tenant, asOf));
    KeepTwice(d.payments, PaymentSeen(tenant, asOf));
  }

  // ---------------------------------------------------------------- one slice

  function OrdersWithin(s: Slice): Order -> bool { (o: Order) => Within(o.at, s) }
  function ShipmentsWithin(s: Slice): Shipment -> bool { (x: Shipment) => Within(x.at, s) }
  function TicketsWithin(s: Slice): Ticket -> bool { (t: Ticket) => Within(t.at, s) }
  function PaymentsWithin(s: Slice): Payment -> bool { (p: Payment) => Within(p.processedAt, s) }
  function CustomersWithin(s: Slice): Customer -> bool { (c: Customer) => Within(c.at, s) }
  function OrdersBy(end: int): Order -> bool { (o: Order) => o.at <= end }
  function ShipmentsBy(end: int): Shipment -> bool { (x: Shipment) => x.at <= end }
  function TicketsBy(end: int): Ticket -> bool { (t: Ticket) => t.at <= end }

  /**
   * Revenue at risk is a snapshot up to the slice's end; other metrics see the slice, but all customers when it has
   * none.
   */
  function SliceDataset(d: Dataset, metric: string, s: Slice): Dataset {
    if metric == "METRIC-002" then
      d.(orders := Keep(d.orders, OrdersBy(s.end)), shipments := Keep(d.shipments, ShipmentsBy(s.end)),
        tickets := Keep(d.tickets, TicketsBy(s.end)))
    else
      var customers := Keep(d.customers, CustomersWithin(s));
      d.(orders := Keep(d.orders, OrdersWithin(s)), shipments := Keep(d.shipments, ShipmentsWithin(s)),
         tickets := Keep(d.tickets, TicketsWithin(s)), payments := Keep(d.payments, PaymentsWithin(s)),
         customers := if customers != [] then customers else d.customers)
  }

  /** A slice of own, past data holds only own, past data. */
  lemma SliceIsOwnAndPast(d: Dataset, metric: string, s: Slice, tenant: string, asOf: int)
    requires OwnAndPast(d, tenant, asOf)
    ensures OwnAndPast(SliceDataset(d, metric, s), tenant, asOf)
  {
    hide Keep;
    KeepMembers(d.orders, OrdersBy(s.end));
    KeepMembers(d.shipments, ShipmentsBy(s.end));
    KeepMembers(d.tickets, TicketsBy(s.end));
    KeepMembers(d.orders, OrdersWithin(s));
    KeepMembers(d.shipments, ShipmentsWithin(s));
    KeepMembers(d.tickets, TicketsWithin(s));
    KeepMembers(d.payments, PaymentsWithin(s));
    KeepMembers(d.customers, CustomersWithin(s));
  }

  // ---------------------------------------------------------------- counting over the slices

  /** How many orders the datasets of the slices hold together. */
  function OrdersOverSlices(d: Dataset, metric: string, slices: seq<Slice>): nat {
    if slices == [] then 0
    else OrdersOverSlices(d, metric, slices[..|slices|-1]) + |SliceDataset(d, metric, slices[|slices|-1]).orders|
  }

  function InWindow(start: int, end: int): Order -> bool { (o: Order) => start <= o.at <= end }

  function AtBoundary(start: int, end: int, step: int): Order -> bool
    requires step > 0
  {
    (o: Order) => OnBoundary(o.at, start, end, step)
  }

  lemma {:induction false} OneMoreOrder(d: Dataset, o: Order, metric: string, slices: seq<Slice>)
    requires metric != "METRIC-002"
    ensures OrdersOverSlices(d.(orders := d.orders + [o]), metric, slices)
      == OrdersOverSlices(d, metric, slices) + Hits(slices, o.at)
  {
    if slices != [] {
      OneMoreOrder(d, o, metric, slices[..|slices|-1]);
      KeepLast(d.orders, o, OrdersWithin(slices[|slices|-1]));
    }
  }

  lemma {:induction false} NoOrders(d: Dataset, metric: string, slices: seq<Slice>)
    requires d.orders == []
    ensures OrdersOverSlices(d, metric, slices) == 0
  {
    if slices != [] { NoOrders(d, metric, slices[..|slices|-1]); }
  }

  /**
   * Added up over the datasets of a tiled window, each in-window order is counted once, and once more exactly when it
   * sits where two slices meet.
   */
  lemma {:induction false} OrdersAreConserved(d: Dataset, metric: string, slices: seq<Slice>, start: int, end: int,
                                              step: int)
    requires step > 0 && Tiles(slices, start, end, step) && metric != "METRIC-002"
    ensures OrdersOverSlices(d, metric, slices)
      == |Keep(d.orders, InWindow(start, end))| + |Keep(d.orders, AtBoundary(start, end, step))|
    decreases |d.orders|
  {
    if d.orders == [] {
      NoOrders(d, metric, slices);
    } else {
      var init, o := d.orders[..|d.orders|-1], d.orders[|d.orders|-1];
      OrdersAreConserved(d.(orders := init), metric, slices, start, end, step);
      OneMoreOrder(d.(orders := init), o, metric, slices);
      HitsInWindow(slices, start, end, step, o.at);
      assert d == d.(orders := init).(orders := init + [o]);
    }
  }
}
