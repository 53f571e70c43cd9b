/** The groups of a query: the distinct dimension combinations that the records of a slice show. */
module MetricGroups {
  import opened StringOrder
  import opened Sequences
  import opened StableSort
  import opened CartesianProduct
  import opened MetricData

  const UNKNOWN := "UNKNOWN_OR_UNSPECIFIED"

  datatype Pair = Pair(dim: string, value: string)

  type Combo = seq<Pair>

  // ---------------------------------------------------------------- orders on pairs and combinations

  predicate PairLeq(a: Pair, b: Pair) {
    if a.dim != b.dim then KeyLeq(a.dim, b.dim) else KeyLeq(a.value, b.value)
  }

  predicate ComboLeq(a: Combo, b: Combo) {
    if a == [] then true
    else if b == [] then false
    else if a[0] != b[0] then PairLeq(a[0], b[0])
    else ComboLeq(a[1..], b[1..])
  }

  lemma PairTotal(a: Pair, b: Pair)
    ensures PairLeq(a, b) || PairLeq(b, a)
    ensures PairLeq(a, b) && PairLeq(b, a) ==> a == b
  {
    KeyLeqTotal(a.dim, b.dim);
    KeyLeqTotal(a.value, b.value);
  }

  lemma PairTransitive(a: Pair, b: Pair, c: Pair)
    requires PairLeq(a, b) && PairLeq(b, c)
    ensures PairLeq(a, c)
  {
    KeyLeqTotal(a.dim, b.dim);
    if a.dim == b.dim == c.dim {
      KeyLeqTransitive(a.value, b.value, c.value);
    } else if a.dim != b.dim && b.dim != c.dim {
      KeyLeqTransitive(a.dim, b.dim, c.dim);
    }
  }

  lemma {:induction false} ComboTotal(a: Combo, b: Combo)
    ensures ComboLeq(a, b) || ComboLeq(b, a)
    ensures ComboLeq(a, b) && ComboLeq(b, a) ==> a == b
  {
    if a != [] && b != [] {
      PairTotal(a[0], b[0]);
      ComboTotal(a[1..], b[1..]);
      assert a == [a[0]] + a[1..] && b == [b[0]] + b[1..];
    }
  }

  lemma {:induction false} ComboTransitive(a: Combo, b: Combo, c: Combo)
    requires ComboLeq(a, b) && ComboLeq(b, c)
    ensures ComboLeq(a, c)
  {
    if a != [] && b != [] && c != [] {
      PairTotal(a[0], b[0]);
      PairTotal(b[0], c[0]);
      if a[0] == b[0] == c[0] {
        ComboTransitive(a[1..], b[1..], c[1..]);
      } else if a[0] != b[0] && b[0] != c[0] {
        PairTransitive(a[0], b[0], c[0]);
      }
    }
  }

  lemma CombosAreOrdered()
    ensures TotalPreorder(ComboLeq)
  {
    forall a: Combo, b: Combo ensures ComboLeq(a, b) || ComboLeq(b, a) { ComboTotal(a, b); }
    forall a: Combo, b: Combo, c: Combo | ComboLeq(a, b) && ComboLeq(b, c)
      ensures ComboLeq(a, c)
    {
      ComboTransitive(a, b, c);
    }
  }

  lemma CombosAreUntied(groups: seq<Combo>)
    ensures Untied(groups, ComboLeq)
  {
    forall a, b | a in groups && b in groups && ComboLeq(a, b) && ComboLeq(b, a) ensures a == b {
      ComboTotal(a, b);
    }
  }

  // ---------------------------------------------------------------- the dimensions of a record

  /** A record of the entity that a metric is grouped by. */
  datatype Row =
    | OrderRow(order: Order) | ShipmentRow(shipment: Shipment) | PaymentRow(payment: Payment)
    | CustomerRow(customer: Customer) | TicketRow(ticket: Ticket)

  /** The last customer with the id, as in a dictionary built in order. */
  function TierOf(customers: seq<Customer>, id: string): string {
    if customers == [] then UNKNOWN
    else if customers[|customers|-1].id == id then customers[|customers|-1].tier
    else TierOf(customers[..|customers|-1], id)
  }

  function ShipmentDim(s: Shipment, dim: string): string {
    if dim == "carrier_id" then s.carrier
    else if dim == "warehouse_id" then s.warehouse
    else if dim == "origin_region" then s.origin
    else if dim == "destination_region" then s.destination
    else UNKNOWN
  }

  function PaymentDim(p: Payment, dim: string): string {
    if dim == "gateway_provider" then p.provider
    else if dim == "transaction_type" then p.kind
    else if dim == "currency" then p.currency
    else UNKNOWN
  }

  function CustomerDim(c: Customer, dim: string): string {
    if dim == "segment" then c.segment
    else if dim == "account_tier" || dim == "customer_tier" then c.tier
    else if dim == "billing_country" then (if c.country == "" then UNKNOWN else c.country)
    else UNKNOWN
  }

  function TicketDim(d: Dataset, t: Ticket, dim: string): string {
    if dim == "topic" then t.topic
    else if dim == "priority" then t.priority
    else if dim == "customer_tier" then TierOf(d.customers, t.customer)
    else UNKNOWN
  }

  function ShipmentOf(order: string): Shipment -> bool { (s: Shipment) => s.order == order }
  function LineOf(order: string): OrderLine -> bool { (l: OrderLine) => l.order == order }

  predicate IsShipmentDim(dim: string) {
    dim == "carrier_id" || dim == "warehouse_id" || dim == "origin_region" || dim == "destination_region"
  }

  /** An order takes a dimension from its customer, its shipments or its lines, so it may have several values. */
  function OrderDim(d: Dataset, o: Order, dim: string): set<string> {
    if dim == "customer_tier" then {TierOf(d.customers, o.customer)}
    else if IsShipmentDim(dim) then
      var ships := Keep(d.shipments, ShipmentOf(o.id));
      if ships == [] then {UNKNOWN} else set s | s in ships :: ShipmentDim(s, dim)
    else if dim == "product_category" then
      var lines := Keep(d.lines, LineOf(o.id));
      if lines == [] then {UNKNOWN} else set l | l in lines :: l.category
    else {UNKNOWN}
  }

  function RowDim(d: Dataset, row: Row, dim: string): set<string> {
    match row
    case OrderRow(o) => OrderDim(d, o, dim)
    case ShipmentRow(s) => {ShipmentDim(s, dim)}
    case PaymentRow(p) => {PaymentDim(p, dim)}
    case CustomerRow(c) => {CustomerDim(c, dim)}
    case TicketRow(t) => {TicketDim(d, t, dim)}
  }

  /** A metric is grouped by one kind of record, or by none. */
  function Rows(d: Dataset, metric: string): seq<Row> {
    if metric in {"METRIC-001", "METRIC-002", "METRIC-004", "METRIC-007"} then
      seq(|d.orders|, i requires 0 <= i < |d.orders| => OrderRow(d.orders[i]))
    else if metric in {"METRIC-003", "METRIC-008"} then
      seq(|d.shipments|, i requires 0 <= i < |d.shipments| => ShipmentRow(d.shipments[i]))
    else if metric == "METRIC-005" then
      seq(|d.payments|, i requires 0 <= i < |d.payments| => PaymentRow(d.payments[i]))
    else if metric == "METRIC-006" then
      seq(|d.customers|, i requires 0 <= i < |d.customers| => CustomerRow(d.customers[i]))
    else if metric == "METRIC-009" then
      seq(|d.tickets|, i requires 0 <= i < |d.tickets| => TicketRow(d.tickets[i]))
    else []
  }

  // ---------------------------------------------------------------- which groups there should be

  /** A dictionary of the pairs; of two with the same dimension the later counts. */
  function DictOf(c: Combo): map<string, string> {
    if c == [] then map[] else DictOf(c[..|c|-1])[c[|c|-1].dim := c[|c|-1].value]
  }

  predicate Matches(c: Combo, filters: map<string, string>) {
    forall k :: k in filters && k in DictOf(c) ==> DictOf(c)[k] == filters[k]
  }

  /** The record shows this value for each dimension asked for. */
  predicate Shows(d: Dataset, row: Row, dims: seq<string>, c: Combo) {
    |c| == |dims| && forall i :: 0 <= i < |c| ==> c[i].dim == dims[i] && c[i].value in RowDim(d, row, dims[i])
  }

  /** A group is a shown combination that passes the filters, with its pairs sorted. */
  ghost predicate IsGroup(rows: seq<Row>, d: Dataset, dims: seq<string>, filters: map<string, string>, g: Combo) {
    exists n, c :: 0 <= n < |rows| && Shows(d, rows[n], dims, c) && Matches(c, filters) && g == Sort(c, PairLeq)
  }

  /** Exactly the groups, each once, in lexicographic order. */
  ghost predicate ListsGroups(groups: seq<Combo>, d: Dataset, metric: string, dims: seq<string>,
                              filters: map<string, string>)
  {
    && (forall g :: g in groups <==> IsGroup(Rows(d, metric), d, dims, filters, g))
    && Distinct(groups) && SortedBy(groups, ComboLeq)
  }

  /** Hence there is only one such list. */
  lemma GroupsAreUnique(g: seq<Combo>, h: seq<Combo>, d: Dataset, metric: string, dims: seq<string>,
                        filters: map<string, string>)
    requires ListsGroups(g, d, metric, dims, filters) && ListsGroups(h, d, metric, dims, filters)
    ensures g == h
  {
    hide IsGroup, Rows, ComboLeq;
    CombosAreOrdered();
    CombosAreUntied(g);
    SortedListIsUnique(g, h, ComboLeq);
  }

  // ---------------------------------------------------------------- extracting them

  lemma {:induction false} DictMembers(c: Combo)
    ensures forall k :: k in DictOf(c) ==> Pair(k, DictOf(c)[k]) in c
    ensures forall p :: p in c ==> p.dim in DictOf(c)
  {
    if c != [] {
      DictMembers(c[..|c|-1]);
      assert c == c[..|c|-1] + [c[|c|-1]];
    }
  }

  /** No dimension has two values. */
  predicate SingleValued(c: Combo) {
    forall p, q :: p in c && q in c && p.dim == q.dim ==> p == q
  }

  /** With one value per dimension, sorting the pairs does not change the dictionary. */
  lemma SortedReadsAlike(c: Combo, filters: map<string, string>)
    requires SingleValued(c)
    ensures DictOf(Sort(c, PairLeq)) == DictOf(c)
    ensures Matches(Sort(c, PairLeq), filters) <==> Matches(c, filters)
  {
    SortMembers(c, PairLeq);
    DictMembers(c);
    DictMembers(Sort(c, PairLeq));
    hide DictOf, Sort;
    var d, e := DictOf(c), DictOf(Sort(c, PairLeq));
    forall k ensures k in d <==> k in e {
      if k in d { assert Pair(k, d[k]) in Sort(c, PairLeq); }
      if k in e { assert Pair(k, e[k]) in c; }
    }
    forall k | k in d && k in e ensures d[k] == e[k] {
      assert Pair(k, d[k]) in c && Pair(k, e[k]) in c;
    }
    assert d == e;
  }

  method ListSet<T(==)>(s: set<T>) returns (q: seq<T>)
    ensures (forall x :: x in q <==> x in s) && Distinct(q)
  {
    q := [];
    var rest := s;
    while rest != {}
      invariant rest <= s && (forall x :: x in q <==> x in s && x !in rest) && Distinct(q)
    {
      var x :| x in rest;
      q := q + [x];
      rest := rest - {x};
    }
  }

  /** One pool per dimension, its values in no particular order. */
  method OrderPools(d: Dataset, o: Order, dims: seq<string>) returns (pools: seq<seq<Pair>>)
    ensures |pools| == |dims|
    ensures forall i :: 0 <= i < |dims| ==> forall p :: p in pools[i] <==>
      p.dim == dims[i] && p.value in OrderDim(d, o, dims[i])
  {
    hide OrderDim;
    pools := [];
    for n := 0 to |dims|
      invariant |pools| == n
      invariant forall i :: 0 <= i < n ==> forall p :: p in pools[i] <==>
        p.dim == dims[i] && p.value in OrderDim(d, o, dims[i])
    {
      var vals := ListSet(OrderDim(d, o, dims[n]));
      var pool := seq(|vals|, i requires 0 <= i < |vals| => Pair(dims[n], vals[i]));
      forall p ensures p in pool <==> p.dim == dims[n] && p.value in OrderDim(d, o, dims[n]) {
        if p in pool {
          var i :| 0 <= i < |pool| && pool[i] == p;
          assert vals[i] in vals;
        }
        if p.dim == dims[n] && p.value in OrderDim(d, o, dims[n]) {
          var i :| 0 <= i < |vals| && vals[i] == p.value;
          assert pool[i] == p;
        }
      }
      pools := pools + [pool];
    }
  }

  /** The combinations an order shows, by the product of its pools. */
  method OrderCombos(d: Dataset, o: Order, dims: seq<string>) returns (combos: seq<Combo>)
    requires dims != []
    ensures forall c :: c in combos <==> Shows(d, OrderRow(o), dims, c)
  {
    hide OrderDim;
    var pools := OrderPools(d, o, dims);
    combos := Compute(pools);
    forall c ensures c in combos <==> Shows(d, OrderRow(o), dims, c) {
      ProductHolds(pools, c);
    }
  }

  /** The one combination that any other record shows. */
  function OnlyCombo(d: Dataset, row: Row, dims: seq<string>): Combo {
    seq(|dims|, i requires 0 <= i < |dims| => Pair(dims[i], OnlyValue(d, row, dims[i])))
  }

  function OnlyValue(d: Dataset, row: Row, dim: string): string {
    match row
    case OrderRow(_) => UNKNOWN
    case ShipmentRow(s) => ShipmentDim(s, dim)
    case PaymentRow(p) => PaymentDim(p, dim)
    case CustomerRow(c) => CustomerDim(c, dim)
    case TicketRow(t) => TicketDim(d, t, dim)
  }

  lemma OnlyComboShows(d: Dataset, row: Row, dims: seq<string>)
    requires !row.OrderRow?
    ensures SingleValued(OnlyCombo(d, row, dims))
    ensures forall c :: Shows(d, row, dims, c) <==> c == OnlyCombo(d, row, dims)
  {
    var only := OnlyCombo(d, row, dims);
    assert forall dim :: RowDim(d, row, dim) == {OnlyValue(d, row, dim)};
    hide OnlyValue, RowDim;
    forall c: Combo | Shows(d, row, dims, c) ensures c == only {
      forall i | 0 <= i < |c| ensures c[i] == only[i] {
        assert c[i].value in RowDim(d, row, dims[i]);
      }
    }
  }

  /** The groups that one record adds. */
  ghost predicate AddedBy(d: Dataset, row: Row, dims: seq<string>, filters: map<string, string>, g: Combo) {
    exists c :: Shows(d, row, dims, c) && Matches(c, filters) && g == Sort(c, PairLeq)
  }

  method AddOrder(d: Dataset, o: Order, dims: seq<string>, filters: map<string, string>, seen: set<Combo>)
    returns (more: set<Combo>)
    requires dims != []
    ensures forall g :: g in more <==> g in seen || AddedBy(d, OrderRow(o), dims, filters, g)
  {
    hide Matches, Shows, Sort;
    var combos := OrderCombos(d, o, dims);
    more := seen;
    for i := 0 to |combos|
      invariant forall g :: g in more <==>
        g in seen || exists j :: 0 <= j < i && Matches(combos[j], filters) && g == Sort(combos[j], PairLeq)
    {
      if Matches(combos[i], filters) {
        more := more + {Sort(combos[i], PairLeq)};
      }
    }
    forall g ensures g in more <==> g in seen || AddedBy(d, OrderRow(o), dims, filters, g) {
      if j :| 0 <= j < |combos| && Matches(combos[j], filters) && g == Sort(combos[j], PairLeq) {
        assert combos[j] in combos && Shows(d, OrderRow(o), dims, combos[j]);
      }
      if AddedBy(d, OrderRow(o), dims, filters, g) {
        var c :| Shows(d, OrderRow(o), dims, c) && Matches(c, filters) && g == Sort(c, PairLeq);
        assert c in combos;
      }
    }
  }

  method AddOther(d: Dataset, row: Row, dims: seq<string>, filters: map<string, string>, seen: set<Combo>)
    returns (more: set<Combo>)
    requires !row.OrderRow?
    ensures forall g :: g in more <==> g in seen || AddedBy(d, row, dims, filters, g)
  {
    hide Matches, Shows, Sort, OnlyCombo, SingleValued;
    OnlyComboShows(d, row, dims);
    var combo := Sort(OnlyCombo(d, row, dims), PairLeq);
    SortedReadsAlike(OnlyCombo(d, row, dims), filters);
    more := if Matches(combo, filters) then seen + {combo} else seen;
  }

  lemma OneMoreRow(rows: seq<Row>, n: nat, d: Dataset, dims: seq<string>, filters: map<string, string>, g: Combo)
    requires n < |rows|
    ensures IsGroup(rows[..n+1], d, dims, filters, g) <==>
      IsGroup(rows[..n], d, dims, filters, g) || AddedBy(d, rows[n], dims, filters, g)
  {
    hide Matches, Shows, Sort;
    if IsGroup(rows[..n], d, dims, filters, g) {
      var i, c :| 0 <= i < n && Shows(d, rows[..n][i], dims, c) && Matches(c, filters) && g == Sort(c, PairLeq);
      assert rows[..n+1][i] == rows[..n][i];
    }
    if AddedBy(d, rows[n], dims, filters, g) {
      assert rows[..n+1][n] == rows[n];
    }
    if IsGroup(rows[..n+1], d, dims, filters, g) {
      var i, c :| 0 <= i < n + 1 && Shows(d, rows[..n+1][i], dims, c) && Matches(c, filters) && g == Sort(c, PairLeq);
      if i < n { assert rows[..n][i] == rows[..n+1][i]; }
    }
  }

  method ExtractGroups(d: Dataset, metric: string, dims: seq<string>, filters: map<string, string>)
    returns (groups: seq<Combo>)
    requires dims != []
    ensures ListsGroups(groups, d, metric, dims, filters)
  {
    hide Rows, AddedBy, IsGroup, Sort;
    var rows := Rows(d, metric);
    var seen: set<Combo> := {};
    NoRows(d, dims, filters);
    for n := 0 to |rows|
      invariant forall g :: g in seen <==> IsGroup(rows[..n], d, dims, filters, g)
    {
      ghost var before := seen;
      match rows[n] {
        case OrderRow(o) => seen := AddOrder(d, o, dims, filters, seen);
        case _ => seen := AddOther(d, rows[n], dims, filters, seen);
      }
      forall g ensures g in seen <==> IsGroup(rows[..n+1], d, dims, filters, g) {
        OneMoreRow(rows, n, d, dims, filters, g);
      }
    }
    assert rows[..|rows|] == rows;
    var listed := ListSet(seen);
    groups := Sort(listed, ComboLeq);
    CombosAreOrdered();
    SortMembers(listed, ComboLeq);
    SortSorts(listed, ComboLeq);
    SortKeepsDistinct(listed, ComboLeq);
  }

  lemma NoRows(d: Dataset, dims: seq<string>, filters: map<string, string>)
    ensures forall g :: !IsGroup([], d, dims, filters, g)
  {
  }
}
