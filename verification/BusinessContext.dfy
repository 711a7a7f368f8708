/** Selecting the facts of one business object for a task, and referring to them by version and digest. */
module BusinessContext {
  import opened Options

  datatype Customer = Customer(id: nat, version: nat, facts: nat, contact: nat)

  /** What is selected of a customer: everything but the contact details. */
  datatype CustomerFacts = CustomerFacts(id: nat, version: nat, facts: nat)

  datatype Service = Service(id: nat, version: nat, facts: nat)

  /** A quote or an order: it names a version of a customer and of a service. */
  datatype Deal = Deal(id: nat, customer: nat, customerVersion: nat, service: nat, serviceVersion: nat, facts: nat)

  /** A record of an order: an adjustment, delivery, acceptance, payment or refund. */
  datatype Entry = Entry(id: nat, order: nat, facts: nat)

  datatype Reversal = Reversal(id: nat, payment: nat, facts: nat)

  datatype Review = Review(id: nat, facts: nat)

  /** The part of the books that balances are computed from. */
  datatype Ledger = Ledger(
    orders: seq<Deal>,
    adjustments: seq<Entry>,
    deliveries: seq<Entry>,
    acceptances: seq<Entry>,
    payments: seq<Entry>,
    reversals: seq<Reversal>,
    refunds: seq<Entry>)

  datatype Business = Business(
    version: nat,
    customers: seq<Customer>,
    services: seq<Service>,
    quotes: seq<Deal>,
    ledger: Ledger,
    reviews: seq<Review>)

  const EMPTY := Business(0, [], [], [], Ledger([], [], [], [], [], [], []), [])

  datatype Kind = CustomerKind | ServiceKind | QuoteKind | OrderKind | DeliveryKind | ReviewKind

  datatype OrderFacts = OrderFacts(
    order: Deal,
    customer: CustomerFacts,
    service: Service,
    adjustments: seq<Entry>,
    deliveries: seq<Entry>,
    acceptances: seq<Entry>,
    payments: seq<Entry>,
    reversals: seq<Reversal>,
    refunds: seq<Entry>,
    balance: int)

  datatype Content =
    | AboutCustomer(customer: CustomerFacts)
    | AboutService(service: Service)
    | AboutQuote(quote: Deal, quoted: CustomerFacts, offer: Service)
    | AboutOrder(order: OrderFacts)
    | AboutDelivery(delivery: Entry, delivered: OrderFacts)
    | AboutReview(review: Review)

  /** A digest stands for all that is hashed: equal digests mean equal kinds, ids, versions and contents. */
  datatype Digest = Digest(kind: Kind, id: nat, version: nat, content: Content)

  datatype Reference = Reference(kind: Kind, id: nat, version: nat, digest: Option<Digest>)

  /** The balances the plugin computes from the books. */
  type Balances = (Ledger, nat) -> int

  const MISSING := "BUSINESS_CONTEXT_NOT_FOUND"

  function Find<T(!new)>(s: seq<T>, p: T -> bool): (r: Option<T>)
    ensures r.Some? ==> r.value in s && p(r.value)
    ensures r.None? ==> forall x :: x in s ==> !p(x)
  {
    if s == [] then None else if p(s[0]) then Some(s[0]) else Find(s[1..], p)
  }

  function FindLast<T(!new)>(s: seq<T>, p: T -> bool): (r: Option<T>)
    ensures r.Some? ==> r.value in s && p(r.value)
    ensures r.None? ==> forall x :: x in s ==> !p(x)
  {
    if s == [] then None else if p(s[|s| - 1]) then Some(s[|s| - 1]) else FindLast(s[..|s| - 1], p)
  }

  function OfOrder(s: seq<Entry>, order: nat): (r: seq<Entry>)
    ensures forall e :: e in r <==> e in s && e.order == order
  {
    if s == [] then [] else (if s[0].order == order then [s[0]] else []) + OfOrder(s[1..], order)
  }

  function OfPayments(s: seq<Reversal>, payments: seq<Entry>): (r: seq<Reversal>)
    ensures forall e :: e in r <==> e in s && exists p :: p in payments && p.id == e.payment
  {
    if s == [] then []
    else (if exists p :: p in payments && p.id == s[0].payment then [s[0]] else []) + OfPayments(s[1..], payments)
  }

  /** The newest entry of a customer, or of one of its versions. */
  function CustomerOf(b: Business, id: nat, version: Option<nat>): Option<CustomerFacts> {
    match FindLast(b.customers, (c: Customer) => c.id == id && (version.None? || c.version == version.value))
    case Some(c) => Some(CustomerFacts(c.id, c.version, c.facts))
    case None => None
  }

  function ServiceOf(b: Business, id: nat, version: nat): Option<Service> {
    Find(b.services, (s: Service) => s.id == id && s.version == version)
  }

  function FactsOfOrder(b: Business, id: nat, balances: Balances): Option<OrderFacts> {
    var order := Find(b.ledger.orders, (o: Deal) => o.id == id);
    if order.None? then None
    else
      var o := order.value;
      var service, customer := ServiceOf(b, o.service, o.serviceVersion), CustomerOf(b, o.customer, Some(o.customerVersion));
      if service.None? || customer.None? then None
      else
        var payments := OfOrder(b.ledger.payments, id);
        Some(OrderFacts(o, customer.value, service.value,
                        OfOrder(b.ledger.adjustments, id), OfOrder(b.ledger.deliveries, id), OfOrder(b.ledger.acceptances, id),
                        payments, OfPayments(b.ledger.reversals, payments), OfOrder(b.ledger.refunds, id),
                        balances(b.ledger, id)))
  }

  function ContentOf(b: Business, kind: Kind, id: nat, balances: Balances): Option<Content> {
    match kind
    case CustomerKind => (match CustomerOf(b, id, None) case Some(c) => Some(AboutCustomer(c)) case None => None)
    case ServiceKind => (match FindLast(b.services, (s: Service) => s.id == id) case Some(s) => Some(AboutService(s)) case None => None)
    case QuoteKind =>
      var quote := Find(b.quotes, (q: Deal) => q.id == id);
      if quote.None? then None
      else
        var q := quote.value;
        var service, customer := ServiceOf(b, q.service, q.serviceVersion), CustomerOf(b, q.customer, Some(q.customerVersion));
        if service.None? || customer.None? then None else Some(AboutQuote(q, customer.value, service.value))
    case OrderKind => (match FactsOfOrder(b, id, balances) case Some(f) => Some(AboutOrder(f)) case None => None)
    case DeliveryKind =>
      var delivery := Find(b.ledger.deliveries, (d: Entry) => d.id == id);
      if delivery.None? then None
      else
        var facts := FactsOfOrder(b, delivery.value.order, balances);
        if facts.None? then None else Some(AboutDelivery(delivery.value, facts.value))
    case ReviewKind => (match Find(b.reviews, (r: Review) => r.id == id) case Some(r) => Some(AboutReview(r)) case None => None)
  }

  /** The content of an object and the reference to it; `source` is the state it is selected from, if there is one. */
  function Select(source: Option<Business>, active: bool, kind: Kind, id: nat, balances: Balances): Result<(Content, Reference)> {
    if !active then Err("PLUGIN_NOT_ACTIVE")
    else if source.None? || source.value.version < 1 then Err(MISSING)
    else
      var content := ContentOf(source.value, kind, id, balances);
      if content.None? then Err(MISSING)
      else
        var version := source.value.version;
        Ok((content.value, Reference(kind, id, version, Some(Digest(kind, id, version, content.value)))))
  }

  /** Checking a reference against what is selected now. */
  function Check(selected: Result<(Content, Reference)>, ref: Reference): Result<Content> {
    if selected.Err? then Err(selected.code)
    else if selected.value.1.version != ref.version || ref.digest.None? || selected.value.1.digest != ref.digest then Err("GOAL_RESOURCE_CHANGED")
    else Ok(selected.value.0)
  }

  // ---------------------------------------------------------------- contact details

  /** The two differ at most in contact details. */
  predicate SameButContacts(a: Business, b: Business) {
    && a.(customers := []) == b.(customers := [])
    && |a.customers| == |b.customers|
    && forall i :: 0 <= i < |a.customers| ==> a.customers[i].(contact := 0) == b.customers[i].(contact := 0)
  }

  lemma {:induction false} FindLastIgnoresContacts(a: seq<Customer>, b: seq<Customer>, id: nat, version: Option<nat>)
    requires |a| == |b| && forall i :: 0 <= i < |a| ==> a[i].(contact := 0) == b[i].(contact := 0)
    ensures var p := (c: Customer) => c.id == id && (version.None? || c.version == version.value);
            && (FindLast(a, p).Some? <==> FindLast(b, p).Some?)
            && (FindLast(a, p).Some? ==> FindLast(a, p).value.(contact := 0) == FindLast(b, p).value.(contact := 0))
    decreases |a|
  {
    if a != [] {
      var n := |a| - 1;
      assert a[n].(contact := 0) == b[n].(contact := 0);
      FindLastIgnoresContacts(a[..n], b[..n], id, version);
    }
  }

  lemma CustomerIgnoresContacts(a: Business, b: Business, id: nat, version: Option<nat>)
    requires SameButContacts(a, b)
    ensures CustomerOf(a, id, version) == CustomerOf(b, id, version)
  {
    FindLastIgnoresContacts(a.customers, b.customers, id, version);
  }

  lemma OrderIgnoresContacts(a: Business, b: Business, id: nat, balances: Balances)
    requires SameButContacts(a, b)
    ensures FactsOfOrder(a, id, balances) == FactsOfOrder(b, id, balances)
  {
    var order := Find(a.ledger.orders, (o: Deal) => o.id == id);
    if order.Some? {
      CustomerIgnoresContacts(a, b, order.value.customer, Some(order.value.customerVersion));
    }
  }

  /** Contact details never reach a context: two states that differ only in them give the same content and reference. */
  lemma ContactsAreNotSelected(a: Business, b: Business, active: bool, kind: Kind, id: nat, balances: Balances)
    requires SameButContacts(a, b)
    ensures Select(Some(a), active, kind, id, balances) == Select(Some(b), active, kind, id, balances)
  {
    match kind
    case CustomerKind => CustomerIgnoresContacts(a, b, id, None);
    case QuoteKind =>
      var quote := Find(a.quotes, (q: Deal) => q.id == id);
      if quote.Some? {
        CustomerIgnoresContacts(a, b, quote.value.customer, Some(quote.value.customerVersion));
      }
    case OrderKind => OrderIgnoresContacts(a, b, id, balances);
    case DeliveryKind =>
      var delivery := Find(a.ledger.deliveries, (d: Entry) => d.id == id);
      if delivery.Some? {
        OrderIgnoresContacts(a, b, delivery.value.order, balances);
      }
    case ServiceKind =>
    case ReviewKind =>
  }
}
