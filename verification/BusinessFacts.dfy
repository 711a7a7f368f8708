/** Which facts a context holds: what is selected for each kind of object, in terms of the entries of the books. */
module BusinessFacts {
  import opened Options
  import opened BusinessContext

  // ---------------------------------------------------------------- looking up entries

  /** The first entry that satisfies a condition is found, and it is found exactly when there is one. */
  lemma {:induction false} FirstIsFound<T(!new)>(s: seq<T>, p: T -> bool, k: nat)
    requires k < |s| && p(s[k]) && forall i :: 0 <= i < k ==> !p(s[i])
    ensures Find(s, p) == Some(s[k])
    decreases |s|
  {
    if k > 0 {
      assert !p(s[0]);
      FirstIsFound(s[1..], p, k - 1);
    }
  }

  /** The newest entry that satisfies a condition is the last one of the list. */
  lemma {:induction false} NewestIsFound<T(!new)>(s: seq<T>, p: T -> bool, k: nat)
    requires k < |s| && p(s[k]) && forall i :: k < i < |s| ==> !p(s[i])
    ensures FindLast(s, p) == Some(s[k])
    decreases |s|
  {
    var n := |s| - 1;
    if k < n {
      assert !p(s[n]);
      NewestIsFound(s[..n], p, k);
    }
  }

  /** The newest entry of a customer, or of the version named, is selected without its contact details. */
  lemma NewestCustomerIsSelected(b: Business, id: nat, version: Option<nat>, k: nat)
    requires k < |b.customers| && b.customers[k].id == id && (version.Some? ==> b.customers[k].version == version.value)
    requires forall i :: k < i < |b.customers| && b.customers[i].id == id ==> version.Some? && b.customers[i].version != version.value
    ensures CustomerOf(b, id, version) == Some(CustomerFacts(id, b.customers[k].version, b.customers[k].facts))
  {
    NewestIsFound(b.customers, (c: Customer) => c.id == id && (version.None? || c.version == version.value), k);
  }

  /** A deal refers to one version of a customer, whatever versions came later. */
  lemma NamedVersionIsSelected(b: Business, id: nat, version: nat)
    ensures var c := CustomerOf(b, id, Some(version));
            && (c.Some? <==> exists x :: x in b.customers && x.id == id && x.version == version)
            && (c.Some? ==> exists x :: x in b.customers && x.id == id && x.version == version && c.value == CustomerFacts(id, version, x.facts))
  {
    var named := Some(version);
    var found := FindLast(b.customers, (c: Customer) => c.id == id && (named.None? || c.version == named.value));
    if found.Some? {
      assert found.value in b.customers;
    }
  }

  /** The same for the version of a service. */
  lemma NamedServiceIsSelected(b: Business, id: nat, version: nat)
    ensures var s := ServiceOf(b, id, version);
            && (s.Some? <==> exists x :: x in b.services && x.id == id && x.version == version)
            && (s.Some? ==> s.value in b.services && s.value.id == id && s.value.version == version)
  {
  }

  // ---------------------------------------------------------------- the entries of an order

  /** The entries of an order keep their order: those of a longer list are those of its parts, one after the other. */
  lemma {:induction false} EntriesKeepTheirOrder(a: seq<Entry>, b: seq<Entry>, order: nat)
    ensures OfOrder(a + b, order) == OfOrder(a, order) + OfOrder(b, order)
    decreases |a|
  {
    if a == [] {
      assert a + b == b;
    } else {
      EntriesKeepTheirOrder(a[1..], b, order);
      assert (a + b)[1..] == a[1..] + b;
    }
  }

  lemma EntriesBelongToTheOrder(e: Entry, order: nat)
    ensures OfOrder([e], order) == if e.order == order then [e] else []
  {
  }

  lemma {:induction false} ReversalsKeepTheirOrder(a: seq<Reversal>, b: seq<Reversal>, payments: seq<Entry>)
    ensures OfPayments(a + b, payments) == OfPayments(a, payments) + OfPayments(b, payments)
    decreases |a|
  {
    if a == [] {
      assert a + b == b;
    } else {
      ReversalsKeepTheirOrder(a[1..], b, payments);
      assert (a + b)[1..] == a[1..] + b;
    }
  }

  lemma ReversalsBelongToThePayments(r: Reversal, payments: seq<Entry>)
    ensures OfPayments([r], payments) == if exists p :: p in payments && p.id == r.payment then [r] else []
  {
  }

  /** A deal is complete when the books still know the versions of customer and service it names. */
  predicate Complete(b: Business, deal: Deal) {
    && (exists c :: c in b.customers && c.id == deal.customer && c.version == deal.customerVersion)
    && (exists s :: s in b.services && s.id == deal.service && s.version == deal.serviceVersion)
  }

  /** The facts of a deal's parties: the versions the deal names, not the present ones. */
  predicate PartiesOf(b: Business, deal: Deal, customer: CustomerFacts, service: Service) {
    && (exists c :: c in b.customers && c.id == deal.customer && c.version == deal.customerVersion && customer == CustomerFacts(c.id, c.version, c.facts))
    && service in b.services && service.id == deal.service && service.version == deal.serviceVersion
  }

  lemma PartiesAreSelected(b: Business, deal: Deal)
    ensures var customer, service := CustomerOf(b, deal.customer, Some(deal.customerVersion)), ServiceOf(b, deal.service, deal.serviceVersion);
            && (customer.Some? && service.Some? <==> Complete(b, deal))
            && (customer.Some? && service.Some? ==> PartiesOf(b, deal, customer.value, service.value))
  {
    NamedVersionIsSelected(b, deal.customer, deal.customerVersion);
    NamedServiceIsSelected(b, deal.service, deal.serviceVersion);
  }

  /** The facts of an order: its parties, all and only its own entries, the reversals of its own payments, and its balance. */
  ghost predicate FactsAre(b: Business, id: nat, balances: Balances, f: OrderFacts) {
    && f.order in b.ledger.orders && f.order.id == id && PartiesOf(b, f.order, f.customer, f.service)
    && (forall e :: e in f.adjustments <==> e in b.ledger.adjustments && e.order == id)
    && (forall e :: e in f.deliveries <==> e in b.ledger.deliveries && e.order == id)
    && (forall e :: e in f.acceptances <==> e in b.ledger.acceptances && e.order == id)
    && (forall e :: e in f.payments <==> e in b.ledger.payments && e.order == id)
    && (forall e :: e in f.refunds <==> e in b.ledger.refunds && e.order == id)
    && (forall r :: r in f.reversals <==> r in b.ledger.reversals && exists p :: p in b.ledger.payments && p.order == id && p.id == r.payment)
    && f.balance == balances(b.ledger, id)
  }

  lemma ReversalsOfOwnPayments(b: Business, id: nat, r: Reversal)
    ensures r in OfPayments(b.ledger.reversals, OfOrder(b.ledger.payments, id)) <==>
              r in b.ledger.reversals && exists p :: p in b.ledger.payments && p.order == id && p.id == r.payment
  {
    var payments := OfOrder(b.ledger.payments, id);
    if r in b.ledger.reversals {
      if p :| p in b.ledger.payments && p.order == id && p.id == r.payment {
        assert p in payments;
      }
    }
  }

  lemma OrderFactsAreSelected(b: Business, id: nat, balances: Balances)
    ensures FactsOfOrder(b, id, balances).Some? ==> FactsAre(b, id, balances, FactsOfOrder(b, id, balances).value)
    ensures (forall o :: o in b.ledger.orders ==> o.id != id) ==> FactsOfOrder(b, id, balances) == None
  {
    var order := Find(b.ledger.orders, (o: Deal) => o.id == id);
    if order.Some? {
      PartiesAreSelected(b, order.value);
      forall r ensures r in OfPayments(b.ledger.reversals, OfOrder(b.ledger.payments, id)) <==>
                         r in b.ledger.reversals && exists p :: p in b.ledger.payments && p.order == id && p.id == r.payment
      {
        ReversalsOfOwnPayments(b, id, r);
      }
    }
  }

  /** Ids name one entry each, as the business rules keep them. */
  predicate DealsAreDistinct(deals: seq<Deal>) { forall a, b :: a in deals && b in deals && a.id == b.id ==> a == b }

  lemma OrdersAreSelectedExactlyWhen(b: Business, o: Deal, balances: Balances)
    requires o in b.ledger.orders && DealsAreDistinct(b.ledger.orders)
    ensures FactsOfOrder(b, o.id, balances).Some? <==> Complete(b, o)
    ensures FactsOfOrder(b, o.id, balances).Some? ==> FactsOfOrder(b, o.id, balances).value.order == o
  {
    PartiesAreSelected(b, o);
  }

  // ---------------------------------------------------------------- each kind of object

  /** What is selected concerns the object asked for: the newest customer or service entry, or the first quote, order, delivery or review of that id. */
  lemma ContentsAreOfTheObject(b: Business, kind: Kind, id: nat, balances: Balances)
    requires ContentOf(b, kind, id, balances).Some?
    ensures var c := ContentOf(b, kind, id, balances).value;
            && (kind == CustomerKind ==> c.AboutCustomer? && c.customer.id == id
                                         && exists x :: x in b.customers && c.customer == CustomerFacts(x.id, x.version, x.facts))
            && (kind == ServiceKind ==> c.AboutService? && c.service.id == id && c.service in b.services)
            && (kind == QuoteKind ==> c.AboutQuote? && c.quote.id == id && c.quote in b.quotes && PartiesOf(b, c.quote, c.quoted, c.offer))
            && (kind == OrderKind ==> c.AboutOrder? && FactsAre(b, id, balances, c.order))
            && (kind == DeliveryKind ==> c.AboutDelivery? && c.delivery.id == id && c.delivery in b.ledger.deliveries
                                         && FactsAre(b, c.delivery.order, balances, c.delivered))
            && (kind == ReviewKind ==> c.AboutReview? && c.review.id == id && c.review in b.reviews)
  {
    match kind
    case CustomerKind =>
    case ServiceKind =>
    case QuoteKind => PartiesAreSelected(b, Find(b.quotes, (q: Deal) => q.id == id).value);
    case OrderKind => OrderFactsAreSelected(b, id, balances);
    case DeliveryKind => OrderFactsAreSelected(b, Find(b.ledger.deliveries, (d: Entry) => d.id == id).value.order, balances);
    case ReviewKind =>
  }

  /** Nothing is selected exactly when the books have no such object, or none whose parties they still know. */
  lemma NothingIsSelectedExactlyWhen(b: Business, kind: Kind, id: nat, balances: Balances)
    requires DealsAreDistinct(b.quotes) && DealsAreDistinct(b.ledger.orders)
    requires forall d, e :: d in b.ledger.deliveries && e in b.ledger.deliveries && d.id == e.id ==> d == e
    ensures ContentOf(b, kind, id, balances) == None <==>
              match kind {
                case CustomerKind => forall c :: c in b.customers ==> c.id != id
                case ServiceKind => forall s :: s in b.services ==> s.id != id
                case QuoteKind => forall q :: q in b.quotes && q.id == id ==> !Complete(b, q)
                case OrderKind => forall o :: o in b.ledger.orders && o.id == id ==> !Complete(b, o)
                case DeliveryKind =>
                  forall d, o :: d in b.ledger.deliveries && d.id == id && o in b.ledger.orders && o.id == d.order ==> !Complete(b, o)
                case ReviewKind => forall r :: r in b.reviews ==> r.id != id
              }
  {
    match kind
    case CustomerKind =>
    case ServiceKind =>
    case QuoteKind =>
      var q := Find(b.quotes, (q: Deal) => q.id == id);
      if q.Some? {
        PartiesAreSelected(b, q.value);
      }
    case OrderKind => NoOrderExactlyWhen(b, id, balances);
    case DeliveryKind =>
      var d := Find(b.ledger.deliveries, (d: Entry) => d.id == id);
      if d.Some? {
        NoOrderExactlyWhen(b, d.value.order, balances);
      }
    case ReviewKind =>
  }

  lemma NoOrderExactlyWhen(b: Business, id: nat, balances: Balances)
    requires DealsAreDistinct(b.ledger.orders)
    ensures FactsOfOrder(b, id, balances) == None <==> forall o :: o in b.ledger.orders && o.id == id ==> !Complete(b, o)
  {
    var order := Find(b.ledger.orders, (o: Deal) => o.id == id);
    if order.Some? {
      OrdersAreSelectedExactlyWhen(b, order.value, balances);
    }
  }

  /** A context is selected exactly for an active plugin from started books that have the content, and it is referred to at the version of the books. */
  lemma SelectsExactlyWhen(source: Option<Business>, active: bool, kind: Kind, id: nat, balances: Balances)
    ensures var selected := Select(source, active, kind, id, balances);
            && (selected.Ok? <==> active && source.Some? && source.value.version >= 1 && ContentOf(source.value, kind, id, balances).Some?)
            && (selected.Ok? ==>
                  && Some(selected.value.0) == ContentOf(source.value, kind, id, balances)
                  && selected.value.1 == Reference(kind, id, source.value.version, Some(Digest(kind, id, source.value.version, selected.value.0))))
  {
  }

  /** A reference holds exactly while the same content is selected at the same version; one without a digest never does. */
  lemma ReferencesHoldExactlyWhen(b: Business, active: bool, ref: Reference, balances: Balances)
    ensures Check(Select(Some(b), active, ref.kind, ref.id, balances), ref).Ok? <==>
              && active && b.version >= 1 && b.version == ref.version && ref.digest.Some?
              && ContentOf(b, ref.kind, ref.id, balances).Some?
              && ref.digest.value == Digest(ref.kind, ref.id, ref.version, ContentOf(b, ref.kind, ref.id, balances).value)
  {
  }
}
