/** The customers page: the customer table filter (search over name, code and
    the optional email; type and status selects), the per-type counts, the
    total-sales card and the credit column. */
module Customers {
  import opened Text
  import opened Listing

  datatype CustomerType = Frequent | New | Delinquent
  {
    /** The value the type select compares against. */
    function Name(): string
    {
      match this
      case Frequent => "frequent"
      case New => "new"
      case Delinquent => "delinquent"
    }
  }

  datatype CustomerStatus = Active | Inactive | Blocked
  {
    function Name(): string
    {
      match this
      case Active => "active"
      case Inactive => "inactive"
      case Blocked => "blocked"
    }
  }

  datatype Customer = Customer(
    id: string, code: string, name: string, email: Option<string>,
    kind: CustomerType, totalPurchases: real,
    creditLimit: Option<real>, currentCredit: Option<real>,
    status: CustomerStatus)

  datatype CustomerQuery = CustomerQuery(search: string, kind: string, status: string)

  const All: string := "all"

  /** `customer.email?.toLowerCase().includes(term)`: an absent email never matches. */
  predicate EmailMatches(email: Option<string>, term: string)
  {
    email.Some? && FoldContains(email.value, term)
  }

  predicate SearchMatches(c: Customer, term: string)
  {
    FoldContains(c.name, term) || FoldContains(c.code, term) || EmailMatches(c.email, term)
  }

  predicate CustomerMatches(c: Customer, q: CustomerQuery)
  {
    && SearchMatches(c, q.search)
    && Selects(q.kind, All, c.kind.Name())
    && Selects(q.status, All, c.status.Name())
  }

  /** `filteredCustomers`. */
  function FilterCustomers(customers: seq<Customer>, q: CustomerQuery): (r: seq<Customer>)
    ensures forall c :: c in r <==> c in customers && CustomerMatches(c, q)
    ensures IsSubseq(r, customers)
    ensures |r| == Count(customers, (c: Customer) => CustomerMatches(c, q))
    ensures q.kind != All ==> forall c :: c in r ==> c.kind.Name() == q.kind
    ensures q.status != All ==> forall c :: c in r ==> c.status.Name() == q.status
    ensures forall c :: c in r && c.email.None? ==> FoldContains(c.name, q.search) || FoldContains(c.code, q.search)
  {
    Filter(customers, (c: Customer) => CustomerMatches(c, q))
  }

  /** With an empty search and both selects on `'all'` every customer is listed. */
  lemma NoCriteriaListsEveryone(customers: seq<Customer>)
    ensures FilterCustomers(customers, CustomerQuery("", All, All)) == customers
  {
    forall c | c in customers
      ensures CustomerMatches(c, CustomerQuery("", All, All))
    {
      FoldContainsEmpty(c.name);
    }
  }

  /** A type select on a value no type has lists nobody. */
  lemma UnknownTypeListsNobody(customers: seq<Customer>, q: CustomerQuery)
    requires q.kind != All && q.kind != "frequent" && q.kind != "new" && q.kind != "delinquent"
    ensures FilterCustomers(customers, q) == []
  {
    assert forall c :: c in customers ==> !CustomerMatches(c, q);
  }

  function TypeCount(customers: seq<Customer>, t: CustomerType): nat
  {
    Count(customers, (c: Customer) => c.kind == t)
  }

  /** The frequent, new and delinquent cards add up to the number of customers. */
  lemma TypeCountsPartition(customers: seq<Customer>)
    ensures TypeCount(customers, Frequent) + TypeCount(customers, New) + TypeCount(customers, Delinquent) == |customers|
  {
    CountPartition3(customers,
      (c: Customer) => c.kind == Frequent,
      (c: Customer) => c.kind == New,
      (c: Customer) => c.kind == Delinquent);
  }

  function Purchases(c: Customer): real { c.totalPurchases }

  /** `totalSales`: taken over every customer, whatever the filters show. */
  function TotalSales(customers: seq<Customer>): real
  {
    SumOf(customers, Purchases)
  }

  /** Listing more customers adds their purchases to the total. */
  lemma TotalSalesAdditive(a: seq<Customer>, b: seq<Customer>)
    ensures TotalSales(a + b) == TotalSales(a) + TotalSales(b)
  {
    SumOfAppend(a, b, Purchases);
  }

  /** The credit column: `None` shows "Sin crédito"; otherwise the available
      credit, `creditLimit - (currentCredit || 0)`. A zero limit is falsy and
      shows no credit. */
  function AvailableCredit(c: Customer): (r: Option<real>)
    ensures r.Some? <==> c.creditLimit.Some? && c.creditLimit.value != 0.0
    ensures r.Some? ==> r.value + OrZero(c.currentCredit) == c.creditLimit.value
    ensures r.Some? && c.currentCredit.None? ==> r.value == c.creditLimit.value
  {
    match c.creditLimit
    case Some(limit) =>
      if limit != 0.0 then Some(limit - OrZero(c.currentCredit)) else None
    case None => None
  }

  /** With a positive limit and credit in use between zero and the limit,
      the available credit lies between zero and the limit. */
  lemma AvailableCreditBounds(c: Customer)
    requires c.creditLimit.Some? && c.creditLimit.value > 0.0
    requires c.currentCredit.Some? ==> 0.0 <= c.currentCredit.value <= c.creditLimit.value
    ensures 0.0 <= AvailableCredit(c).value <= c.creditLimit.value
  {
  }
}
