/**
 * The customer list (src/components/customers/CustomerList.tsx): a search over the
 * lower-cased name and email and the raw phone number, four counters over all
 * customers, and one row per listed customer with upper-cased initials, a credit
 * cell shown only for a positive balance, a status badge and a View button.
 */
module CustomerList {
  import opened Wrappers
  import opened Seqs
  import opened Text

  datatype CustomerStatus = Active | Inactive

  datatype Customer = Customer(id: string, name: string, email: string, phone: string, totalPurchases: real,
                               creditBalance: real, status: CustomerStatus, lastVisit: string, joinDate: string)

  const MockCustomers: seq<Customer> := [
    Customer("1", "Alice Johnson", "alice@email.com", "+1 555-0101", 2450.0, 150.0, Active, "2024-01-18", "2023-06-15"),
    Customer("2", "Bob Smith", "bob@email.com", "+1 555-0102", 890.0, 0.0, Active, "2024-01-15", "2023-08-22"),
    Customer("3", "Carol Williams", "carol@email.com", "+1 555-0103", 5670.0, 320.0, Active, "2024-01-20", "2022-11-10"),
    Customer("4", "David Brown", "david@email.com", "+1 555-0104", 340.0, 0.0, Inactive, "2023-12-01", "2023-09-05"),
    Customer("5", "Emma Davis", "emma@email.com", "+1 555-0105", 1230.0, 75.0, Active, "2024-01-19", "2023-04-18")
  ]

  /** `getInitials`: the first letter of each space-separated word, upper-cased. */
  function GetInitials(name: string): string
  {
    Upper(WordInitials(name))
  }

  /**
   * One letter per non-empty word of the name, never more letters than words, each
   * the upper-cased first letter of some word.
   */
  lemma GetInitialsSpec(name: string)
    ensures |GetInitials(name)| <= |Split(name, ' ')|
    ensures |GetInitials(name)| == |Filter(Split(name, ' '), IsNonEmpty)|
    ensures forall k :: 0 <= k < |GetInitials(name)| ==>
              exists j :: 0 <= j < |Split(name, ' ')| && Split(name, ' ')[j] != "" &&
                          GetInitials(name)[k] == UpperChar(Split(name, ' ')[j][0])
  {
    var ws := Split(name, ' ');
    WordInitialsSpec(name);
    var w := WordInitials(name);
    forall k | 0 <= k < |w|
      ensures exists j :: 0 <= j < |ws| && ws[j] != "" && GetInitials(name)[k] == UpperChar(ws[j][0])
    {
      var j :| 0 <= j < |ws| && ws[j] != "" && ws[j][0] == w[k];
      assert GetInitials(name)[k] == UpperChar(ws[j][0]);
    }
  }

  /** The search is case-blind on name and email but matches the phone number as typed. */
  predicate MatchesSearch(query: string, c: Customer)
  {
    || Contains(Lower(c.name), Lower(query))
    || Contains(Lower(c.email), Lower(query))
    || Contains(c.phone, query)
  }

  function Kept(query: string): Customer -> bool
  {
    (c: Customer) => MatchesSearch(query, c)
  }

  /** `filteredCustomers`. */
  function FilteredCustomers(customers: seq<Customer>, query: string): seq<Customer>
  {
    Filter(customers, Kept(query))
  }

  /** The listed customers are exactly the matching ones, in their order. */
  lemma FilteredCustomersSpec(customers: seq<Customer>, query: string)
    ensures IsSubsequence(FilteredCustomers(customers, query), customers)
    ensures forall k :: 0 <= k < |customers| ==>
              (customers[k] in FilteredCustomers(customers, query) <==> MatchesSearch(query, customers[k]))
  {
    var r := FilteredCustomers(customers, query);
    FilterIsSubsequence(customers, Kept(query));
    forall k | 0 <= k < |customers| && customers[k] in r
      ensures MatchesSearch(query, customers[k])
    {
      var j :| 0 <= j < |r| && r[j] == customers[k];
    }
  }

  /** An empty search lists every customer. */
  lemma EmptyQueryListsAll(customers: seq<Customer>)
    ensures FilteredCustomers(customers, "") == customers
  {
    forall k | 0 <= k < |customers|
      ensures Kept("")(customers[k])
    {
      EmptyIsContained(Lower(customers[k].name));
    }
    FilterAll(customers, Kept(""));
  }

  function IsActive(c: Customer): bool
  {
    c.status == Active
  }

  function Purchases(c: Customer): real
  {
    c.totalPurchases
  }

  function Balance(c: Customer): real
  {
    c.creditBalance
  }

  /** The four counters, taken over every customer whatever the search. */
  datatype Counters = Counters(totalCustomers: nat, active: nat, totalSales: real, outstandingCredit: real)

  function CountersFor(customers: seq<Customer>): (r: Counters)
    ensures r.active <= r.totalCustomers == |customers|
    ensures r.totalSales == Sum(customers, Purchases) && r.outstandingCredit == Sum(customers, Balance)
  {
    Counters(|customers|, Count(customers, IsActive), Sum(customers, Purchases), Sum(customers, Balance))
  }

  /** The sample customers: five, four active, 10,580 of sales and 545 of credit outstanding. */
  lemma MockCounters()
    ensures CountersFor(MockCustomers) == Counters(5, 4, 10580.0, 545.0)
  {
  }

  /** The credit cell: the balance when it is positive, a dash otherwise. */
  function CreditCell(c: Customer): (r: Option<real>)
    ensures r.Some? <==> c.creditBalance > 0.0
    ensures r.Some? ==> r.value == c.creditBalance
  {
    if c.creditBalance > 0.0 then Some(c.creditBalance) else None
  }

  function HasCredit(c: Customer): bool
  {
    CreditCell(c).Some?
  }

  /**
   * With no negative balances, the Outstanding Credit counter is the sum of the
   * amounts the credit cells show: a dash hides only a zero balance.
   */
  lemma {:induction false} OutstandingCreditIsShownCredit(customers: seq<Customer>)
    requires forall k :: 0 <= k < |customers| ==> customers[k].creditBalance >= 0.0
    ensures Sum(customers, Balance) == Sum(Filter(customers, HasCredit), Balance)
  {
    if customers != [] {
      SumFilterCons(customers, HasCredit, Balance);
      OutstandingCreditIsShownCredit(customers[1..]);
    }
  }

  datatype CustomerRow = CustomerRow(customer: Customer, initials: string, credit: Option<real>,
                                     activeBadge: bool, statusCaption: string, onView: string)

  function RowFor(c: Customer): CustomerRow
  {
    CustomerRow(c, GetInitials(c.name), CreditCell(c), c.status == Active,
                if c.status == Active then "Active" else "Inactive", c.id)
  }

  /** One row per listed customer, in order; View opens the profile of that row's customer. */
  function Rows(customers: seq<Customer>, query: string): (rows: seq<CustomerRow>)
    ensures |rows| == |FilteredCustomers(customers, query)|
    ensures forall k :: 0 <= k < |rows| ==>
              var c := FilteredCustomers(customers, query)[k];
              && rows[k].customer == c && rows[k].onView == c.id
              && (rows[k].credit.Some? <==> c.creditBalance > 0.0)
              && (rows[k].activeBadge <==> c.status == Active)
              && rows[k].statusCaption == (if c.status == Active then "Active" else "Inactive")
  {
    Map(FilteredCustomers(customers, query), RowFor)
  }
}
