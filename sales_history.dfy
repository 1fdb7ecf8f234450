/**
 * The sales history table (src/components/sales/SalesHistoryTable.tsx): the sales
 * kept by a conjunction of five criteria (a search on invoice number or customer, a
 * branch, a staff member, and an inclusive date range compared as strings), their
 * total, and the "Showing n of m" line.
 */
module SalesHistory {
  import opened Seqs
  import opened Text

  datatype SaleStatus = Completed | Refunded | Pending

  datatype Sale = Sale(id: string, invoiceNo: string, date: string, customer: string, branch: string,
                       staff: string, items: int, total: real, paymentMethod: string, status: SaleStatus)

  const MockSales: seq<Sale> := [
    Sale("1", "INV-001", "2024-01-15", "John Doe", "Main Store", "Alice", 3, 156.50, "Card", Completed),
    Sale("2", "INV-002", "2024-01-15", "Jane Smith", "Main Store", "Bob", 5, 289.00, "Cash", Completed),
    Sale("3", "INV-003", "2024-01-14", "Mike Johnson", "Branch 2", "Alice", 2, 78.25, "Card", Refunded),
    Sale("4", "INV-004", "2024-01-14", "Sarah Williams", "Main Store", "Charlie", 7, 445.75, "Cash", Completed),
    Sale("5", "INV-005", "2024-01-13", "David Brown", "Branch 2", "Bob", 1, 35.00, "Card", Pending),
    Sale("6", "INV-006", "2024-01-13", "Emily Davis", "Main Store", "Alice", 4, 198.50, "Mobile", Completed)
  ]

  /** The five filter inputs; an empty date and "all" switch their criterion off. */
  datatype Criteria = Criteria(search: string, dateFrom: string, dateTo: string, branch: string, staff: string)

  const NoCriteria := Criteria("", "", "", "all", "all")

  predicate MatchesSearch(search: string, s: Sale)
  {
    Contains(Lower(s.invoiceNo), Lower(search)) || Contains(Lower(s.customer), Lower(search))
  }

  predicate Matches(c: Criteria, s: Sale)
  {
    && MatchesSearch(c.search, s)
    && (c.branch == "all" || s.branch == c.branch)
    && (c.staff == "all" || s.staff == c.staff)
    && (c.dateFrom == "" || LexLe(c.dateFrom, s.date))
    && (c.dateTo == "" || LexLe(s.date, c.dateTo))
  }

  function Kept(c: Criteria): Sale -> bool
  {
    (s: Sale) => Matches(c, s)
  }

  /** `filteredSales`. */
  function FilteredSales(sales: seq<Sale>, c: Criteria): seq<Sale>
  {
    Filter(sales, Kept(c))
  }

  /** A sale is listed exactly when it meets every criterion, in the order of the sales. */
  lemma FilteredSalesSpec(sales: seq<Sale>, c: Criteria)
    ensures IsSubsequence(FilteredSales(sales, c), sales)
    ensures forall k :: 0 <= k < |sales| ==> (sales[k] in FilteredSales(sales, c) <==> Matches(c, sales[k]))
  {
    var r := FilteredSales(sales, c);
    FilterIsSubsequence(sales, Kept(c));
    forall k | 0 <= k < |sales| && sales[k] in r
      ensures Matches(c, sales[k])
    {
      var j :| 0 <= j < |r| && r[j] == sales[k];
    }
  }

  /** With every criterion off, every sale is listed. */
  lemma NoCriteriaKeepsAll(sales: seq<Sale>)
    ensures FilteredSales(sales, NoCriteria) == sales
  {
    forall k | 0 <= k < |sales|
      ensures Kept(NoCriteria)(sales[k])
    {
      EmptyIsContained(Lower(sales[k].invoiceNo));
    }
    FilterAll(sales, Kept(NoCriteria));
  }

  /**
   * Both date bounds are inclusive: a sale dated on either bound is kept by that
   * bound. When the start comes after the end, nothing is listed.
   */
  lemma DateRange(sales: seq<Sale>, c: Criteria, s: Sale)
    ensures c.dateFrom != "" && s.date == c.dateFrom ==> LexLe(c.dateFrom, s.date)
    ensures c.dateTo != "" && s.date == c.dateTo ==> LexLe(s.date, c.dateTo)
    ensures c.dateFrom != "" && c.dateTo != "" && LexLt(c.dateTo, c.dateFrom) ==> FilteredSales(sales, c) == []
  {
    LexLeReflexive(s.date);
    if c.dateFrom != "" && c.dateTo != "" && LexLt(c.dateTo, c.dateFrom) {
      forall k | 0 <= k < |sales|
        ensures !Kept(c)(sales[k])
      {
        if Matches(c, sales[k]) {
          LexLeTransitive(c.dateFrom, sales[k].date, c.dateTo);
          LexLeAntisymmetric(c.dateFrom, c.dateTo);
        }
      }
      FilterNone(sales, Kept(c));
    }
  }

  /**
   * `strict` is `loose` with some criteria switched on or narrowed: a search added
   * where there was none, a branch or staff member chosen instead of "all", a later
   * start or an earlier end.
   */
  predicate Tightens(loose: Criteria, strict: Criteria)
  {
    && (loose.search == "" || strict.search == loose.search)
    && (loose.branch == "all" || strict.branch == loose.branch)
    && (loose.staff == "all" || strict.staff == loose.staff)
    && (loose.dateFrom == "" || (strict.dateFrom != "" && LexLe(loose.dateFrom, strict.dateFrom)))
    && (loose.dateTo == "" || (strict.dateTo != "" && LexLe(strict.dateTo, loose.dateTo)))
  }

  /** Tightening the criteria can only shorten the list, keeping it inside the looser one in order. */
  lemma TighteningShrinks(sales: seq<Sale>, loose: Criteria, strict: Criteria)
    requires Tightens(loose, strict)
    ensures IsSubsequence(FilteredSales(sales, strict), FilteredSales(sales, loose))
    ensures |FilteredSales(sales, strict)| <= |FilteredSales(sales, loose)|
  {
    forall k | 0 <= k < |sales| && Kept(strict)(sales[k])
      ensures Kept(loose)(sales[k])
    {
      var s := sales[k];
      EmptyIsContained(Lower(s.invoiceNo));
      if loose.dateFrom != "" {
        LexLeTransitive(loose.dateFrom, strict.dateFrom, s.date);
      }
      if loose.dateTo != "" {
        LexLeTransitive(s.date, strict.dateTo, loose.dateTo);
      }
    }
    FilterMonotone(sales, Kept(loose), Kept(strict));
    SubsequenceIsShorter(FilteredSales(sales, strict), FilteredSales(sales, loose));
  }

  function SaleTotal(s: Sale): real
  {
    s.total
  }

  /** `totalSales`: the sum of the listed sales' totals. */
  function TotalSales(sales: seq<Sale>, c: Criteria): real
  {
    Sum(FilteredSales(sales, c), SaleTotal)
  }

  /** Totals that are never negative give a listed total that never exceeds the unfiltered one. */
  lemma TotalSalesBounds(sales: seq<Sale>, c: Criteria)
    requires forall k :: 0 <= k < |sales| ==> sales[k].total >= 0.0
    ensures 0.0 <= TotalSales(sales, c) <= Sum(sales, SaleTotal)
  {
    var notKept := (s: Sale) => !Matches(c, s);
    SumFilterSplit(sales, Kept(c), notKept, SaleTotal);
    var dropped := Filter(sales, notKept);
    SumNonNegative(dropped, SaleTotal);
    SumNonNegative(FilteredSales(sales, c), SaleTotal);
  }

  /** "Showing n of m sales". */
  function ShowingCounts(sales: seq<Sale>, c: Criteria): (r: (nat, nat))
    ensures r.1 == |sales| && r.0 == |FilteredSales(sales, c)|
    ensures r.0 <= r.1
  {
    (|FilteredSales(sales, c)|, |sales|)
  }
}
