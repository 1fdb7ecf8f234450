/**
 * The expense summary (src/components/expenses/ExpenseSummary.tsx): the overall total,
 * the totals per payment status, a per-category accumulator feeding a pie chart with
 * its legend, and a six-month bar chart whose last bar is the current total. The
 * `Expense` record is the one of src/components/expenses/ExpenseList.tsx.
 */
module ExpenseSummary {
  import opened Seqs

  datatype ExpenseStatus = Paid | Pending | Overdue

  datatype Expense = Expense(id: string, date: string, category: string, description: string,
                             amount: real, paymentMethod: string, status: ExpenseStatus)

  function Amount(e: Expense): real
  {
    e.amount
  }

  /** The Total Expenses card. */
  function Total(es: seq<Expense>): real
  {
    Sum(es, Amount)
  }

  function HasStatus(s: ExpenseStatus): Expense -> bool
  {
    (e: Expense) => e.status == s
  }

  /** The Paid, Pending and Overdue cards: the amounts of the expenses in that status. */
  function StatusTotal(es: seq<Expense>, s: ExpenseStatus): real
  {
    Sum(Filter(es, HasStatus(s)), Amount)
  }

  /** Every expense is in exactly one of the three statuses, so the three cards add up to the total. */
  lemma {:induction false} StatusTotalsAddUp(es: seq<Expense>)
    ensures StatusTotal(es, Paid) + StatusTotal(es, Pending) + StatusTotal(es, Overdue) == Total(es)
  {
    if es != [] {
      StatusTotalsAddUp(es[1..]);
      SumFilterCons(es, HasStatus(Paid), Amount);
      SumFilterCons(es, HasStatus(Pending), Amount);
      SumFilterCons(es, HasStatus(Overdue), Amount);
    }
  }

  /** The amounts of the expenses in category `c`. */
  function CategorySum(es: seq<Expense>, c: string): real
  {
    if es == [] then 0.0 else (if es[0].category == c then es[0].amount else 0.0) + CategorySum(es[1..], c)
  }

  function Category(e: Expense): string
  {
    e.category
  }

  /** The categories that occur, in the order they first occur. */
  function Categories(es: seq<Expense>): (r: seq<string>)
    ensures NoDuplicates(r)
    ensures forall k :: 0 <= k < |es| ==> es[k].category in r
    ensures forall k :: 0 <= k < |r| ==> exists j :: 0 <= j < |es| && es[j].category == r[k]
  {
    var cats := Map(es, Category);
    var r := Distinct(cats);
    assert forall k :: 0 <= k < |es| ==> cats[k] == es[k].category;
    r
  }

  function CategorySet(es: seq<Expense>): set<string>
  {
    set k | 0 <= k < |es| :: es[k].category
  }

  /** One more expense adds its amount to its own category's sum only. */
  lemma {:induction false} CategorySumSnoc(es: seq<Expense>, e: Expense, c: string)
    ensures CategorySum(es + [e], c) == CategorySum(es, c) + (if e.category == c then e.amount else 0.0)
  {
    if es == [] {
      assert [e][1..] == [];
    } else {
      assert (es + [e])[1..] == es[1..] + [e];
      CategorySumSnoc(es[1..], e, c);
    }
  }

  /**
   * `categoryTotals`: one pass over the expenses, adding each amount to the entry of
   * its category (a missing entry counting as 0). The keys are exactly the
   * categories that occur and each entry is its category's sum.
   */
  method CategoryTotals(es: seq<Expense>) returns (acc: map<string, real>)
    ensures acc.Keys == CategorySet(es)
    ensures forall c :: c in acc ==> acc[c] == CategorySum(es, c)
  {
    acc := map[];
    var i := 0;
    assert CategorySet(es[..0]) == {};
    while i < |es|
      invariant 0 <= i <= |es|
      invariant Accumulated(acc, es[..i])
    {
      var previous := if es[i].category in acc then acc[es[i].category] else 0.0;
      AccumulateNext(es, i, acc, previous);
      acc := acc[es[i].category := previous + es[i].amount];
      i := i + 1;
    }
    assert es[..i] == es;
  }

  /** The accumulator holds, for the expenses read so far, exactly their categories with their sums. */
  predicate Accumulated(acc: map<string, real>, read: seq<Expense>)
  {
    && acc.Keys == CategorySet(read)
    && forall c :: c in acc ==> acc[c] == CategorySum(read, c)
  }

  /** Reading expense `i` keeps the accumulator equal to the category sums of the first `i + 1` expenses. */
  lemma AccumulateNext(es: seq<Expense>, i: nat, acc: map<string, real>, previous: real)
    requires i < |es|
    requires Accumulated(acc, es[..i])
    requires previous == if es[i].category in acc then acc[es[i].category] else 0.0
    ensures Accumulated(acc[es[i].category := previous + es[i].amount], es[..i + 1])
  {
    AccumulateStep(es[..i], es[i], acc, previous);
    assert es[..i + 1] == es[..i] + [es[i]];
  }

  /** One step of the accumulator keeps it equal to the category sums of what has been read. */
  lemma AccumulateStep(prefix: seq<Expense>, e: Expense, acc: map<string, real>, previous: real)
    requires Accumulated(acc, prefix)
    requires previous == if e.category in acc then acc[e.category] else 0.0
    ensures Accumulated(acc[e.category := previous + e.amount], prefix + [e])
  {
    var next := acc[e.category := previous + e.amount];
    CategorySetSnoc(prefix, e);
    forall c | c in next
      ensures next[c] == CategorySum(prefix + [e], c)
    {
      AccumulateEntry(prefix, e, acc, previous, c);
    }
  }

  /** The entry of one category after one step. */
  lemma AccumulateEntry(prefix: seq<Expense>, e: Expense, acc: map<string, real>, previous: real, c: string)
    requires acc.Keys == CategorySet(prefix)
    requires c in acc ==> acc[c] == CategorySum(prefix, c)
    requires e.category in acc ==> acc[e.category] == CategorySum(prefix, e.category)
    requires previous == if e.category in acc then acc[e.category] else 0.0
    requires c in acc || c == e.category
    ensures acc[e.category := previous + e.amount][c] == CategorySum(prefix + [e], c)
  {
    CategorySumSnoc(prefix, e, c);
    if c == e.category && c !in acc {
      AbsentCategorySum(prefix, c);
    }
  }

  lemma CategorySetSnoc(prefix: seq<Expense>, e: Expense)
    ensures CategorySet(prefix + [e]) == CategorySet(prefix) + {e.category}
  {
    var s := prefix + [e];
    assert forall k :: 0 <= k < |prefix| ==> s[k] == prefix[k];
    assert s[|prefix|] == e;
  }

  /** A category that does not occur sums to 0. */
  lemma {:induction false} AbsentCategorySum(es: seq<Expense>, c: string)
    requires c !in CategorySet(es)
    ensures CategorySum(es, c) == 0.0
  {
    if es != [] {
      assert es[0].category in CategorySet(es);
      assert c !in CategorySet(es[1..]) by {
        forall k | 0 <= k < |es| - 1
          ensures es[1..][k].category != c
        {
          assert es[k + 1].category in CategorySet(es);
        }
      }
      AbsentCategorySum(es[1..], c);
    }
  }

  /** The amounts of the expenses whose category is one of `cs`. */
  function AmountWithin(es: seq<Expense>, cs: seq<string>): real
  {
    if es == [] then 0.0 else (if es[0].category in cs then es[0].amount else 0.0) + AmountWithin(es[1..], cs)
  }

  /** The category sums of a list of categories. */
  function SumOfCategories(es: seq<Expense>, cs: seq<string>): real
  {
    if cs == [] then 0.0 else CategorySum(es, cs[0]) + SumOfCategories(es, cs[1..])
  }

  lemma {:induction false} AddOneCategory(es: seq<Expense>, c: string, cs: seq<string>)
    requires c !in cs
    ensures CategorySum(es, c) + AmountWithin(es, cs) == AmountWithin(es, [c] + cs)
  {
    if es != [] {
      AddOneCategory(es[1..], c, cs);
    }
  }

  lemma {:induction false} SumOfDistinctCategories(es: seq<Expense>, cs: seq<string>)
    requires NoDuplicates(cs)
    ensures SumOfCategories(es, cs) == AmountWithin(es, cs)
  {
    if cs == [] {
      AmountWithinNothing(es);
    } else {
      assert NoDuplicates(cs[1..]) by {
        assert forall i, j :: 0 <= i < j < |cs| - 1 ==> cs[1..][i] == cs[i + 1] && cs[1..][j] == cs[j + 1];
      }
      SumOfDistinctCategories(es, cs[1..]);
      assert cs[0] !in cs[1..];
      AddOneCategory(es, cs[0], cs[1..]);
      assert [cs[0]] + cs[1..] == cs;
    }
  }

  lemma {:induction false} AmountWithinNothing(es: seq<Expense>)
    ensures AmountWithin(es, []) == 0.0
  {
    if es != [] {
      AmountWithinNothing(es[1..]);
    }
  }

  lemma {:induction false} AmountWithinAll(es: seq<Expense>, cs: seq<string>)
    requires forall k :: 0 <= k < |es| ==> es[k].category in cs
    ensures AmountWithin(es, cs) == Total(es)
  {
    if es != [] {
      AmountWithinAll(es[1..], cs);
    }
  }

  /** The category totals, over the categories that occur, add up to the overall total. */
  lemma CategoriesCoverTotal(es: seq<Expense>)
    ensures SumOfCategories(es, Categories(es)) == Total(es)
  {
    SumOfDistinctCategories(es, Categories(es));
    AmountWithinAll(es, Categories(es));
  }

  const CategoryColors: map<string, string> := map[
    "Salaries" := "hsl(var(--primary))", "Inventory" := "hsl(var(--accent))",
    "Rent" := "#10b981", "Marketing" := "#f59e0b", "Utilities" := "#8b5cf6",
    "Maintenance" := "#ec4899", "Supplies" := "#06b6d4", "Transportation" := "#84cc16",
    "Insurance" := "#f97316", "Other" := "#6b7280"
  ]

  /** A category's colour, grey for a category without one. */
  function ColorOf(c: string): (r: string)
    ensures c in CategoryColors ==> r == CategoryColors[c]
    ensures c !in CategoryColors ==> r == "#6b7280"
  {
    if c in CategoryColors then CategoryColors[c] else "#6b7280"
  }

  datatype Slice = Slice(name: string, value: real, color: string)

  function SliceOf(es: seq<Expense>): string -> Slice
  {
    (c: string) => Slice(c, CategorySum(es, c), ColorOf(c))
  }

  /**
   * `pieData`: one slice per category that occurs, in the order of first occurrence
   * (the insertion order of the accumulator's keys), valued at its category sum.
   */
  function PieData(es: seq<Expense>): (r: seq<Slice>)
    ensures |r| == |Categories(es)|
    ensures forall k :: 0 <= k < |r| ==>
              r[k].name == Categories(es)[k] && r[k].value == CategorySum(es, r[k].name)
              && r[k].color == ColorOf(r[k].name)
  {
    Map(Categories(es), SliceOf(es))
  }

  function SliceValue(s: Slice): real
  {
    s.value
  }

  lemma {:induction false} SliceValuesAreCategorySums(es: seq<Expense>, cs: seq<string>)
    ensures Sum(Map(cs, SliceOf(es)), SliceValue) == SumOfCategories(es, cs)
  {
    if cs != [] {
      SliceValuesAreCategorySums(es, cs[1..]);
      assert Map(cs, SliceOf(es))[1..] == Map(cs[1..], SliceOf(es));
    }
  }

  /** The pie's slices name each category once, cover every expense and add up to the total. */
  lemma PieDataSpec(es: seq<Expense>)
    ensures forall i, j :: 0 <= i < j < |PieData(es)| ==> PieData(es)[i].name != PieData(es)[j].name
    ensures forall k :: 0 <= k < |es| ==> exists j :: 0 <= j < |PieData(es)| && PieData(es)[j].name == es[k].category
    ensures Sum(PieData(es), SliceValue) == Total(es)
  {
    var cs := Categories(es);
    forall k | 0 <= k < |es|
      ensures exists j :: 0 <= j < |PieData(es)| && PieData(es)[j].name == es[k].category
    {
      var j :| 0 <= j < |cs| && cs[j] == es[k].category;
      assert PieData(es)[j].name == es[k].category;
    }
    SliceValuesAreCategorySums(es, cs);
    CategoriesCoverTotal(es);
  }

  /** The legend under the pie: its first six slices. */
  function Legend(es: seq<Expense>): (r: seq<Slice>)
    ensures |r| == if |PieData(es)| < 6 then |PieData(es)| else 6
    ensures forall k :: 0 <= k < |r| ==> r[k] == PieData(es)[k]
  {
    var pie := PieData(es);
    Take(pie, 6)
  }

  datatype Bar = Bar(month: string, amount: real)

  /** The monthly trend: five fixed months, then the current total. */
  function MonthlyData(es: seq<Expense>): (r: seq<Bar>)
    ensures |r| == 6 && r[5] == Bar("Jan", Total(es))
  {
    [Bar("Aug", 22500.0), Bar("Sep", 25800.0), Bar("Oct", 21200.0), Bar("Nov", 28400.0), Bar("Dec", 24100.0),
     Bar("Jan", Total(es))]
  }
}
