/** The monthly summary card and the category breakdown beneath it
    (src/components/MonthlySummary.js). Its input is the selected month's
    records and the month's salary. */
module MonthlySummary {
  import opened Records
  import opened Seqs
  import opened Tally

  datatype Summary = Summary(income: int, expense: int, balance: int, totalIncome: int, salary: int)

  /** Sum of the amounts of the `type === 'income'` records. */
  function IncomeTotal(records: seq<Expense>): int
  {
    SumOf(Filter(records, IsIncome), Amount)
  }

  /** Sum of the amounts of the `type === 'expense'` records. */
  function ExpenseTotal(records: seq<Expense>): int
  {
    SumOf(Filter(records, IsExpense), Amount)
  }

  /** Sum of the amounts of records of any other type; no card counts them. */
  function OtherTotal(records: seq<Expense>): int
  {
    SumOf(Filter(records, IsOtherKind), Amount)
  }

  /** The `summary` memo: salary (zero when missing) plus recorded income is
      the total income, and the balance is what is left after expenses. */
  function Summarize(records: seq<Expense>, salary: Option<int>): (s: Summary)
    ensures s.income == IncomeTotal(records) && s.expense == ExpenseTotal(records)
    ensures s.totalIncome == OrZero(salary) + s.income
    ensures s.income - s.expense == s.balance - s.salary
    ensures s.totalIncome - s.balance == s.expense
    ensures salary.None? ==> s.salary == 0 && s.totalIncome == s.income
    ensures salary.Some? ==> s.salary == salary.value
  {
    var income := IncomeTotal(records);
    var expense := ExpenseTotal(records);
    var totalIncome := OrZero(salary) + income;
    Summary(income, expense, totalIncome - expense, totalIncome, OrZero(salary))
  }

  /** Every record's amount is counted by exactly one of income, expense and
      "other": the three totals partition the month's total. */
  lemma {:induction false} KindsPartitionTotal(records: seq<Expense>)
    ensures IncomeTotal(records) + ExpenseTotal(records) + OtherTotal(records)
         == SumOf(records, Amount)
  {
    if records != [] {
      var n := |records| - 1;
      KindsPartitionTotal(records[..n]);
      SumOfFilterLast(records, IsIncome, Amount);
      SumOfFilterLast(records, IsExpense, Amount);
      SumOfFilterLast(records, IsOtherKind, Amount);
    }
  }

  /** A summary of no records is the salary alone. */
  lemma EmptyMonthSummary(salary: Option<int>)
    ensures Summarize([], salary) == Summary(0, 0, OrZero(salary), OrZero(salary), OrZero(salary))
  {
  }

  /** The per-category totals of the expense-type records, keys in
      first-encountered order. */
  function CategoryTotals(records: seq<Expense>): seq<CategoryTotal>
  {
    Totals(Filter(records, IsExpense))
  }

  /** The sort key of `(a, b) => b[1] - a[1]`: descending amount. */
  function Descending(t: CategoryTotal): int
  {
    -t.amount
  }

  /** `Object.keys(...).length`: the "N categories" label. */
  function CategoryCount(records: seq<Expense>): nat
  {
    |CategoryTotals(records)|
  }

  datatype BreakdownRow = BreakdownRow(category: string, amount: int, percentage: real)

  /** `amount / totalExpenses * 100`, before `toFixed(1)`. */
  function Percentage(amount: int, total: int): real
    requires total != 0
  {
    (amount as real / total as real) * 100.0
  }

  /** The `.map` from sorted entries to displayed rows. */
  function Rows(sorted: seq<CategoryTotal>, total: int): (rows: seq<BreakdownRow>)
    requires total != 0
    ensures |rows| == |sorted|
    ensures forall i :: 0 <= i < |rows| ==>
      rows[i].category == sorted[i].category && rows[i].amount == sorted[i].amount
  {
    if sorted == [] then []
    else
      var n := |sorted| - 1;
      Rows(sorted[..n], total) + [BreakdownRow(sorted[n].category, sorted[n].amount, Percentage(sorted[n].amount, total))]
  }

  /** The breakdown list: rendered only while the expense total is positive. */
  function Breakdown(records: seq<Expense>): seq<BreakdownRow>
  {
    var total := ExpenseTotal(records);
    if total > 0 then Rows(SortBy(CategoryTotals(records), Descending), total) else []
  }

  function RowCategories(rows: seq<BreakdownRow>): (ns: seq<string>)
    ensures |ns| == |rows|
    ensures forall i :: 0 <= i < |rows| ==> ns[i] == rows[i].category
  {
    seq(|rows|, i requires 0 <= i < |rows| => rows[i].category)
  }

  function RowAmount(r: BreakdownRow): int
  {
    r.amount
  }

  function PercentSum(rows: seq<BreakdownRow>): real
  {
    if rows == [] then 0.0 else PercentSum(rows[..|rows| - 1]) + rows[|rows| - 1].percentage
  }

  /** The breakdown is empty exactly when there is nothing to break down,
      and otherwise has one row per category the count label reports. */
  lemma BreakdownShape(records: seq<Expense>)
    ensures ExpenseTotal(records) <= 0 ==> Breakdown(records) == []
    ensures ExpenseTotal(records) > 0 ==> |Breakdown(records)| == CategoryCount(records)
  {
    SortByFacts(CategoryTotals(records), Descending);
  }

  /** One row per distinct expense category: no category twice, and the
      category of every expense-type record has a row. */
  lemma BreakdownCategories(records: seq<Expense>, c: string)
    requires ExpenseTotal(records) > 0
    ensures Distinct(RowCategories(Breakdown(records)))
    ensures c in RowCategories(Breakdown(records))
        <==> exists i :: 0 <= i < |records| && IsExpense(records[i]) && records[i].category == c
  {
    var ex := Filter(records, IsExpense);
    var totals := CategoryTotals(records);
    var sorted := SortBy(totals, Descending);
    SortByFacts(totals, Descending);
    TotalsNames(ex);
    PermutationKeepsDistinct(sorted, totals);
    PermutationKeepsNames(sorted, totals, c);
    assert RowCategories(Breakdown(records)) == Names(sorted);
    TotalsHasCategory(ex, c);
    ExpenseCategoryWitness(records, c);
  }

  /** Each row carries the sum of its own category's expense-type records:
      the sort moves whole entries and never mixes two categories' amounts. */
  lemma BreakdownAmounts(records: seq<Expense>, k: nat)
    requires k < |Breakdown(records)|
    ensures Breakdown(records)[k].amount
         == SumOf(Filter(Filter(records, IsExpense), InCategory(Breakdown(records)[k].category)), Amount)
  {
    var ex := Filter(records, IsExpense);
    var totals := CategoryTotals(records);
    var sorted := SortBy(totals, Descending);
    SortByFacts(totals, Descending);
    assert Breakdown(records) == Rows(sorted, ExpenseTotal(records));
    var c := sorted[k].category;
    assert sorted[k] in multiset(totals);
    var m :| 0 <= m < |totals| && totals[m] == sorted[k];
    TotalsNames(ex);
    assert Names(totals)[m] == c;
    assert IndexOf(Names(totals), c) == m;
    TotalsValue(ex, c);
  }

  lemma ExpenseCategoryWitness(records: seq<Expense>, c: string)
    ensures (exists i :: 0 <= i < |Filter(records, IsExpense)| && Filter(records, IsExpense)[i].category == c)
        ==> exists i :: 0 <= i < |records| && IsExpense(records[i]) && records[i].category == c
    ensures (exists i :: 0 <= i < |records| && IsExpense(records[i]) && records[i].category == c)
        ==> exists i :: 0 <= i < |Filter(records, IsExpense)| && Filter(records, IsExpense)[i].category == c
  {
    var ex := Filter(records, IsExpense);
    var left := exists i :: 0 <= i < |ex| && ex[i].category == c;
    var right := exists i :: 0 <= i < |records| && IsExpense(records[i]) && records[i].category == c;
    if left {
      var i :| 0 <= i < |ex| && ex[i].category == c;
      assert ex[i] in records && IsExpense(ex[i]);
      var m :| 0 <= m < |records| && records[m] == ex[i];
      assert IsExpense(records[m]) && records[m].category == c;
      assert right;
    }
    if right {
      var i :| 0 <= i < |records| && IsExpense(records[i]) && records[i].category == c;
      assert records[i] in ex;
      var m :| 0 <= m < |ex| && ex[m] == records[i];
      assert ex[m].category == c;
      assert left;
    }
  }

  /** Rows made from entries sorted by descending amount run from the
      largest amount down. */
  lemma RowsNonIncreasing(sorted: seq<CategoryTotal>, total: int)
    requires total != 0
    requires SortedBy(sorted, Descending)
    ensures forall i, j :: 0 <= i < j < |Rows(sorted, total)| ==>
      Rows(sorted, total)[i].amount >= Rows(sorted, total)[j].amount
  {
    var rows := Rows(sorted, total);
    forall i, j | 0 <= i < j < |rows|
      ensures rows[i].amount >= rows[j].amount
    {
      assert Descending(sorted[i]) <= Descending(sorted[j]);
    }
  }

  /** Entries of equal amount keep, through the sort, the order in which
      their categories were first met: for each sort key `k` (the entries of
      amount `-k`), the subsequence carrying it is unchanged. */
  lemma BreakdownStable(records: seq<Expense>, k: int)
    ensures Filter(SortBy(CategoryTotals(records), Descending), HasKey(Descending, k))
         == Filter(CategoryTotals(records), HasKey(Descending, k))
  {
    SortByStable(CategoryTotals(records), Descending, k);
  }

  /** The rows run from the largest amount down. */
  lemma BreakdownOrder(records: seq<Expense>)
    requires ExpenseTotal(records) > 0
    ensures forall i, j :: 0 <= i < j < |Breakdown(records)| ==>
      Breakdown(records)[i].amount >= Breakdown(records)[j].amount
  {
    var total := ExpenseTotal(records);
    var sorted := SortBy(CategoryTotals(records), Descending);
    assert Breakdown(records) == Rows(sorted, total);
    SortByFacts(CategoryTotals(records), Descending);
    RowsNonIncreasing(sorted, total);
  }

  /** The row amounts add up to the expense card, and the percentages to
      exactly one hundred (before display rounding). */
  lemma BreakdownSums(records: seq<Expense>)
    requires ExpenseTotal(records) > 0
    ensures SumOf(Breakdown(records), RowAmount) == Summarize(records, None).expense
    ensures PercentSum(Breakdown(records)) == 100.0
  {
    var total := ExpenseTotal(records);
    var totals := CategoryTotals(records);
    var sorted := SortBy(totals, Descending);
    TotalsSum(Filter(records, IsExpense));
    SortBySum(totals, Descending, TotalAmount);
    RowsSums(sorted, total);
    assert Breakdown(records) == Rows(sorted, total);
    PercentOfWhole(total as real);
  }

  lemma PercentAdd(a: real, b: real, t: real)
    requires t != 0.0
    ensures (a / t) * 100.0 + (b / t) * 100.0 == ((a + b) / t) * 100.0
  {
  }

  lemma PercentOfWhole(t: real)
    requires t != 0.0
    ensures (t / t) * 100.0 == 100.0
  {
  }

  lemma PercentBound(a: real, t: real)
    requires 0.0 < a <= t
    ensures 0.0 < (a / t) * 100.0 <= 100.0
  {
    assert a / t <= 1.0;
  }

  lemma {:induction false} RowsSums(sorted: seq<CategoryTotal>, total: int)
    requires total != 0
    ensures SumOf(Rows(sorted, total), RowAmount) == SumOf(sorted, TotalAmount)
    ensures PercentSum(Rows(sorted, total)) == (SumOf(sorted, TotalAmount) as real / total as real) * 100.0
  {
    if sorted != [] {
      var n := |sorted| - 1;
      RowsSums(sorted[..n], total);
      var rows := Rows(sorted, total);
      assert rows[..n] == Rows(sorted[..n], total);
      PercentAdd(SumOf(sorted[..n], TotalAmount) as real, sorted[n].amount as real, total as real);
    }
  }

  /** With positive amounts every percentage lies in (0, 100]. */
  lemma BreakdownPercentBounds(records: seq<Expense>, k: nat)
    requires forall i :: 0 <= i < |records| ==> records[i].amount > 0
    requires k < |Breakdown(records)|
    ensures 0.0 < Breakdown(records)[k].percentage <= 100.0
  {
    var ex := Filter(records, IsExpense);
    var total := ExpenseTotal(records);
    var totals := CategoryTotals(records);
    var sorted := SortBy(totals, Descending);
    TotalsSum(ex);
    forall i | 0 <= i < |ex|
      ensures ex[i].amount > 0
    {
      assert ex[i] in records;
    }
    TotalsPositive(ex);
    SortByFacts(totals, Descending);
    SortBySum(totals, Descending, TotalAmount);
    forall i | 0 <= i < |sorted|
      ensures sorted[i].amount > 0
    {
      assert sorted[i] in multiset(totals);
    }
    EntryAtMostSum(sorted, k);
    var rows := Breakdown(records);
    assert rows == Rows(sorted, total);
    RowPercentage(sorted, total, k);
    PercentBound(sorted[k].amount as real, total as real);
  }

  lemma {:induction false} RowPercentage(sorted: seq<CategoryTotal>, total: int, k: nat)
    requires total != 0
    requires k < |sorted|
    ensures Rows(sorted, total)[k].percentage == Percentage(sorted[k].amount, total)
  {
    var n := |sorted| - 1;
    if k < n {
      RowPercentage(sorted[..n], total, k);
    }
  }

  /** A worked month: two Food expenses of 100 and 50, an income of 200,
      and a salary of 1000. */
  const ExampleRecords: seq<Expense> := [
    Expense(RecordId("a", ""), "Lunch", 100, "Food", "2024-03-01", "expense"),
    Expense(RecordId("b", ""), "Dinner", 50, "Food", "2024-03-02", "expense"),
    Expense(RecordId("c", ""), "Refund", 200, "Other", "2024-03-03", "income")]

  /** The example's two expenses and its one income. */
  lemma ExampleKinds()
    ensures Filter(ExampleRecords, IsExpense) == ExampleRecords[..2]
    ensures Filter(ExampleRecords, IsIncome) == [ExampleRecords[2]]
  {
    var r := ExampleRecords;
    assert r[..2][..1] == [r[0]];
    assert r[..1][..0] == [];
    assert r[..2] == [r[0], r[1]];
  }

  /** Its card: income 200, expense 150, balance 1050, total income 1200. */
  lemma ExampleSummary()
    ensures Summarize(ExampleRecords, Some(1000)) == Summary(200, 150, 1050, 1200, 1000)
  {
    var r := ExampleRecords;
    ExampleKinds();
    assert r[..2][..1] == [r[0]];
    assert [r[0]][..0] == [];
    assert [r[2]][..0] == [];
    assert SumOf([r[0]], Amount) == 100;
    assert SumOf(r[..2], Amount) == 150;
    assert SumOf([r[2]], Amount) == 200;
  }

  lemma ExampleCategoryTotals()
    ensures CategoryTotals(ExampleRecords) == [CategoryTotal("Food", 150)]
  {
    var r := ExampleRecords;
    ExampleKinds();
    ExampleLunchTotal();
    assert r[..2][..1] == [r[0]];
    assert Names([CategoryTotal("Food", 100)]) == ["Food"];
  }

  lemma ExampleLunchTotal()
    ensures Totals([ExampleRecords[0]]) == [CategoryTotal("Food", 100)]
  {
    assert [ExampleRecords[0]][..0] == [];
  }

  /** Its breakdown: one Food row of 150 at 100 percent. */
  lemma ExampleBreakdown()
    ensures Breakdown(ExampleRecords) == [BreakdownRow("Food", 150, 100.0)]
  {
    var t := [CategoryTotal("Food", 150)];
    ExampleSummary();
    ExampleCategoryTotals();
    assert SortBy(t, Descending) == t;
    PercentOfWhole(150.0);
    assert Rows(t, 150) == [BreakdownRow("Food", 150, Percentage(150, 150))];
  }


}
