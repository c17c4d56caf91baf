/** Profit analysis (pages/reports/ProfitAnalysis.tsx): the totals over sales,
    expenses and payroll, the net profit and margin, expenses per category,
    and the monthly profit series. */
module ProfitAnalysis {
  import opened Seqs
  import opened Types
  import opened Grouping
  import MockApi

  function SaleAmount(s: Sale): int { s.amount }

  function ExpenseAmount(e: Expense): int { e.amount }

  function PayAmount(p: Payroll): int { p.payAmount }

  function ExpenseCategoryOf(e: Expense): ExpenseCategory { e.category }

  datatype Totals = Totals(totalSales: int, totalExpenses: int, totalPayroll: int, totalCost: int, netProfit: int)

  /** `totalSales`, `totalExpenses`, `totalPayroll`, `totalCost` and `netProfit`. */
  function TotalsOf(sales: seq<Sale>, expenses: seq<Expense>, payrolls: seq<Payroll>): Totals
  {
    var totalSales := SumOf(SaleAmount, sales);
    var totalExpenses := SumOf(ExpenseAmount, expenses);
    var totalPayroll := SumOf(PayAmount, payrolls);
    var totalCost := totalExpenses + totalPayroll;
    Totals(totalSales, totalExpenses, totalPayroll, totalCost, totalSales - totalCost)
  }

  /** The cost is expenses plus payroll and the net profit is sales less the
      cost; every further sale raises the net profit by its amount and every
      further expense or payment lowers it by its amount. */
  lemma NetProfitSpec(sales: seq<Sale>, expenses: seq<Expense>, payrolls: seq<Payroll>, s: Sale, e: Expense, p: Payroll)
    ensures var t := TotalsOf(sales, expenses, payrolls);
      t.totalCost == t.totalExpenses + t.totalPayroll && t.netProfit == t.totalSales - t.totalCost
    ensures TotalsOf(sales + [s], expenses, payrolls).netProfit == TotalsOf(sales, expenses, payrolls).netProfit + s.amount
    ensures TotalsOf(sales, expenses + [e], payrolls).netProfit == TotalsOf(sales, expenses, payrolls).netProfit - e.amount
    ensures TotalsOf(sales, expenses, payrolls + [p]).netProfit == TotalsOf(sales, expenses, payrolls).netProfit - p.payAmount
  {
    assert (sales + [s])[..|sales|] == sales;
    assert (expenses + [e])[..|expenses|] == expenses;
    assert (payrolls + [p])[..|payrolls|] == payrolls;
  }

  /** A sum of non-negative amounts is non-negative. */
  lemma {:induction false} SumOfNonNegative<T>(f: T -> int, s: seq<T>)
    requires forall i :: 0 <= i < |s| ==> f(s[i]) >= 0
    ensures SumOf(f, s) >= 0
    decreases |s|
  {
    if s != [] {
      SumOfNonNegative(f, s[..|s| - 1]);
    }
  }

  /** A fraction `num / den`. */
  datatype Fraction = Fraction(num: int, den: int)

  /** `profitMargin` in percent, exactly: `netProfit / totalSales * 100`
      when there are sales, 0 otherwise. */
  function ProfitMargin(t: Totals): Fraction
  {
    if t.totalSales > 0 then Fraction(100 * t.netProfit, t.totalSales) else Fraction(0, 1)
  }

  /** The margin is 0 without positive sales; otherwise it is the net profit
      as a percentage of sales, negative exactly when the business lost money,
      and at most 100% when no expense or payment is negative. */
  lemma ProfitMarginSpec(sales: seq<Sale>, expenses: seq<Expense>, payrolls: seq<Payroll>)
    ensures var t := TotalsOf(sales, expenses, payrolls); var m := ProfitMargin(t);
      m.den > 0
      && (t.totalSales <= 0 ==> m.num == 0)
      && (t.totalSales > 0 ==> m.num * t.totalSales == 100 * t.netProfit * m.den && (m.num < 0 <==> t.netProfit < 0))
    ensures (forall i :: 0 <= i < |expenses| ==> expenses[i].amount >= 0)
      && (forall i :: 0 <= i < |payrolls| ==> payrolls[i].payAmount >= 0)
      ==> ProfitMargin(TotalsOf(sales, expenses, payrolls)).num <= 100 * ProfitMargin(TotalsOf(sales, expenses, payrolls)).den
  {
    if (forall i :: 0 <= i < |expenses| ==> expenses[i].amount >= 0)
      && (forall i :: 0 <= i < |payrolls| ==> payrolls[i].payAmount >= 0)
    {
      SumOfNonNegative(ExpenseAmount, expenses);
      SumOfNonNegative(PayAmount, payrolls);
    }
  }

  /** The value `expenseByCategory` should hold for category `c` after the
      expenses `s`. */
  function CategoryTotal(s: seq<Expense>, c: ExpenseCategory): int
    decreases |s|
  {
    if s == [] then 0
    else CategoryTotal(s[..|s| - 1], c) + (if s[|s| - 1].category == c then s[|s| - 1].amount else 0)
  }

  lemma {:induction false} CategoryTotalIsGroupSum(s: seq<Expense>, c: ExpenseCategory)
    ensures CategoryTotal(s, c) == GroupSum(s, ExpenseCategoryOf, ExpenseAmount, c)
    decreases |s|
  {
    if s != [] {
      var s' := s[..|s| - 1];
      CategoryTotalIsGroupSum(s', c);
      assert s == s' + [s[|s| - 1]];
      GroupSumSnoc(s', ExpenseCategoryOf, ExpenseAmount, s[|s| - 1], c);
    }
  }

  /** `categories` and `totals` are the accumulator after the expenses `s`. */
  predicate Summed(s: seq<Expense>, categories: seq<ExpenseCategory>, totals: map<ExpenseCategory, int>)
  {
    categories == KeysInOrder(s, ExpenseCategoryOf)
    && (forall c :: c in totals <==> c in categories)
    && (forall c :: c in totals ==> totals[c] == CategoryTotal(s, c))
  }

  lemma SumStep(s: seq<Expense>, i: int, categories: seq<ExpenseCategory>, totals: map<ExpenseCategory, int>)
    requires 0 <= i < |s| && Summed(s[..i], categories, totals)
    ensures var c := s[i].category;
      var prev := if c in totals then totals[c] else 0;
      Summed(s[..i + 1], if c in totals then categories else categories + [c], totals[c := prev + s[i].amount])
  {
    KeysStep(s, i, ExpenseCategoryOf);
    assert s[..i + 1][..i] == s[..i];
    var c := s[i].category;
    if c !in totals {
      CategoryTotalIsGroupSum(s[..i], c);
      GroupOfAbsentKey(s[..i], ExpenseCategoryOf, c);
    }
  }

  /** `expenseByCategory`: the reduce that opens a category at 0 the first
      time it is met and adds each expense to its category. */
  method ExpenseByCategory(expenses: seq<Expense>) returns (categories: seq<ExpenseCategory>, totals: map<ExpenseCategory, int>)
    ensures Summed(expenses, categories, totals)
  {
    categories := [];
    totals := map[];
    var i := 0;
    while i < |expenses|
      invariant 0 <= i <= |expenses|
      invariant Summed(expenses[..i], categories, totals)
    {
      SumStep(expenses, i, categories, totals);
      var c := expenses[i].category;
      var prev := if c in totals then totals[c] else 0;
      if c !in totals {
        categories := categories + [c];
      }
      totals := totals[c := prev + expenses[i].amount];
      i := i + 1;
    }
    assert expenses[..i] == expenses;
  }

  /** Only categories that occur are listed, and the category totals add up
      to `totalExpenses`. */
  lemma ExpenseByCategoryAddsUp(expenses: seq<Expense>, c: ExpenseCategory)
    ensures c in KeysInOrder(expenses, ExpenseCategoryOf) <==> exists i :: 0 <= i < |expenses| && expenses[i].category == c
    ensures CategoryTotal(expenses, c) == SumOf(ExpenseAmount, Group(expenses, ExpenseCategoryOf, c))
    ensures SumOverKeys(KeysInOrder(expenses, ExpenseCategoryOf), expenses, ExpenseCategoryOf, ExpenseAmount)
      == TotalsOf([], expenses, []).totalExpenses
  {
    KeysInOrderSpec(expenses, ExpenseCategoryOf, c);
    CategoryTotalIsGroupSum(expenses, c);
    GroupSumsPartition(expenses, ExpenseCategoryOf, ExpenseAmount);
  }

  /** `monthlyProfitData`: month by month, sales less expenses; nothing
      before the trends arrive. Reading `expenses[index]` needs an expense
      point for every sales point. */
  function MonthlyProfit(trends: Option<MockApi.MonthlyTrends>): seq<MonthlyData>
    requires trends.Some? ==> |trends.value.expenses| >= |trends.value.sales|
  {
    match trends
    case None => []
    case Some(m) => seq(|m.sales|, i requires 0 <= i < |m.sales| => MonthlyData(m.sales[i].month, m.sales[i].value - m.expenses[i].value))
  }

  /** For the trends the API returns, the profit series is well defined and
      covers months 1 to 12; it is all 0 outside 2025 and positive in every
      month of 2025. */
  lemma MonthlyProfitOfFetched(year: int)
    ensures var m := MockApi.MonthlyTrendsOf(year);
      |m.expenses| >= |m.sales|
      && MockApi.Monthly(MonthlyProfit(Some(m)))
      && (forall i :: 0 <= i < 12 ==> MonthlyProfit(Some(m))[i].value == m.sales[i].value - m.expenses[i].value)
    ensures year != 2025 ==> forall i :: 0 <= i < 12 ==> MonthlyProfit(Some(MockApi.MonthlyTrendsOf(year)))[i].value == 0
    ensures year == 2025 ==> forall i :: 0 <= i < 12 ==> MonthlyProfit(Some(MockApi.MonthlyTrendsOf(year)))[i].value > 0
  {
    MockApi.MonthlyTrendsSpec(year);
    MockApi.Sales2025ExceedExpenses();
  }
}
