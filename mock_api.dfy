/** The computations inside the mock API (src/mock/api.ts): the dashboard's
    figures for today and the monthly series of a year. */
module MockApi {
  import opened Seqs
  import opened Types

  /** `DashboardSummary`. */
  datatype DashboardSummary = DashboardSummary(todaySales: int, todayExpenses: int, todayNetCash: int)

  function SaleAmount(s: Sale): int { s.amount }

  function ExpenseAmount(e: Expense): int { e.amount }

  function SoldOn(today: string): Sale -> bool
  {
    (s: Sale) => s.saleDate == today
  }

  function SpentOn(today: string): Expense -> bool
  {
    (e: Expense) => e.expenseDate == today
  }

  /** `fetchDashboardSummary` over the given lists and date. */
  function DashboardSummaryOf(sales: seq<Sale>, expenses: seq<Expense>, today: string): DashboardSummary
  {
    var todaySales := SumOf(SaleAmount, Filter(SoldOn(today), sales));
    var todayExpenses := SumOf(ExpenseAmount, Filter(SpentOn(today), expenses));
    DashboardSummary(todaySales, todayExpenses, todaySales - todayExpenses)
  }

  /** The net cash is today's sales less today's expenses, and each sum counts
      a record exactly when it is dated today. */
  lemma DashboardSummarySpec(sales: seq<Sale>, expenses: seq<Expense>, today: string)
    ensures var d := DashboardSummaryOf(sales, expenses, today);
      d.todayNetCash == d.todaySales - d.todayExpenses
      && d.todaySales == SumOf(Masked(SaleAmount, SoldOn(today)), sales)
      && d.todayExpenses == SumOf(Masked(ExpenseAmount, SpentOn(today)), expenses)
  {
    SumOfFilter(SaleAmount, SoldOn(today), sales);
    SumOfFilter(ExpenseAmount, SpentOn(today), expenses);
  }

  /** A record of another day changes none of today's figures; one of today
      moves the net cash by its amount. */
  lemma DashboardSummaryOtherDays(sales: seq<Sale>, expenses: seq<Expense>, today: string, s: Sale, e: Expense)
    ensures s.saleDate != today ==>
      DashboardSummaryOf(sales + [s], expenses, today) == DashboardSummaryOf(sales, expenses, today)
    ensures e.expenseDate != today ==>
      DashboardSummaryOf(sales, expenses + [e], today) == DashboardSummaryOf(sales, expenses, today)
    ensures s.saleDate == today ==>
      DashboardSummaryOf(sales + [s], expenses, today).todayNetCash
        == DashboardSummaryOf(sales, expenses, today).todayNetCash + s.amount
    ensures e.expenseDate == today ==>
      DashboardSummaryOf(sales, expenses + [e], today).todayNetCash
        == DashboardSummaryOf(sales, expenses, today).todayNetCash - e.amount
  {
    assert (sales + [s])[..|sales|] == sales;
    assert (expenses + [e])[..|expenses|] == expenses;
    var fs := Filter(SoldOn(today), sales);
    var fe := Filter(SpentOn(today), expenses);
    assert (fs + [s])[..|fs|] == fs;
    assert (fe + [e])[..|fe|] == fe;
  }

  /** `MonthlyTrends`: four monthly series of one year. */
  datatype MonthlyTrends = MonthlyTrends(
    year: int,
    sales: seq<MonthlyData>,
    expenses: seq<MonthlyData>,
    receivables: seq<MonthlyData>,
    customers: seq<MonthlyData>)

  /** `Array.from({ length: 12 }, (_, i) => ({ month: i + 1, value: 0 }))`. */
  function ZeroSeries(): seq<MonthlyData>
  {
    seq(12, i => MonthlyData(i + 1, 0))
  }

  /** A series of `values`, month `i + 1` holding `values[i]`. */
  function Series(values: seq<int>): seq<MonthlyData>
  {
    seq(|values|, i requires 0 <= i < |values| => MonthlyData(i + 1, values[i]))
  }

  /** `generate2025MonthlyData`. */
  const Trends2025: MonthlyTrends := MonthlyTrends(
    2025,
    Series([15000000, 18000000, 22000000, 19000000, 24000000, 21000000,
            26000000, 23000000, 25000000, 28000000, 30000000, 32000000]),
    Series([8000000, 9500000, 11000000, 10000000, 12000000, 11500000,
            13000000, 12500000, 13500000, 14000000, 15000000, 16000000]),
    Series([2000000, 2500000, 3000000, 2800000, 3500000, 3200000,
            4000000, 3800000, 4200000, 4500000, 5000000, 5500000]),
    Series([45, 48, 52, 55, 60, 63, 68, 71, 75, 80, 85, 90]))

  /** `fetchMonthlyTrends(year)`: the 2025 test data, and all-zero series for
      every other year. */
  function MonthlyTrendsOf(year: int): MonthlyTrends
  {
    if year == 2025 then Trends2025
    else MonthlyTrends(year, ZeroSeries(), ZeroSeries(), ZeroSeries(), ZeroSeries())
  }

  /** Twelve points for months 1 to 12, in order. */
  predicate Monthly(series: seq<MonthlyData>)
  {
    |series| == 12 && forall i :: 0 <= i < 12 ==> series[i].month == i + 1
  }

  /** Every year's four series list months 1 to 12 in order; the year is the
      one asked for; outside 2025 every value is 0. */
  lemma MonthlyTrendsSpec(year: int)
    ensures var m := MonthlyTrendsOf(year);
      m.year == year
      && Monthly(m.sales) && Monthly(m.expenses) && Monthly(m.receivables) && Monthly(m.customers)
    ensures year != 2025 ==> var m := MonthlyTrendsOf(year);
      forall i :: 0 <= i < 12 ==>
        m.sales[i].value == 0 && m.expenses[i].value == 0
        && m.receivables[i].value == 0 && m.customers[i].value == 0
  {
  }

  /** In the 2025 data every month's sales exceed its expenses. */
  lemma Sales2025ExceedExpenses()
    ensures forall i :: 0 <= i < 12 ==> Trends2025.sales[i].value > Trends2025.expenses[i].value
  {
  }
}
